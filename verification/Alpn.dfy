/** Server-side ALPN selection: the walk over the client's protocol list, section 3.1 of RFC 7301. */
module Alpn {
  import opened Wrappers

  newtype byte = x: int | 0 <= x < 256

  /** C's `unsigned int`; every operation on it is proved not to wrap. */
  newtype uint32 = x: int | 0 <= x < 0x1_0000_0000

  /** "h2". */
  const H2: seq<byte> := [104, 50]

  predicate Names(names: seq<seq<byte>>) {
    forall n | n in names :: |n| < 256
  }

  /** A protocol list on the wire: each name behind its one-byte length. */
  function Serialise(names: seq<seq<byte>>): seq<byte>
    requires Names(names)
  {
    if names == [] then [] else [|names[0]| as byte] + names[0] + Serialise(names[1..])
  }

  function Shift(n: nat, at: Option<nat>): Option<nat> {
    match at
    case None => None
    case Some(k) => Some(n + k)
  }

  /** Offset of the first name equal to "h2" among the complete names at the front of the buffer. */
  function Scan(buf: seq<byte>): Option<nat>
    decreases |buf|
  {
    if buf == [] then None
    else
      var len := buf[0] as nat;
      if 1 + len > |buf| then None
      else if buf[1..1 + len] == H2 then Some(1)
      else Shift(1 + len, Scan(buf[1 + len..]))
  }

  /**
   The callback. Every read is in bounds and the 32-bit index never wraps, for any
   buffer whose length leaves room for one more name; an ALPN list is at most 65535 bytes.
   */
  method Select(buf: array<byte>) returns (out: Option<nat>)
    requires buf.Length <= 0xFFFF_FF00
    ensures out == Scan(buf[..])
  {
    hide Scan;
    var i: uint32, inlen: uint32 := 0, buf.Length as uint32;
    assert buf[0..] == buf[..];
    while i < inlen
      invariant 0 <= i <= inlen
      invariant Scan(buf[..]) == Shift(i as nat, Scan(buf[..][i as nat..]))
    {
      ScanFrom(buf[..], i as nat);
      var len: uint32 := buf[i] as uint32;
      if i + 1 + len > inlen {
        break;
      }
      if len == 2 && buf[i + 1] == 104 && buf[i + 2] == 50 {
        return Some(i as nat + 1);
      }
      i := i + 1 + len;
    }
    ScanEnd(buf[..]);
    return None;
  }

  /** One turn of the walk, in terms of the whole buffer. */
  lemma ScanFrom(buf: seq<byte>, i: nat)
    requires i < |buf|
    ensures var len := buf[i] as nat;
            Scan(buf[i..])
            == if i + 1 + len > |buf| then None
               else if len == 2 && buf[i + 1] == 104 && buf[i + 2] == 50 then Some(1)
               else Shift(1 + len, Scan(buf[i + 1 + len..]))
  {
    var tail := buf[i..];
    var len := buf[i] as nat;
    if i + 1 + len <= |buf| {
      assert tail[1..1 + len] == buf[i + 1..i + 1 + len];
      assert tail[1 + len..] == buf[i + 1 + len..];
      if len == 2 {
        assert buf[i + 1..i + 3] == [buf[i + 1], buf[i + 2]];
      }
    }
  }

  lemma ScanEnd(buf: seq<byte>)
    ensures Scan(buf[|buf|..]) == None
  {
  }

  predicate Splits(buf: seq<byte>, out: nat, names: seq<seq<byte>>, rest: seq<byte>) {
    && Names(names) && H2 !in names
    && buf == Serialise(names) + ([2] + H2 + rest)
    && out == |Serialise(names)| + 1
  }

  /** `out` is where "h2" starts, behind a list of other names, with anything after it. */
  ghost predicate FirstH2(buf: seq<byte>, out: nat) {
    exists names, rest :: Splits(buf, out, names, rest)
  }

  lemma SerialiseCons(head: seq<byte>, names: seq<seq<byte>>)
    requires |head| < 256 && Names(names)
    ensures Names([head] + names)
    ensures Serialise([head] + names) == [|head| as byte] + head + Serialise(names)
  {
    assert ([head] + names)[1..] == names;
  }

  lemma {:induction false} ScanSkips(names: seq<seq<byte>>, tail: seq<byte>)
    requires Names(names) && H2 !in names
    ensures Scan(Serialise(names) + tail) == Shift(|Serialise(names)|, Scan(tail))
  {
    hide Scan;
    if names == [] {
      assert Serialise(names) + tail == tail;
    } else {
      var rest := Serialise(names[1..]) + tail;
      assert Serialise(names) + tail == [|names[0]| as byte] + names[0] + rest;
      ScanHead(names[0], rest);
      assert names[0] in names;
      ScanSkips(names[1..], tail);
    }
  }

  lemma ScanHead(head: seq<byte>, rest: seq<byte>)
    requires |head| < 256
    ensures Scan([|head| as byte] + head + rest) == if head == H2 then Some(1) else Shift(1 + |head|, Scan(rest))
  {
    var buf := [|head| as byte] + head + rest;
    assert buf[1..1 + |head|] == head;
    assert buf[1 + |head|..] == rest;
  }

  lemma {:induction false} ScanDecomposes(buf: seq<byte>) returns (names: seq<seq<byte>>, rest: seq<byte>)
    requires Scan(buf).Some?
    ensures Splits(buf, Scan(buf).value, names, rest)
    decreases |buf|
  {
    var len := buf[0] as nat;
    var head, tail := buf[1..1 + len], buf[1 + len..];
    assert buf == [len as byte] + head + tail;
    ScanHead(head, tail);
    if head == H2 {
      names, rest := [], tail;
    } else {
      names, rest := ScanDecomposes(tail);
      SplitsCons(tail, Scan(tail).value, head, names, rest);
      names := [head] + names;
    }
  }

  lemma SplitsCons(tail: seq<byte>, out: nat, head: seq<byte>, names: seq<seq<byte>>, rest: seq<byte>)
    requires Splits(tail, out, names, rest) && |head| < 256 && head != H2
    ensures Splits([|head| as byte] + head + tail, 1 + |head| + out, [head] + names, rest)
  {
    SerialiseCons(head, names);
  }

  /** For every buffer, well formed or not, the walk finds exactly the first "h2" that complete names lead to. */
  lemma ScanIffFirstH2(buf: seq<byte>, out: nat)
    ensures Scan(buf) == Some(out) <==> FirstH2(buf, out)
  {
    if Scan(buf).Some? {
      var _, _ := ScanDecomposes(buf);
    }
    if FirstH2(buf, out) {
      var names, rest :| Splits(buf, out, names, rest);
      ScanSkips(names, [2] + H2 + rest);
      ScanHead(H2, rest);
    }
  }

  /** For every serialised list, selection succeeds exactly when "h2" is offered. */
  lemma {:induction false} SelectsIffOffered(names: seq<seq<byte>>)
    requires Names(names)
    ensures Scan(Serialise(names)).Some? <==> H2 in names
  {
    if names == [] {
    } else {
      ScanHead(names[0], Serialise(names[1..]));
      SelectsIffOffered(names[1..]);
      assert names == [names[0]] + names[1..];
    }
  }

  /** And the one selected is the first "h2" of the list: the offset is where its name starts. */
  lemma SelectsFirstOffered(names: seq<seq<byte>>, k: nat)
    requires Names(names) && k < |names| && names[k] == H2 && H2 !in names[..k]
    ensures Scan(Serialise(names)) == Some(|Serialise(names[..k])| + 1)
  {
    hide Scan;
    var rest := names[k + 1..];
    SerialiseConcat(names[..k], names[k..]);
    assert names[..k] + names[k..] == names;
    SerialiseCons(H2, rest);
    assert names[k..] == [H2] + rest;
    ScanSkips(names[..k], Serialise(names[k..]));
    ScanHead(H2, Serialise(rest));
  }

  lemma {:induction false} SerialiseConcat(a: seq<seq<byte>>, b: seq<seq<byte>>)
    requires Names(a) && Names(b)
    ensures Names(a + b) && Serialise(a + b) == Serialise(a) + Serialise(b)
  {
    if a == [] {
      assert a + b == b;
    } else {
      assert (a + b)[1..] == a[1..] + b;
      SerialiseConcat(a[1..], b);
    }
  }
}
