/** Prompt order: sorting any enumeration of the participant map by join index gives the join order. */
module JoinOrder {
  import opened Wrappers
  import opened Records
  import opened SessionRules
  import opened SessionInvariant
  import opened Prompt

  /** `ts` lists the keys of `ps`, each once, in whatever order the hash map yields them. */
  predicate Enumerates(ts: seq<string>, keys: set<string>) {
    && (forall i, j | 0 <= i < j < |ts| :: ts[i] != ts[j])
    && (forall t | t in ts :: t in keys)
    && (forall t | t in keys :: t in ts)
  }

  predicate SortedByJoin(ts: seq<string>, ps: map<string, Participant>) {
    && (forall t | t in ts :: t in ps)
    && forall i, j | 0 <= i < j < |ts| :: ps[ts[i]].joinIndex <= ps[ts[j]].joinIndex
  }

  lemma EnumerationSize(ts: seq<string>, keys: set<string>)
    requires Enumerates(ts, keys)
    ensures |ts| == |keys|
    decreases |ts|
  {
    if ts == [] {
      assert keys == {};
    } else {
      var n := |ts| - 1;
      forall t | t in keys - {ts[n]} ensures t in ts[..n] {
        assert t in ts;
      }
      EnumerationSize(ts[..n], keys - {ts[n]});
    }
  }

  /** Whatever the enumeration order was, the sorted list is the join order. */
  lemma SortedIsJoinOrder(s: Session, ts: seq<string>)
    requires RosterOk(s) && Enumerates(ts, s.participants.Keys) && SortedByJoin(ts, s.participants)
    ensures ts == s.tokens
  {
    EnumerationSize(ts, s.participants.Keys);
    forall i | 0 <= i < |ts| ensures ts[i] == s.tokens[i] {
      AtLeast(s, ts, i);
      AtMost(s, ts, i);
    }
  }

  lemma StrictlySorted(s: Session, ts: seq<string>, i: nat, j: nat)
    requires RosterOk(s) && Enumerates(ts, s.participants.Keys) && SortedByJoin(ts, s.participants)
    requires i < j < |ts|
    ensures s.participants[ts[i]].joinIndex < s.participants[ts[j]].joinIndex
  {
    assert ts[i] in s.participants && ts[j] in s.participants && ts[i] != ts[j];
  }

  lemma {:induction false} AtLeast(s: Session, ts: seq<string>, i: nat)
    requires RosterOk(s) && Enumerates(ts, s.participants.Keys) && SortedByJoin(ts, s.participants) && i < |ts|
    ensures s.participants[ts[i]].joinIndex >= i
  {
    if i > 0 {
      AtLeast(s, ts, i - 1);
      StrictlySorted(s, ts, i - 1, i);
    }
  }

  lemma {:induction false} AtMost(s: Session, ts: seq<string>, i: nat)
    requires RosterOk(s) && Enumerates(ts, s.participants.Keys) && SortedByJoin(ts, s.participants)
    requires i < |ts| == |s.tokens|
    ensures s.participants[ts[i]].joinIndex <= i
    decreases |ts| - i
  {
    assert ts[i] in s.participants;
    if i + 1 < |ts| {
      AtMost(s, ts, i + 1);
      StrictlySorted(s, ts, i, i + 1);
    }
  }

  /** Block k + 1 of the prompt frames the input of the k-th joiner; the creator, who joined 0-th, comes first. */
  lemma KthBlockIsKthJoiner(s: Session, t: string, suffix: string)
    requires RosterOk(s) && t in s.participants
    ensures var k := s.participants[t].joinIndex;
            var inputs := OrderedInputs(s);
            && k < |inputs|
            && Blocks(1, inputs, suffix)
               == Blocks(1, inputs[..k], suffix) + Block(k + 1, s.participants[t].inputJson, suffix)
                  + Blocks(k + 2, inputs[k + 1..], suffix)
  {
    var k := s.participants[t].joinIndex;
    var inputs := OrderedInputs(s);
    assert inputs[k] == s.participants[t].inputJson;
    assert inputs == inputs[..k] + ([inputs[k]] + inputs[k + 1..]);
    BlocksConcat(1, inputs[..k], [inputs[k]] + inputs[k + 1..], suffix);
    BlocksConcat(k + 1, [inputs[k]], inputs[k + 1..], suffix);
    BlocksOne(k + 1, inputs[k], suffix);
  }

  // ----- the two loops of the snapshot -----

  /** Collect the keys of the hash map in iteration order. */
  method CollectTokens(ps: map<string, Participant>) returns (ts: seq<string>)
    ensures Enumerates(ts, ps.Keys)
  {
    ts := [];
    var rest := ps.Keys;
    while rest != {}
      invariant rest <= ps.Keys
      invariant Enumerates(ts, ps.Keys - rest)
    {
      var t :| t in rest;
      ts := ts + [t];
      rest := rest - {t};
    }
    assert ps.Keys - rest == ps.Keys;
  }

  /** Sort by join index. */
  method SortTokens(ts: seq<string>, ps: map<string, Participant>) returns (sorted: seq<string>)
    requires Enumerates(ts, ps.Keys)
    ensures Enumerates(sorted, ps.Keys) && SortedByJoin(sorted, ps)
  {
    sorted := [];
    for n := 0 to |ts|
      invariant Enumerates(sorted, Elements(ts[..n])) && SortedByJoin(sorted, ps)
    {
      var at := 0;
      while at < |sorted| && ps[sorted[at]].joinIndex < ps[ts[n]].joinIndex
        invariant 0 <= at <= |sorted|
        invariant forall i | 0 <= i < at :: ps[sorted[i]].joinIndex < ps[ts[n]].joinIndex
      {
        at := at + 1;
      }
      InsertKeepsOrder(sorted, ps, ts[n], at);
      InsertKeepsElements(sorted, ts[n], at, Elements(ts[..n]));
      ElementsSnoc(ts, n);
      sorted := InsertAt(sorted, at, ts[n]);
    }
    assert Elements(ts[..|ts|]) == ps.Keys by { assert ts[..|ts|] == ts; }
  }

  function InsertAt(ts: seq<string>, at: nat, t: string): seq<string>
    requires at <= |ts|
  {
    ts[..at] + [t] + ts[at..]
  }

  lemma InsertKeepsOrder(sorted: seq<string>, ps: map<string, Participant>, t: string, at: nat)
    requires SortedByJoin(sorted, ps) && t in ps && at <= |sorted|
    requires forall i | 0 <= i < at :: ps[sorted[i]].joinIndex < ps[t].joinIndex
    requires at < |sorted| ==> ps[t].joinIndex <= ps[sorted[at]].joinIndex
    ensures SortedByJoin(InsertAt(sorted, at, t), ps)
  {
    var r := InsertAt(sorted, at, t);
    forall k | k in r ensures k in ps {
      assert k in sorted || k == t;
    }
    forall i, j | 0 <= i < j < |r| ensures ps[r[i]].joinIndex <= ps[r[j]].joinIndex {
      assert at < |sorted| && at < j ==> ps[sorted[at]].joinIndex <= ps[sorted[j - 1]].joinIndex;
    }
  }

  lemma InsertKeepsElements(ts: seq<string>, t: string, at: nat, keys: set<string>)
    requires Enumerates(ts, keys) && t !in keys && at <= |ts|
    ensures Enumerates(InsertAt(ts, at, t), keys + {t})
  {
    var r := InsertAt(ts, at, t);
    assert forall k | k in ts :: k in keys;
    forall k | k in keys ensures k in r {
      assert k in ts[..at] + ts[at..] by { assert ts == ts[..at] + ts[at..]; }
    }
    forall i, j | 0 <= i < j < |r| ensures r[i] != r[j] {
      assert i != at ==> r[i] in ts;
      assert j != at ==> r[j] in ts;
    }
  }

  function Elements(ts: seq<string>): set<string> {
    set t | t in ts
  }

  lemma ElementsSnoc(ts: seq<string>, n: nat)
    requires n < |ts|
    ensures Elements(ts[..n + 1]) == Elements(ts[..n]) + {ts[n]}
  {
    assert ts[..n + 1] == ts[..n] + [ts[n]];
  }

  /** Frame the inputs in list order. */
  method FrameInputs(s: Session, ts: seq<string>, suffix: string) returns (block: string)
    requires forall t | t in ts :: t in s.participants
    ensures block == Blocks(1, seq(|ts|, i requires 0 <= i < |ts| => s.participants[ts[i]].inputJson), suffix)
  {
    block := "";
    ghost var inputs := seq(|ts|, i requires 0 <= i < |ts| => s.participants[ts[i]].inputJson);
    for n := 0 to |ts|
      invariant block == Blocks(1, inputs[..n], suffix)
    {
      BlocksConcat(1, inputs[..n], [s.participants[ts[n]].inputJson], suffix);
      BlocksOne(n + 1, s.participants[ts[n]].inputJson, suffix);
      assert inputs[..n + 1] == inputs[..n] + [s.participants[ts[n]].inputJson];
      block := block + Block(n + 1, s.participants[ts[n]].inputJson, suffix);
    }
    assert inputs[..|ts|] == inputs;
  }

  /** The locked part of the worker: order the inputs, frame them, fill in the template. */
  method BuildJob(s: Session, suffix: string) returns (job: Job)
    requires RosterOk(s)
    ensures job == JobOf(s, suffix)
  {
    var collected := CollectTokens(s.participants);
    var ts := SortTokens(collected, s.participants);
    SortedIsJoinOrder(s, ts);
    var block := FrameInputs(s, ts, suffix);
    assert OrderedInputs(s) == seq(|ts|, i requires 0 <= i < |ts| => s.participants[ts[i]].inputJson);
    var prompt := Render(s.policyDef.promptTemplate, Decimal(|s.participants|), block);
    var schema := s.policy.outputSchema;
    if schema == "" {
      schema := s.policyDef.outputSchema;
    }
    job := Job(prompt, schema, suffix);
  }
}
