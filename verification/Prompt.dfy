/**
 The text handed to the language model: every input between a BEGIN and an END
 marker that carry the participant's number and a random suffix, substituted
 into the policy's template.
 */
module Prompt {

  function Decimal(n: nat): string {
    var digit := ['0' + (n % 10) as char];
    if n < 10 then digit else Decimal(n / 10) + digit
  }

  /** Reading a decimal numeral back. */
  function Value(digits: string): int {
    if digits == "" then 0 else 10 * Value(digits[..|digits| - 1]) + (digits[|digits| - 1] as int - '0' as int)
  }

  /** Numerals read back as the number, and have no leading zero. */
  lemma {:induction false} DecimalValue(n: nat)
    ensures Decimal(n) != "" && Value(Decimal(n)) == n && (n > 0 ==> Decimal(n)[0] != '0')
  {
    var digits := Decimal(n);
    if n < 10 {
      assert digits[..0] == "";
    } else {
      DecimalValue(n / 10);
      assert digits[..|digits| - 1] == Decimal(n / 10);
    }
  }

  function BeginMarker(number: nat, suffix: string): string {
    "<<<PARTICIPANT_" + Decimal(number) + "_INPUT_BEGIN_" + suffix + ">>>"
  }

  function EndMarker(number: nat, suffix: string): string {
    "<<<PARTICIPANT_" + Decimal(number) + "_INPUT_END_" + suffix + ">>>"
  }

  /** One participant's framed input. */
  function Block(number: nat, input: string, suffix: string): string {
    BeginMarker(number, suffix) + "\n" + input + "\n" + EndMarker(number, suffix) + "\n\n"
  }

  /** The framed inputs of participants `first`, `first + 1`, ... in order. */
  function Blocks(first: nat, inputs: seq<string>, suffix: string): string
    decreases |inputs|
  {
    if inputs == [] then ""
    else Block(first, inputs[0], suffix) + Blocks(first + 1, inputs[1..], suffix)
  }

  /** Framing distributes over concatenation, numbering going on. */
  lemma {:induction false} BlocksConcat(first: nat, a: seq<string>, b: seq<string>, suffix: string)
    ensures Blocks(first, a + b, suffix) == Blocks(first, a, suffix) + Blocks(first + |a|, b, suffix)
    decreases |a|
  {
    if a == [] {
      assert a + b == b;
    } else {
      assert (a + b)[1..] == a[1..] + b;
      BlocksConcat(first + 1, a[1..], b, suffix);
    }
  }

  lemma BlocksOne(number: nat, input: string, suffix: string)
    ensures Blocks(number, [input], suffix) == Block(number, input, suffix)
  {
    assert [input][1..] == [];
    assert Blocks(number, [input], suffix) == Block(number, input, suffix) + "";
  }

  // ----- template substitution: one left-to-right pass, replaced text is not rescanned -----

  const COUNT_SLOT: string := "{num_participants}"
  const INPUTS_SLOT: string := "{inputs}"

  function Render(template: string, count: string, inputs: string): string
    decreases |template|
  {
    if template == "" then ""
    else if COUNT_SLOT <= template then count + Render(template[|COUNT_SLOT|..], count, inputs)
    else if INPUTS_SLOT <= template then inputs + Render(template[|INPUTS_SLOT|..], count, inputs)
    else [template[0]] + Render(template[1..], count, inputs)
  }

  lemma SlotsHaveOneBrace(i: nat)
    ensures 0 < i < |COUNT_SLOT| ==> COUNT_SLOT[i] != '{'
    ensures 0 < i < |INPUTS_SLOT| ==> INPUTS_SLOT[i] != '{'
  {
  }

  /** A placeholder that would reach past `prefix` would have to contain the brace that follows it. */
  lemma SlotStaysInside(slot: string, prefix: string, rest: string)
    requires slot == COUNT_SLOT || slot == INPUTS_SLOT
    requires prefix != "" && (rest == "" || rest[0] == '{')
    ensures slot <= prefix + rest <==> slot <= prefix
  {
    if |prefix| < |slot| {
      SlotsHaveOneBrace(|prefix|);
      if rest != "" {
        assert (prefix + rest)[|prefix|] == '{';
      }
    } else {
      assert (prefix + rest)[..|slot|] == prefix[..|slot|];
    }
  }

  /** How much of the template one turn consumes, and what it emits. */
  function Consumed(template: string): nat {
    if COUNT_SLOT <= template then |COUNT_SLOT| else if INPUTS_SLOT <= template then |INPUTS_SLOT| else 1
  }

  function Emitted(template: string, count: string, inputs: string): string
    requires template != ""
  {
    if COUNT_SLOT <= template then count else if INPUTS_SLOT <= template then inputs else template[..1]
  }

  lemma RenderTurn(template: string, count: string, inputs: string)
    ensures Render("", count, inputs) == ""
    ensures template != "" ==>
              && Consumed(template) <= |template|
              && Render(template, count, inputs)
                 == Emitted(template, count, inputs) + Render(template[Consumed(template)..], count, inputs)
  {
  }

  lemma TurnStaysInside(prefix: string, rest: string, count: string, inputs: string)
    requires prefix != "" && (rest == "" || rest[0] == '{')
    ensures Consumed(prefix + rest) == Consumed(prefix) <= |prefix|
    ensures Emitted(prefix + rest, count, inputs) == Emitted(prefix, count, inputs)
  {
    SlotStaysInside(COUNT_SLOT, prefix, rest);
    SlotStaysInside(INPUTS_SLOT, prefix, rest);
    assert (prefix + rest)[..1] == prefix[..1];
  }

  /** Rendering can be cut before any brace. */
  lemma {:induction false} RenderSplits(prefix: string, rest: string, count: string, inputs: string)
    requires rest == "" || rest[0] == '{'
    ensures Render(prefix + rest, count, inputs) == Render(prefix, count, inputs) + Render(rest, count, inputs)
    decreases |prefix|
  {
    hide Render, Emitted;
    RenderTurn(prefix, count, inputs);
    if prefix == "" {
      assert prefix + rest == rest;
    } else {
      var step := Consumed(prefix);
      TurnStaysInside(prefix, rest, count, inputs);
      RenderTurn(prefix + rest, count, inputs);
      assert (prefix + rest)[step..] == prefix[step..] + rest;
      RenderSplits(prefix[step..], rest, count, inputs);
    }
  }

  /** Text without a placeholder is left as it is. */
  lemma {:induction false} RenderKeepsText(template: string, count: string, inputs: string)
    requires !Contains(template, "{num_participants}") && !Contains(template, "{inputs}")
    ensures Render(template, count, inputs) == template
    decreases |template|
  {
    if template == "" {
    } else {
      NotHere(template, COUNT_SLOT);
      NotHere(template, INPUTS_SLOT);
      RenderKeepsText(template[1..], count, inputs);
    }
  }

  lemma NotHere(text: string, part: string)
    requires text != "" && !Contains(text, part)
    ensures !(part <= text) && !Contains(text[1..], part)
  {
    assert !OccursAt(text, part, 0);
    forall at | 0 <= at <= |text[1..]| ensures !OccursAt(text[1..], part, at) {
      assert !OccursAt(text, part, at + 1);
      assert at + |part| <= |text[1..]| ==> text[1..][at..at + |part|] == text[at + 1..at + 1 + |part|];
    }
  }

  lemma RenderInputsHere(rest: string, count: string, inputs: string)
    ensures Render(INPUTS_SLOT + rest, count, inputs) == inputs + Render(rest, count, inputs)
  {
    var template := INPUTS_SLOT + rest;
    assert template[1] == 'i' && COUNT_SLOT[1] == 'n';
    assert template[|INPUTS_SLOT|..] == rest;
  }

  lemma RenderCountHere(rest: string, count: string, inputs: string)
    ensures Render(COUNT_SLOT + rest, count, inputs) == count + Render(rest, count, inputs)
  {
    assert (COUNT_SLOT + rest)[|COUNT_SLOT|..] == rest;
  }

  /**
   Wherever a placeholder stands in the template, whatever precedes it and whatever
   the inputs contain, it is replaced verbatim, and rendering goes on after the
   placeholder, not inside the inserted text.
   */
  lemma RenderReplaces(prefix: string, postfix: string, count: string, inputs: string)
    ensures Render(prefix + (INPUTS_SLOT + postfix), count, inputs)
            == Render(prefix, count, inputs) + (inputs + Render(postfix, count, inputs))
    ensures Render(prefix + (COUNT_SLOT + postfix), count, inputs)
            == Render(prefix, count, inputs) + (count + Render(postfix, count, inputs))
  {
    hide Render;
    RenderSplits(prefix, INPUTS_SLOT + postfix, count, inputs);
    RenderInputsHere(postfix, count, inputs);
    RenderSplits(prefix, COUNT_SLOT + postfix, count, inputs);
    RenderCountHere(postfix, count, inputs);
  }

  /** Longer inputs and counts never give a shorter prompt. */
  lemma {:induction false} RenderGrows(template: string, c: string, d: string, x: string, y: string)
    requires |c| <= |d| && |x| <= |y|
    ensures |Render(template, c, x)| <= |Render(template, d, y)|
    ensures |c| == |d| && |x| == |y| ==> |Render(template, c, x)| == |Render(template, d, y)|
    decreases |template|
  {
    if template == "" {
    } else {
      RenderGrows(template[Consumed(template)..], c, d, x, y);
    }
  }

  /** A template that holds the inputs placeholder anywhere gives different prompts for different inputs. */
  lemma RenderInjective(prefix: string, postfix: string, c: string, d: string, x: string, y: string)
    requires |c| == |d|
    requires Render(prefix + (INPUTS_SLOT + postfix), c, x) == Render(prefix + (INPUTS_SLOT + postfix), d, y)
    ensures x == y
  {
    hide Render;
    RenderReplaces(prefix, postfix, c, x);
    RenderReplaces(prefix, postfix, d, y);
    if |x| <= |y| {
      RenderGrows(prefix, c, d, x, y);
      RenderGrows(postfix, c, d, x, y);
    } else {
      RenderGrows(prefix, d, c, y, x);
      RenderGrows(postfix, d, c, y, x);
    }
    SameMiddle(Render(prefix, c, x), Render(prefix, d, y), x, y, Render(postfix, c, x), Render(postfix, d, y));
  }

  lemma SameMiddle(a: string, b: string, x: string, y: string, p: string, q: string)
    requires |a| == |b| && |x| == |y| && a + (x + p) == b + (y + q)
    ensures x == y
  {
    assert x == (a + (x + p))[|a|..|a| + |x|];
    assert y == (b + (y + q))[|b|..|b| + |y|];
  }

  // ----- framing is injective -----

  predicate OccursAt(text: string, part: string, at: nat) {
    at + |part| <= |text| && text[at..at + |part|] == part
  }

  predicate Contains(text: string, part: string) {
    exists at | 0 <= at <= |text| :: OccursAt(text, part, at)
  }

  /** A text that contains a part can be cut around it. */
  lemma CutAround(text: string, part: string) returns (before: string, after: string)
    requires Contains(text, part)
    ensures text == before + (part + after)
  {
    var at :| 0 <= at <= |text| && OccursAt(text, part, at);
    before, after := text[..at], text[at + |part|..];
  }

  /** What closes an input: the newline and then its END marker. */
  function Closing(number: nat, suffix: string): string {
    "\n" + EndMarker(number, suffix)
  }

  /** No input carries a line that starts with its own END marker. */
  ghost predicate Unforged(first: nat, inputs: seq<string>, suffix: string) {
    forall i | 0 <= i < |inputs| :: !Contains(inputs[i], Closing(first + i, suffix))
  }

  lemma {:induction false} DecimalHasNoNewline(n: nat)
    ensures '\n' !in Decimal(n)
  {
    if n >= 10 {
      DecimalHasNoNewline(n / 10);
    }
  }

  /** The newline inside a closing is only at its front, so two closings cannot overlap. */
  lemma ClosingHasOneNewline(number: nat, suffix: string, i: nat)
    requires '\n' !in suffix
    requires 0 < i < |Closing(number, suffix)|
    ensures Closing(number, suffix)[i] != '\n'
  {
    DecimalHasNoNewline(number);
    assert Closing(number, suffix)[i] in EndMarker(number, suffix);
    assert forall c | c in "<<<PARTICIPANT_" :: c != '\n';
    assert forall c | c in "_INPUT_END_" :: c != '\n';
    assert forall c | c in ">>>" :: c != '\n';
    assert forall c | c in EndMarker(number, suffix) ::
        c in "<<<PARTICIPANT_" || c in Decimal(number) || c in "_INPUT_END_" || c in suffix || c in ">>>";
  }

  /** If two texts closed the same way agree, the shorter body cannot end inside the longer one. */
  lemma NoEarlyClosing(number: nat, suffix: string, a: string, b: string, restA: string, restB: string)
    requires '\n' !in suffix
    requires a + Closing(number, suffix) + restA == b + Closing(number, suffix) + restB
    requires !Contains(b, Closing(number, suffix))
    ensures |a| >= |b|
  {
    var m := Closing(number, suffix);
    if |a| < |b| {
      EarlyMatch(a, b, m, restA, restB);
      if |b| - |a| < |m| {
        ClosingHasOneNewline(number, suffix, |b| - |a|);
      }
    }
  }

  /** A closing met early either lies inside the longer body or overlaps the real one. */
  lemma EarlyMatch(a: string, b: string, m: string, restA: string, restB: string)
    requires m != "" && |a| < |b|
    requires a + m + restA == b + m + restB
    ensures var d := |b| - |a|; if d < |m| then m[d] == m[0] else OccursAt(b, m, |a|)
  {
    var d := |b| - |a|;
    var textA, textB := a + m + restA, b + m + restB;
    if d < |m| {
      assert m[d] == textA[|a| + d] == textB[|b|] == m[0];
    } else {
      assert b[|a|..|a| + |m|] == textB[|a|..|a| + |m|] == textA[|a|..|a| + |m|] == m;
    }
  }

  /** A framed text that begins another frames an initial part of the other's inputs. */
  lemma {:induction false} BlocksPrefix(first: nat, a: seq<string>, b: seq<string>, more: string, suffix: string)
    requires '\n' !in suffix
    requires Unforged(first, a, suffix) && Unforged(first, b, suffix)
    requires Blocks(first, a, suffix) == Blocks(first, b, suffix) + more
    ensures b <= a
    decreases |b|
  {
    hide Blocks, Contains, BeginMarker, EndMarker;
    BlocksEmptyIff(first, a, suffix);
    BlocksEmptyIff(first, b, suffix);
    if b == [] {
    } else {
      var restA, restB := "\n\n" + Blocks(first + 1, a[1..], suffix), "\n\n" + Blocks(first + 1, b[1..], suffix) + more;
      HeadOfBlocks(first, a, suffix);
      HeadOfBlocks(first, b, suffix);
      AppendMore(BeginMarker(first, suffix) + "\n", a[0] + Closing(first, suffix) + restA,
                 b[0] + Closing(first, suffix), "\n\n" + Blocks(first + 1, b[1..], suffix), more);
      assert !Contains(a[0], Closing(first + 0, suffix)) && !Contains(b[0], Closing(first + 0, suffix));
      NoEarlyClosing(first, suffix, a[0], b[0], restA, restB);
      NoEarlyClosing(first, suffix, b[0], a[0], restB, restA);
      SameHead(a[0], b[0], Closing(first, suffix), restA, restB);
      assert Blocks(first + 1, a[1..], suffix) == restA[2..] == restB[2..] == Blocks(first + 1, b[1..], suffix) + more;
      UnforgedTail(first, a, suffix);
      UnforgedTail(first, b, suffix);
      BlocksPrefix(first + 1, a[1..], b[1..], more, suffix);
      assert a == [a[0]] + a[1..] && b == [b[0]] + b[1..];
    }
  }

  lemma AppendMore(open: string, tail: string, head: string, rest: string, more: string)
    requires open + tail == open + (head + rest) + more
    ensures tail == head + (rest + more)
  {
    assert (open + tail)[|open|..] == tail;
    assert (open + (head + rest) + more)[|open|..] == head + (rest + more);
  }

  /** The framed text determines the ordered list of inputs, for any number of participants. */
  lemma BlocksInjective(first: nat, a: seq<string>, b: seq<string>, suffix: string)
    requires '\n' !in suffix
    requires Unforged(first, a, suffix) && Unforged(first, b, suffix)
    requires Blocks(first, a, suffix) == Blocks(first, b, suffix)
    ensures a == b
  {
    hide Blocks, Unforged;
    BlocksPrefix(first, a, b, "", suffix);
    BlocksPrefix(first, b, a, "", suffix);
  }

  lemma BlocksEmptyIff(first: nat, inputs: seq<string>, suffix: string)
    ensures Blocks(first, inputs, suffix) == "" <==> inputs == []
  {
    if inputs != [] {
      assert |Block(first, inputs[0], suffix)| > 0;
    }
  }

  lemma HeadOfBlocks(first: nat, inputs: seq<string>, suffix: string)
    requires inputs != []
    ensures var open := BeginMarker(first, suffix) + "\n";
            var tail := inputs[0] + Closing(first, suffix) + ("\n\n" + Blocks(first + 1, inputs[1..], suffix));
            && Blocks(first, inputs, suffix) == open + tail
            && |open| <= |Blocks(first, inputs, suffix)|
            && Blocks(first, inputs, suffix)[|open|..] == tail
  {
  }

  lemma SameHead(x: string, y: string, m: string, restX: string, restY: string)
    requires |x| == |y| && x + m + restX == y + m + restY
    ensures x == y && restX == restY
  {
    var t, u := x + m + restX, y + m + restY;
    assert x == t[..|x|] && y == u[..|x|];
    assert restX == t[|x| + |m|..] && restY == u[|x| + |m|..];
  }

  lemma UnforgedTail(first: nat, inputs: seq<string>, suffix: string)
    requires inputs != [] && Unforged(first, inputs, suffix)
    ensures Unforged(first + 1, inputs[1..], suffix)
  {
    forall i | 0 <= i < |inputs[1..]| ensures !Contains(inputs[1..][i], Closing(first + 1 + i, suffix)) {
      assert !Contains(inputs[i + 1], Closing(first + (i + 1), suffix));
    }
  }

  lemma FirstCharOccurs(text: string, part: string, at: nat)
    requires OccursAt(text, part, at) && part != ""
    ensures part[0] in text
  {
    assert text[at] == text[at..at + |part|][0];
  }

  lemma SuffixOccurs(text: string, part: string, at: nat)
    requires OccursAt(text, part, at) && part != ""
    ensures OccursAt(text, part[1..], at + 1)
  {
    assert text[at + 1..at + |part|] == text[at..at + |part|][1..];
  }

  /** Inputs without a raw newline, as compact JSON text is, are unforged under every suffix. */
  lemma SingleLineInputsAreUnforged(first: nat, inputs: seq<string>, suffix: string)
    requires forall i | 0 <= i < |inputs| :: '\n' !in inputs[i]
    ensures Unforged(first, inputs, suffix)
  {
    forall i | 0 <= i < |inputs| ensures !Contains(inputs[i], Closing(first + i, suffix)) {
      var m := Closing(first + i, suffix);
      forall at | 0 <= at <= |inputs[i]| ensures !OccursAt(inputs[i], m, at) {
        if OccursAt(inputs[i], m, at) {
          FirstCharOccurs(inputs[i], m, at);
        }
      }
    }
  }

  /** Nobody can forge a closing without knowing the suffix its worker draws. */
  lemma SuffixFreeInputsAreUnforged(first: nat, inputs: seq<string>, suffix: string)
    requires forall i | 0 <= i < |inputs| :: !Contains(inputs[i], suffix)
    ensures Unforged(first, inputs, suffix)
  {
    forall i | 0 <= i < |inputs| ensures !Contains(inputs[i], Closing(first + i, suffix)) {
      var m := Closing(first + i, suffix);
      forall at | 0 <= at <= |inputs[i]| ensures !OccursAt(inputs[i], m, at) {
        if OccursAt(inputs[i], m, at) {
          var skip := SuffixInClosing(first + i, suffix);
          OccursInside(inputs[i], m, at, suffix, skip);
        }
      }
    }
  }

  lemma SuffixInClosing(number: nat, suffix: string) returns (at: nat)
    ensures OccursAt(Closing(number, suffix), suffix, at)
  {
    at := InTheMiddle("\n", "<<<PARTICIPANT_", Decimal(number), "_INPUT_END_", suffix, ">>>");
  }

  lemma InTheMiddle(nl: string, a: string, b: string, c: string, part: string, d: string) returns (at: nat)
    ensures OccursAt(nl + (a + b + c + part + d), part, at)
  {
    at := |nl + a + b + c|;
    assert nl + (a + b + c + part + d) == nl + a + b + c + part + d;
  }

  lemma OccursInside(text: string, whole: string, at: nat, part: string, skip: nat)
    requires OccursAt(text, whole, at) && OccursAt(whole, part, skip)
    ensures OccursAt(text, part, at + skip) && Contains(text, part)
  {
    forall k | 0 <= k < |part| ensures text[at + skip + k] == part[k] {
      assert text[at + skip + k] == text[at..at + |whole|][skip + k];
      assert whole[skip + k] == whole[skip..skip + |part|][k];
    }
    assert OccursAt(text, part, at + skip);
  }

  /** What the model reads of one participant's input. */
  lemma FrameOf(number: nat, input: string, suffix: string)
    ensures Blocks(number, [input], suffix)
            == ("<<<PARTICIPANT_" + Decimal(number) + "_INPUT_BEGIN_" + suffix + ">>>") + "\n" + input + "\n"
               + ("<<<PARTICIPANT_" + Decimal(number) + "_INPUT_END_" + suffix + ">>>") + "\n\n"
  {
    BlocksOne(number, input, suffix);
  }

  /** An input without its END marker anywhere has no closing either. */
  lemma MarkerFreeInputsAreUnforged(first: nat, inputs: seq<string>, suffix: string)
    requires forall i | 0 <= i < |inputs| :: !Contains(inputs[i], EndMarker(first + i, suffix))
    ensures Unforged(first, inputs, suffix)
  {
    forall i | 0 <= i < |inputs| ensures !Contains(inputs[i], Closing(first + i, suffix)) {
      var m := Closing(first + i, suffix);
      assert m[1..] == EndMarker(first + i, suffix);
      forall at | 0 <= at <= |inputs[i]| ensures !OccursAt(inputs[i], m, at) {
        if OccursAt(inputs[i], m, at) {
          SuffixOccurs(inputs[i], m, at);
        }
      }
    }
  }

  /** Without that guard framing is ambiguous: a forged closing moves text from one input to the other. */
  lemma ForgedInputsCollide(p: string, q: string, y: string, suffix: string)
    ensures var seam := Seam(suffix);
            && Blocks(1, [p + seam + q, y], suffix) == Blocks(1, [p, q + seam + y], suffix)
            && [p + seam + q, y] != [p, q + seam + y]
  {
    var seam := Seam(suffix);
    TwoBlocks(p + seam + q, y, suffix);
    TwoBlocks(p, q + seam + y, suffix);
    ShiftSeam(BeginMarker(1, suffix), "\n", p, seam, q, y, Closing(2, suffix) + "\n\n");
    assert |p + seam + q| > |p|;
  }

  /** Everything between the first and the second input of a two-participant frame. */
  function Seam(suffix: string): string {
    Closing(1, suffix) + "\n\n" + BeginMarker(2, suffix) + "\n"
  }

  lemma ShiftSeam(open: string, nl: string, p: string, seam: string, q: string, y: string, close: string)
    ensures open + nl + (p + seam + q) + seam + y + close == open + nl + p + seam + (q + seam + y) + close
  {
  }

  lemma TwoBlocks(x: string, y: string, suffix: string)
    ensures Blocks(1, [x, y], suffix)
            == BeginMarker(1, suffix) + "\n" + x + Seam(suffix) + y + (Closing(2, suffix) + "\n\n")
  {
    assert [x, y][1..] == [y] && [y][1..] == [];
    assert Blocks(2, [y], suffix) == Block(2, y, suffix) + "" by {
      assert Blocks(3, [], suffix) == "";
    }
    assert Blocks(1, [x, y], suffix) == Block(1, x, suffix) + Blocks(2, [y], suffix);
    Regroup(BeginMarker(1, suffix), x, EndMarker(1, suffix), BeginMarker(2, suffix), y, EndMarker(2, suffix),
            "\n", "\n\n");
  }

  lemma Regroup(b1: string, x: string, e1: string, b2: string, y: string, e2: string, nl: string, nn: string)
    ensures (b1 + nl + x + nl + e1 + nn) + ((b2 + nl + y + nl + e2 + nn) + "")
            == b1 + nl + x + ((nl + e1) + nn + b2 + nl) + y + ((nl + e2) + nn)
  {
  }
}
