/**
 The rendered prompt determines the inputs, also when the participant counts, and so
 the widths of the printed counts, differ.
 */
module Rendering {
  import opened Prompt

  predicate Digits(text: string) {
    forall c | c in text :: '0' <= c <= '9'
  }

  lemma {:induction false} DecimalDigits(n: nat)
    ensures Digits(Decimal(n))
  {
    if n < 10 {
    } else {
      DecimalDigits(n / 10);
    }
  }

  lemma {:induction false} WiderIsLarger(n: nat, m: nat)
    requires n <= m
    ensures |Decimal(n)| <= |Decimal(m)|
  {
    if m < 10 {
    } else if n < 10 {
      DecimalValue(m / 10);
    } else {
      WiderIsLarger(n / 10, m / 10);
    }
  }

  predicate StartsOther(text: string) {
    text != "" && !('0' <= text[0] <= '9')
  }

  lemma Shifted(out: string, left: string, gap: string, back: string, right: string)
    requires out + left == gap + (back + right) && |out| <= |gap| + |back|
    ensures out == (gap + back)[..|out|] && left == (gap + back)[|out|..] + right
  {
    assert gap + (back + right) == gap + back + right;
    assert out == (out + left)[..|out|] && left == (out + left)[|out|..];
    assert (gap + back + right)[..|out|] == (gap + back)[..|out|];
  }

  lemma StillDigits(a: string, b: string, n: nat)
    requires Digits(a) && Digits(b) && n <= |a| + |b|
    ensures Digits((a + b)[n..])
  {
    assert forall c | c in (a + b)[n..] :: c in a || c in b;
  }

  lemma FirstLettersDiffer(x: string, p: string, gap: string, q: string)
    requires StartsOther(x) && gap != "" && Digits(gap)
    ensures x + p != gap + q
  {
    assert (x + p)[0] == x[0] && (gap + q)[0] == gap[0];
    assert gap[0] in gap;
  }

  /**
   Two renderings of one template that are out of step by some digits stay out of
   step: they go through digits only until the inputs or the end, and there they differ.
   */
  lemma {:induction false} OutOfStep(template: string, c: string, d: string, x: string, y: string, gap: string)
    requires Digits(c) && Digits(d) && |c| <= |d| && StartsOther(x)
    requires gap != "" && Digits(gap)
    ensures Render(template, c, x) != gap + Render(template, d, y)
    decreases |template|
  {
    hide Render;
    RenderTurn(template, c, x);
    RenderTurn(template, d, y);
    if template == "" {
    } else if Render(template, c, x) == gap + Render(template, d, y) {
      var rest := template[Consumed(template)..];
      var out, back := Emitted(template, c, x), Emitted(template, d, y);
      if !(COUNT_SLOT <= template) && INPUTS_SLOT <= template {
        FirstLettersDiffer(x, Render(rest, c, x), gap, Render(template, d, y));
      } else {
        Shifted(out, Render(rest, c, x), gap, back, Render(rest, d, y));
        if !(COUNT_SLOT <= template) {
          assert out[0] == (gap + back)[..|out|][0] == gap[0] && gap[0] in gap;
        }
        StillDigits(gap, back, |out|);
        OutOfStep(rest, c, d, x, y, (gap + back)[|out|..]);
      }
    }
  }

  /** With a wider count on the right, equal prompts make the right inputs begin the left ones. */
  lemma {:induction false} UnevenCounts(prefix: string, postfix: string, c: string, d: string, x: string, y: string)
    requires Digits(c) && Digits(d) && |c| < |d| && StartsOther(x)
    requires Render(prefix + (INPUTS_SLOT + postfix), c, x) == Render(prefix + (INPUTS_SLOT + postfix), d, y)
    ensures y <= x
    decreases |prefix|
  {
    hide Render;
    var rest := INPUTS_SLOT + postfix;
    var template := prefix + rest;
    NotShorter(prefix, postfix, c, d, x, y);
    RenderTurn(template, c, x);
    RenderTurn(template, d, y);
    var tail := template[Consumed(template)..];
    if prefix == "" {
      assert template == rest;
      RenderInputsHere(postfix, c, x);
      RenderInputsHere(postfix, d, y);
      LongerHead(x, Render(postfix, c, x), y, Render(postfix, d, y));
    } else if COUNT_SLOT <= template {
      Shifted(c, Render(tail, c, x), d, "", Render(tail, d, y));
      StillDigits(d, "", |c|);
      assert d + "" == d;
      OutOfStep(tail, c, d, x, y, d[|c|..]);
    } else if INPUTS_SLOT <= template {
      LongerHead(x, Render(tail, c, x), y, Render(tail, d, y));
    } else {
      assert tail == prefix[1..] + rest;
      assert Render(tail, c, x) == Render(template, c, x)[1..] == Render(template, d, y)[1..] == Render(tail, d, y);
      UnevenCounts(prefix[1..], postfix, c, d, x, y);
    }
  }

  lemma LongerHead(x: string, p: string, y: string, q: string)
    requires x + p == y + q && |y| <= |x|
    ensures y <= x
  {
    assert y == (y + q)[..|y|] == (x + p)[..|y|] == x[..|y|];
  }

  lemma RenderedLength(prefix: string, postfix: string, c: string, x: string)
    ensures |Render(prefix + (INPUTS_SLOT + postfix), c, x)| == |Render(prefix, c, x)| + |x| + |Render(postfix, c, x)|
  {
    hide Render;
    RenderReplaces(prefix, postfix, c, x);
  }

  lemma NotShorter(prefix: string, postfix: string, c: string, d: string, x: string, y: string)
    requires |c| <= |d|
    requires |Render(prefix + (INPUTS_SLOT + postfix), c, x)| == |Render(prefix + (INPUTS_SLOT + postfix), d, y)|
    ensures |y| <= |x|
  {
    hide Render;
    RenderedLength(prefix, postfix, c, x);
    RenderedLength(prefix, postfix, d, y);
    if |x| < |y| {
      RenderGrows(prefix, c, d, x, y);
      RenderGrows(postfix, c, d, x, y);
    }
  }

  /** The text handed to the model for a list of inputs. */
  function PromptText(template: string, inputs: seq<string>, suffix: string): string {
    Render(template, Decimal(|inputs|), Blocks(1, inputs, suffix))
  }

  /**
   The whole prompt determines the ordered inputs, hence how many there are, and the
   suffix its worker drew: the first line break ends the first BEGIN marker.
   */
  lemma PromptInjective(template: string, a: seq<string>, s: string, b: seq<string>, r: string)
    requires Contains(template, INPUTS_SLOT) && '\n' !in s && '\n' !in r
    requires a != [] && b != [] && Unforged(1, a, s) && Unforged(1, b, r)
    requires PromptText(template, a, s) == PromptText(template, b, r)
    ensures a == b && s == r
  {
    hide Render, Blocks, Unforged, Contains;
    if |Decimal(|a|)| == |Decimal(|b|)| {
      var prefix, postfix := CutAround(template, INPUTS_SLOT);
      RenderInjective(prefix, postfix, Decimal(|a|), Decimal(|b|), Blocks(1, a, s), Blocks(1, b, r));
      SameSuffix(a, s, b, r);
      BlocksInjective(1, a, b, s);
    } else if |Decimal(|a|)| < |Decimal(|b|)| {
      FewerCannotMatch(template, a, s, b, r);
    } else {
      FewerCannotMatch(template, b, r, a, s);
    }
  }

  /** A shorter count never makes up for fewer blocks. */
  lemma FewerCannotMatch(template: string, a: seq<string>, s: string, b: seq<string>, r: string)
    requires Contains(template, INPUTS_SLOT) && '\n' !in s && '\n' !in r
    requires a != [] && b != [] && Unforged(1, a, s) && Unforged(1, b, r)
    requires |Decimal(|a|)| < |Decimal(|b|)|
    ensures PromptText(template, a, s) != PromptText(template, b, r)
  {
    hide Render, Blocks, Unforged, Contains;
    if PromptText(template, a, s) == PromptText(template, b, r) {
      var x, y := Blocks(1, a, s), Blocks(1, b, r);
      var prefix, postfix := CutAround(template, INPUTS_SLOT);
      DecimalDigits(|a|);
      DecimalDigits(|b|);
      BlocksStartOther(a, s);
      UnevenCounts(prefix, postfix, Decimal(|a|), Decimal(|b|), x, y);
      SameSuffix(a, s, b, r);
      assert x == y + x[|y|..];
      BlocksPrefix(1, a, b, x[|y|..], s);
      WiderIsLarger(|b|, |a|);
    }
  }

  /** A framed text that begins another was framed with the same suffix. */
  lemma SameSuffix(a: seq<string>, s: string, b: seq<string>, r: string)
    requires a != [] && b != [] && '\n' !in s && '\n' !in r
    requires Blocks(1, b, r) <= Blocks(1, a, s)
    ensures s == r
  {
    hide Blocks, BeginMarker;
    HeadOfBlocks(1, a, s);
    HeadOfBlocks(1, b, r);
    BeginIsOneLine(s);
    BeginIsOneLine(r);
    SameFirstLine(BeginMarker(1, s), Blocks(1, a, s), BeginMarker(1, r), Blocks(1, b, r));
    SameMarker(s, r);
  }

  lemma BeginIsOneLine(suffix: string)
    requires '\n' !in suffix
    ensures '\n' !in BeginMarker(1, suffix)
  {
    DecimalHasNoNewline(1);
    assert forall c | c in BeginMarker(1, suffix) ::
        c in "<<<PARTICIPANT_" || c in Decimal(1) || c in "_INPUT_BEGIN_" || c in suffix || c in ">>>";
  }

  lemma SameFirstLine(p: string, x: string, q: string, y: string)
    requires '\n' !in p && '\n' !in q
    requires p + "\n" <= x && q + "\n" <= y && y <= x
    ensures p == q
  {
    assert x[|p|] == '\n' && x[|q|] == '\n';
    assert forall i | 0 <= i < |p| :: x[i] == p[i] && p[i] in p;
    assert forall i | 0 <= i < |q| :: x[i] == q[i] && q[i] in q;
    assert |p| == |q|;
  }

  lemma SameMarker(s: string, r: string)
    requires BeginMarker(1, s) == BeginMarker(1, r)
    ensures s == r
  {
    var head := "<<<PARTICIPANT_" + Decimal(1) + "_INPUT_BEGIN_";
    assert BeginMarker(1, s) == head + (s + ">>>") && BeginMarker(1, r) == head + (r + ">>>");
    assert BeginMarker(1, s)[|head|..|head| + |s|] == s;
    assert BeginMarker(1, r)[|head|..|head| + |r|] == r;
  }

  lemma BlocksStartOther(inputs: seq<string>, suffix: string)
    requires inputs != []
    ensures StartsOther(Blocks(1, inputs, suffix))
  {
    assert Blocks(1, inputs, suffix)[0] == '<';
  }
}
