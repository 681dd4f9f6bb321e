/** The escape patterns of src/chitra/dispatch.py as sets of texts, and that the tokens of a row are exactly the
    matches. */
module TerminalTokens {
  import opened Basics
  import opened Text
  import opened PaneInput

  predicate AllIn(s: string, k: Class) { forall c :: c in s ==> InClass(k, c) }

  /** `ESC [ digits-or-semicolons m`. */
  predicate SgrText(t: string) {
    |t| >= 3 && t[0] == Esc && t[1] == '[' && t[|t| - 1] == 'm' && AllIn(t[2..|t| - 1], SgrParameter)
  }

  /** `ESC [ parameters intermediates final`, the parameters ending at `p`. */
  predicate CsiText(t: string, p: nat) {
    && 2 <= p < |t| && t[0] == Esc && t[1] == '[' && '@' <= t[|t| - 1] <= '~'
    && AllIn(t[2..p], Parameter) && AllIn(t[p..|t| - 1], Intermediate)
  }

  /** A two-character escape, or a control sequence. */
  predicate EscapeText(t: string) {
    || (|t| == 2 && t[0] == Esc && ('@' <= t[1] <= 'Z' || '\\' <= t[1] <= '_'))
    || exists p :: 2 <= p < |t| && CsiText(t, p)
  }

  lemma {:induction false} SpanIs(s: string, k: Class)
    ensures AllIn(s[..Span(s, k)], k) && (Span(s, k) < |s| ==> !InClass(k, s[Span(s, k)]))
  {
    if s != [] && InClass(k, s[0]) {
      SpanIs(s[1..], k);
      assert s[..Span(s, k)] == [s[0]] + s[1..][..Span(s[1..], k)];
    }
  }

  lemma {:induction false} SpanReaches(s: string, k: Class, n: nat)
    requires n < |s| && AllIn(s[..n], k) && !InClass(k, s[n])
    ensures Span(s, k) == n
  {
    if n > 0 {
      assert s[0] == s[..n][0] && s[..n][0] in s[..n];
      assert s[1..][..n - 1] == s[..n][1..];
      SpanReaches(s[1..], k, n - 1);
    }
  }

  /** The front of a text that an SGR pattern takes is the one SGR sequence that the text starts with. */
  lemma SgrLengthIff(s: string, n: nat)
    requires 1 <= n <= |s|
    ensures SgrLength(s) == n <==> SgrText(s[..n])
  {
    var t := s[..n];
    if SgrText(t) {
      assert s[2..][..n - 3] == t[2..n - 1] && s[2..][n - 3] == t[n - 1];
      SpanReaches(s[2..], SgrParameter, n - 3);
    }
    if SgrLength(s) == n {
      SpanIs(s[2..], SgrParameter);
      assert t[2..n - 1] == s[2..][..n - 3];
    }
  }

  lemma CsiLength(s: string, n: nat, p: nat)
    requires n <= |s| && CsiText(s[..n], p)
    ensures ControlLength(s) == n
  {
    var t := s[..n];
    assert s[2..][..p - 2] == t[2..p] && s[p..][..n - 1 - p] == t[p..n - 1];
    assert !InClass(Intermediate, s[n - 1]) && !InClass(Parameter, s[n - 1]);
    if p < n - 1 { assert s[p] == t[p..n - 1][0] && s[p] in t[p..n - 1] && !InClass(Parameter, s[p]); }
    SpanReaches(s[2..], Parameter, p - 2);
    SpanReaches(s[p..], Intermediate, n - 1 - p);
  }

  /** The same of every escape sequence. */
  lemma ControlLengthIff(s: string, n: nat)
    requires 1 <= n <= |s|
    ensures ControlLength(s) == n <==> EscapeText(s[..n])
  {
    var t := s[..n];
    if p :| 2 <= p < n && CsiText(t, p) { CsiLength(s, n, p); }
    if ControlLength(s) == n && s[1] == '[' {
      var p := 2 + Span(s[2..], Parameter);
      SpanIs(s[2..], Parameter);
      SpanIs(s[p..], Intermediate);
      assert t[2..p] == s[2..][..p - 2] && t[p..n - 1] == s[p..][..n - 1 - p];
      assert CsiText(t, p);
    }
  }

  lemma SgrIsEscape(t: string)
    requires SgrText(t)
    ensures EscapeText(t)
  {
    assert CsiText(t, |t| - 1);
  }

  /** A token as a scan reads it. */
  predicate Proper(t: Token) {
    match t
    case Sgr(params) => AllIn(params, SgrParameter)
    case Control(text) => EscapeText(text) && !SgrText(text)
    case Glyph(c) => c != Esc
  }

  lemma ReadsFirst(t: Token, rest: string)
    requires Proper(t)
    ensures FirstToken(Written(t) + rest) == t && TokenLength(Written(t) + rest) == |Written(t)|
  {
    var w := Written(t);
    var s := w + rest;
    assert s[..|w|] == w;
    if t.Sgr? {
      assert w[2..|w| - 1] == t.params;
      SgrLengthIff(s, |w|);
      assert s[2..|w| - 1] == w[2..|w| - 1];
    } else if t.Control? {
      ControlLengthIff(s, |w|);
      if SgrLength(s) > 0 {
        var m := SgrLength(s);
        SgrLengthIff(s, m);
        SgrIsEscape(s[..m]);
        ControlLengthIff(s, m);
      }
    }
  }

  /** Reading back written tokens: no two of them run together, and none is read as another. */
  lemma {:induction false} WrittenTokensRead(ts: seq<Token>)
    requires forall t :: t in ts ==> Proper(t)
    ensures Tokens(Unparse(ts)) == ts
  {
    if ts != [] {
      var rest := Unparse(ts[1..]);
      ReadsFirst(ts[0], rest);
      WrittenTokensRead(ts[1..]);
      assert (Written(ts[0]) + rest)[|Written(ts[0])|..] == rest;
    }
  }

  // ---------------------------------------------------------------- the rows

  /** The printed text between spaces. */
  ghost predicate Framed(row: string, core: string) {
    exists before, after :: Printed(Tokens(row)) == before + core + after && AllSpace(before) && AllSpace(after)
  }

  predicate Tight(core: string) { core != [] && !IsSpace(core[0]) && !IsSpace(core[|core| - 1]) }

  lemma {:induction false} TrimLeftOf(before: string, rest: string)
    requires AllSpace(before) && (rest != [] ==> !IsSpace(rest[0]))
    ensures TrimLeft(before + rest) == rest
  {
    if before == [] { assert before + rest == rest; }
    else {
      assert before[0] in before && forall c :: c in before[1..] ==> c in before;
      assert (before + rest)[1..] == before[1..] + rest;
      TrimLeftOf(before[1..], rest);
    }
  }

  lemma {:induction false} TrimRightOf(core: string, after: string)
    requires AllSpace(after) && (core != [] ==> !IsSpace(core[|core| - 1]))
    ensures TrimRight(core + after) == core
  {
    if after == [] { assert core + after == core; }
    else {
      var all, front := core + after, after[..|after| - 1];
      assert after[|after| - 1] in after && forall c :: c in front ==> c in after;
      assert all[..|all| - 1] == core + front && all[|all| - 1] == after[|after| - 1];
      TrimRightOf(core, front);
    }
  }

  lemma StripOf(before: string, core: string, after: string)
    requires AllSpace(before) && AllSpace(after) && Tight(core)
    ensures Strip(before + core + after) == core
  {
    assert before + core + after == before + (core + after);
    TrimLeftOf(before, core + after);
    TrimRightOf(core, after);
  }

  lemma StripIff(row: string, core: string)
    requires Tight(core)
    ensures StripControls(row) == core <==> Framed(row, core)
  {
    if StripControls(row) == core {
      var before, after := StripIs(Printed(Tokens(row)));
      assert Framed(row, core);
    }
    if before, after :| Printed(Tokens(row)) == before + core + after && AllSpace(before) && AllSpace(after) {
      StripOf(before, core, after);
    }
  }

  lemma {:induction false} TrimsAreTight(s: string)
    ensures var r := TrimRight(s); (r != [] ==> !IsSpace(r[|r| - 1])) && r <= s
  {
    if s != [] && IsSpace(s[|s| - 1]) { TrimsAreTight(s[..|s| - 1]); }
  }

  lemma {:induction false} TrimLeftHead(s: string)
    ensures var r := TrimLeft(s); r != [] ==> !IsSpace(r[0])
  {
    if s != [] && IsSpace(s[0]) { TrimLeftHead(s[1..]); }
  }

  lemma StripIsTight(s: string)
    ensures Strip(s) != [] ==> Tight(Strip(s))
  {
    TrimLeftHead(s);
    TrimsAreTight(TrimLeft(s));
  }

  /** A horizontal rule prints nothing but rule characters between spaces, and at least one. */
  lemma RuleLineIff(row: string)
    ensures RuleLine(row) <==> exists bar :: bar != [] && (forall c :: c in bar ==> c == '\U{2500}') && Framed(row, bar)
  {
    if RuleLine(row) {
      StripIsTight(Printed(Tokens(row)));
      StripIff(row, StripControls(row));
    }
    if bar :| bar != [] && (forall c :: c in bar ==> c == '\U{2500}') && Framed(row, bar) {
      assert bar[0] in bar && bar[|bar| - 1] in bar;
      StripIff(row, bar);
    }
  }

  /** An input row prints the marker first, after spaces, and no line break before the trailing spaces. */
  lemma InputRowIff(row: string, marker: char)
    requires !IsSpace(marker)
    ensures InputRow(row, marker) <==>
            exists draft :: Tight([marker] + draft) && '\n' !in draft && Framed(row, [marker] + draft)
  {
    var s := StripControls(row);
    if InputRow(row, marker) {
      StripIsTight(Printed(Tokens(row)));
      assert s == [marker] + s[1..];
      StripIff(row, s);
    }
    if draft :| Tight([marker] + draft) && '\n' !in draft && Framed(row, [marker] + draft) {
      StripIff(row, [marker] + draft);
      assert '\n' != marker;
    }
  }
}
