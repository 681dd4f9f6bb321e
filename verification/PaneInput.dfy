/** The input-row check of src/chitra/dispatch.py: the faint-text scanner, the recognised input
    rows, and when a pane is safe to paste into. */
module PaneInput {
  import opened Basics
  import opened Text

  // ---------------------------------------------------------------- terminal tokens

  const Esc := '\U{1b}'

  /** An SGR sequence with its parameters, another control sequence, or one printed character. */
  datatype Token = Sgr(params: string) | Control(text: string) | Glyph(c: char)

  datatype Class = SgrParameter | Parameter | Intermediate

  predicate InClass(k: Class, c: char) {
    match k
    case SgrParameter => '0' <= c <= '9' || c == ';'
    case Parameter => '0' <= c <= '?'
    case Intermediate => ' ' <= c <= '/'
  }

  /** The length of the longest prefix within a class. */
  function Span(s: string, k: Class): (n: nat)
    ensures n <= |s|
  {
    if s != [] && InClass(k, s[0]) then 1 + Span(s[1..], k) else 0
  }

  /** The length of a control sequence at the front, or 0: a two-character escape, or
      CSI with its parameters, intermediates and final. */
  function ControlLength(s: string): (n: nat)
    ensures n <= |s| && (n > 0 ==> n >= 2)
  {
    if |s| < 2 || s[0] != Esc then 0
    else if '@' <= s[1] <= 'Z' || '\\' <= s[1] <= '_' then 2
    else if s[1] != '[' then 0
    else
      var p := 2 + Span(s[2..], Parameter);
      var i := p + Span(s[p..], Intermediate);
      if i < |s| && '@' <= s[i] <= '~' then i + 1 else 0
  }

  /** The length of an SGR sequence at the front, or 0. */
  function SgrLength(s: string): (n: nat)
    ensures n <= |s| && (n > 0 ==> n >= 3)
  {
    if |s| < 3 || s[0] != Esc || s[1] != '[' then 0
    else
      var p := 2 + Span(s[2..], SgrParameter);
      if p < |s| && s[p] == 'm' then p + 1 else 0
  }

  function TokenLength(s: string): (n: nat)
    requires s != []
    ensures 1 <= n <= |s|
  {
    if SgrLength(s) > 0 then SgrLength(s) else if ControlLength(s) > 0 then ControlLength(s) else 1
  }

  function FirstToken(s: string): Token
    requires s != []
  {
    var n := TokenLength(s);
    if SgrLength(s) > 0 then Sgr(s[2..n - 1]) else if ControlLength(s) > 0 then Control(s[..n]) else Glyph(s[0])
  }

  function Tokens(s: string): seq<Token>
    decreases |s|
  {
    if s == [] then [] else [FirstToken(s)] + Tokens(s[TokenLength(s)..])
  }

  function Written(t: Token): string {
    match t
    case Sgr(params) => [Esc, '['] + params + ['m']
    case Control(text) => text
    case Glyph(c) => [c]
  }

  function Unparse(ts: seq<Token>): string {
    if ts == [] then [] else Written(ts[0]) + Unparse(ts[1..])
  }

  lemma FirstTokenWritten(s: string)
    requires s != []
    ensures Written(FirstToken(s)) == s[..TokenLength(s)]
  {
    if SgrLength(s) > 0 {
      var n := SgrLength(s);
      assert s[..n] == [s[0], s[1]] + s[2..n - 1] + [s[n - 1]];
    }
  }

  /** Tokenising loses nothing. */
  lemma {:induction false} TokensRoundTrip(s: string)
    ensures Unparse(Tokens(s)) == s
    decreases |s|
  {
    if s != [] {
      FirstTokenWritten(s);
      TokensRoundTrip(s[TokenLength(s)..]);
      assert Tokens(s)[1..] == Tokens(s[TokenLength(s)..]);
    }
  }

  // ---------------------------------------------------------------- styled characters

  datatype Styled = Styled(c: char, faint: bool)

  /** The scanner's reading of one SGR parameter, by its text. */
  function ReadCode(code: string, faint: bool): bool {
    if code == "" || code == "0" || code == "22" then false else if code == "2" then true else faint
  }

  function ReadCodes(codes: seq<string>, faint: bool): bool {
    if codes == [] then faint else ReadCode(codes[|codes| - 1], ReadCodes(codes[..|codes| - 1], faint))
  }

  function ReadSgr(params: string, faint: bool): bool { ReadCodes(Split(params, ';'), faint) }

  /** The printed characters with their intensity. */
  function Style(ts: seq<Token>, faint: bool): seq<Styled> {
    if ts == [] then []
    else (if ts[0].Glyph? then [Styled(ts[0].c, faint)] else []) + Style(ts[1..], Intensity(ts[0], faint))
  }

  /** The intensity after a token. */
  function Intensity(t: Token, faint: bool): bool { if t.Sgr? then ReadSgr(t.params, faint) else faint }

  /** What follows the first marker; nothing when there is none. */
  function AfterMarker(row: seq<Styled>, marker: char): seq<Styled> {
    if row == [] then [] else if row[0].c == marker then row[1..] else AfterMarker(row[1..], marker)
  }

  function Visible(row: seq<Styled>): seq<Styled> {
    if row == [] then [] else (if IsSpace(row[0].c) then [] else [row[0]]) + Visible(row[1..])
  }

  predicate AllFaint(row: seq<Styled>) { forall x :: x in row ==> x.faint }

  /** The draft: the visible characters after the prompt marker. */
  function Draft(row: string, marker: char): seq<Styled> { Visible(AfterMarker(Style(Tokens(row), false), marker)) }

  /** At least one visible character after the marker, and all of them faint. */
  predicate AllDim(row: string, marker: char) { Draft(row, marker) != [] && AllFaint(Draft(row, marker)) }

  /** The verdict on what is left to scan. */
  predicate Verdict(rest: seq<Styled>, marker: char, seenPrompt: bool, sawVisible: bool) {
    var draft := Visible(if seenPrompt then rest else AfterMarker(rest, marker));
    AllFaint(draft) && (sawVisible || draft != [])
  }

  lemma GlyphStep(c: char, faint: bool, rest: seq<Styled>, marker: char, seenPrompt: bool, sawVisible: bool)
    ensures Verdict([Styled(c, faint)] + rest, marker, seenPrompt, sawVisible) ==
            if !seenPrompt then Verdict(rest, marker, c == marker, sawVisible)
            else if IsSpace(c) then Verdict(rest, marker, true, sawVisible)
            else faint && Verdict(rest, marker, true, true)
  {
    var all := [Styled(c, faint)] + rest;
    assert all[1..] == rest;
    if seenPrompt && !IsSpace(c) {
      assert Visible(all) == [Styled(c, faint)] + Visible(rest);
      assert Styled(c, faint) in Visible(all);
    } else if seenPrompt {
      assert Visible(all) == Visible(rest);
    }
  }

  lemma StyleStep(s: string, faint: bool)
    requires s != []
    ensures var first, rest := FirstToken(s), Tokens(s[TokenLength(s)..]);
            && (first.Sgr? ==> Style(Tokens(s), faint) == Style(rest, ReadSgr(first.params, faint)))
            && (first.Control? ==> Style(Tokens(s), faint) == Style(rest, faint))
            && (first.Glyph? ==> Style(Tokens(s), faint) == [Styled(first.c, faint)] + Style(rest, faint))
  {
    assert Tokens(s)[1..] == Tokens(s[TokenLength(s)..]);
  }

  method ScanCodes(params: string, faint0: bool) returns (faint: bool)
    ensures faint == ReadSgr(params, faint0)
  {
    faint := faint0;
    var codes := Split(params, ';');
    for k := 0 to |codes|
      invariant faint == ReadCodes(codes[..k], faint0)
    {
      assert codes[..k + 1][..k] == codes[..k];
      if codes[k] == "" || codes[k] == "0" || codes[k] == "22" { faint := false; }
      else if codes[k] == "2" { faint := true; }
    }
    assert codes[..|codes|] == codes;
  }

  /** What the scanner still has to decide, from `s` on. */
  predicate Left(s: string, faint: bool, marker: char, seenPrompt: bool, sawVisible: bool) {
    Verdict(Style(Tokens(s), faint), marker, seenPrompt, sawVisible)
  }

  lemma LeftAtStart(row: string, marker: char)
    ensures Left(row, false, marker, false, false) == AllDim(row, marker)
  {
  }

  lemma LeftAtEnd(faint: bool, marker: char, seenPrompt: bool, sawVisible: bool)
    ensures Left([], faint, marker, seenPrompt, sawVisible) == sawVisible
  {
  }

  lemma LeftAfterEscape(s: string, faint: bool, marker: char, seenPrompt: bool, sawVisible: bool)
    requires s != [] && !FirstToken(s).Glyph?
    ensures Left(s, faint, marker, seenPrompt, sawVisible)
         == Left(s[TokenLength(s)..], Intensity(FirstToken(s), faint), marker, seenPrompt, sawVisible)
  {
    StyleStep(s, faint);
  }

  lemma LeftAfterGlyph(s: string, faint: bool, marker: char, seenPrompt: bool, sawVisible: bool)
    requires s != [] && FirstToken(s).Glyph?
    ensures Left(s, faint, marker, seenPrompt, sawVisible) ==
            if !seenPrompt then Left(s[1..], faint, marker, s[0] == marker, sawVisible)
            else if IsSpace(s[0]) then Left(s[1..], faint, marker, true, sawVisible)
            else faint && Left(s[1..], faint, marker, true, true)
  {
    StyleStep(s, faint);
    GlyphStep(s[0], faint, Style(Tokens(s[1..]), faint), marker, seenPrompt, sawVisible);
  }

  /** The scanner's variables. */
  datatype Scan = Scan(faint: bool, seenPrompt: bool, sawVisible: bool)

  /** A visible character after the prompt at normal intensity ends the scan. */
  predicate Stops(t: Token, x: Scan) { t.Glyph? && x.seenPrompt && !IsSpace(t.c) && !x.faint }

  function Advance(t: Token, marker: char, x: Scan): Scan {
    if !t.Glyph? then x.(faint := Intensity(t, x.faint))
    else if !x.seenPrompt then x.(seenPrompt := t.c == marker)
    else x.(sawVisible := x.sawVisible || !IsSpace(t.c))
  }

  /** The scan of what is left, token by token. */
  predicate ScanFrom(s: string, marker: char, x: Scan)
    decreases |s|
  {
    if s == [] then x.sawVisible
    else !Stops(FirstToken(s), x) && ScanFrom(s[TokenLength(s)..], marker, Advance(FirstToken(s), marker, x))
  }

  lemma {:induction false} ScanDecides(s: string, marker: char, x: Scan)
    ensures ScanFrom(s, marker, x) == Left(s, x.faint, marker, x.seenPrompt, x.sawVisible)
    decreases |s|
  {
    if s == [] {
      LeftAtEnd(x.faint, marker, x.seenPrompt, x.sawVisible);
    } else {
      var t := FirstToken(s);
      ScanDecides(s[TokenLength(s)..], marker, Advance(t, marker, x));
      if !t.Glyph? { LeftAfterEscape(s, x.faint, marker, x.seenPrompt, x.sawVisible); }
      else { LeftAfterGlyph(s, x.faint, marker, x.seenPrompt, x.sawVisible); }
    }
  }

  /** The one-pass scanner over the raw row: true exactly when the draft is visible and all faint. */
  method InputRowDraftIsAllDim(row: string, marker: char) returns (dim: bool)
    ensures dim <==> AllDim(row, marker)
  {
    LeftAtStart(row, marker);
    ScanDecides(row, marker, Scan(false, false, false));
    dim := ScanRow(row, marker);
  }

  method ScanRow(row: string, marker: char) returns (dim: bool)
    ensures dim <==> ScanFrom(row, marker, Scan(false, false, false))
  {
    var x := Scan(false, false, false);
    var rest := row;
    ghost var want := ScanFrom(row, marker, x);
    while rest != []
      invariant ScanFrom(rest, marker, x) == want
      decreases |rest|
    {
      var t, n := NextToken(rest);
      ScanStep(rest, marker, x, t, n);
      var stop;
      x, stop := Absorb(t, marker, x);
      if stop { return false; }
      rest := rest[n..];
    }
    dim := x.sawVisible;
  }

  /** An SGR match is tried first, then any other escape sequence, then one character. */
  method NextToken(rest: string) returns (t: Token, n: nat)
    requires rest != []
    ensures t == FirstToken(rest) && n == TokenLength(rest)
  {
    n := SgrLength(rest);
    if n > 0 { return Sgr(rest[2..n - 1]), n; }
    n := ControlLength(rest);
    if n > 0 { return Control(rest[..n]), n; }
    return Glyph(rest[0]), 1;
  }

  /** What one token does to the scanner's variables, and whether the scan is lost. */
  method Absorb(t: Token, marker: char, x0: Scan) returns (x: Scan, stop: bool)
    ensures stop == Stops(t, x0) && x == Advance(t, marker, x0)
  {
    x, stop := x0, false;
    if t.Sgr? {
      var faint := ScanCodes(t.params, x.faint);
      x := x.(faint := faint);
    } else if t.Glyph? {
      if !x.seenPrompt {
        x := x.(seenPrompt := t.c == marker);
      } else if !IsSpace(t.c) {
        x, stop := x.(sawVisible := true), !x.faint;
      }
    }
  }

  lemma ScanStep(s: string, marker: char, x: Scan, t: Token, n: nat)
    requires s != [] && t == FirstToken(s) && n == TokenLength(s)
    ensures ScanFrom(s, marker, x) == (!Stops(t, x) && ScanFrom(s[n..], marker, Advance(t, marker, x)))
  {
  }

  // ---------------------------------------------------------------- the terminal standard's reading

  predicate Digits(s: string) { forall c :: c in s ==> '0' <= c <= '9' }

  /** The number a parameter stands for; an empty one is 0. */
  function Value(s: string): nat {
    if s == [] then 0 else Value(s[..|s| - 1]) * 10 + if '0' <= s[|s| - 1] <= '9' then (s[|s| - 1] - '0') as int else 0
  }

  function Values(codes: seq<string>): (r: seq<nat>)
    ensures |r| == |codes| && forall k :: 0 <= k < |codes| ==> r[k] == Value(codes[k])
  {
    seq(|codes|, k requires 0 <= k < |codes| => Value(codes[k]))
  }

  /** SGR by number: 2 is faint, 0 and 22 end it, and 38 or 48 take the colour that follows as their own arguments. */
  function EcmaRead(vs: seq<nat>, faint: bool): bool
    decreases |vs|
  {
    if vs == [] then faint
    else if vs[0] == 38 || vs[0] == 48 then
      (if |vs| >= 3 && vs[1] == 5 then EcmaRead(vs[3..], faint)
       else if |vs| >= 5 && vs[1] == 2 then EcmaRead(vs[5..], faint)
       else EcmaRead(vs[1..], faint))
    else EcmaRead(vs[1..], if vs[0] == 0 || vs[0] == 22 then false else if vs[0] == 2 then true else faint)
  }

  function EcmaSgr(params: string, faint: bool): bool { EcmaRead(Values(Split(params, ';')), faint) }

  function EcmaStyle(ts: seq<Token>, faint: bool): seq<Styled> {
    if ts == [] then []
    else if ts[0].Sgr? then EcmaStyle(ts[1..], EcmaSgr(ts[0].params, faint))
    else if ts[0].Control? then EcmaStyle(ts[1..], faint)
    else [Styled(ts[0].c, faint)] + EcmaStyle(ts[1..], faint)
  }

  /** A parameter without a leading zero that does not open an extended colour. */
  predicate PlainCode(code: string) {
    Digits(code) && (|code| > 1 ==> code[0] != '0') && Value(code) != 38 && Value(code) != 48
  }

  predicate PlainSgr(params: string) { forall code :: code in Split(params, ';') ==> PlainCode(code) }

  predicate PlainRow(row: string) { forall t :: t in Tokens(row) && t.Sgr? ==> PlainSgr(t.params) }

  lemma {:induction false} ValueAtLeast(code: string)
    requires Digits(code) && |code| > 1 && code[0] != '0'
    ensures Value(code) >= 10 && (|code| > 2 ==> Value(code) >= 100)
  {
    var front := code[..|code| - 1];
    assert code[|code| - 1] in code && code[0] in code && front[0] == code[0];
    assert forall c :: c in front ==> c in code;
    if |front| > 1 { ValueAtLeast(front); } else { assert front == [code[0]] && front[..0] == []; }
  }

  lemma PlainCodeReads(code: string, faint: bool)
    requires PlainCode(code)
    ensures ReadCode(code, faint) == if Value(code) == 0 || Value(code) == 22 then false
                                     else if Value(code) == 2 then true else faint
  {
    if |code| > 1 {
      ValueAtLeast(code);
      if |code| == 2 {
        assert code[0] in code && code[1] in code && code[..1] == [code[0]] && [code[0]][..0] == [];
        assert Value(code) == Value(code[..1]) * 10 + (code[1] - '0') as int;
        assert Value(code[..1]) == (code[0] - '0') as int;
      }
    } else if |code| == 1 {
      assert code[0] in code && code[..0] == [];
      assert Value(code) == (code[0] - '0') as int;
    }
  }

  lemma {:induction false} ReadFirst(code: string, rest: seq<string>, faint: bool)
    ensures ReadCodes([code] + rest, faint) == ReadCodes(rest, ReadCode(code, faint))
  {
    if rest == [] {
      assert [code] + rest == [code] && [code][..0] == [];
      assert ReadCodes([code], faint) == ReadCode(code, ReadCodes([], faint));
    } else {
      assert ([code] + rest)[..|rest|] == [code] + rest[..|rest| - 1];
      ReadFirst(code, rest[..|rest| - 1], faint);
    }
  }

  lemma {:induction false} PlainCodesRead(codes: seq<string>, faint: bool)
    requires forall code :: code in codes ==> PlainCode(code)
    ensures ReadCodes(codes, faint) == EcmaRead(Values(codes), faint)
  {
    if codes != [] {
      PlainCodeReads(codes[0], faint);
      ReadFirst(codes[0], codes[1..], faint);
      assert codes == [codes[0]] + codes[1..];
      assert Values(codes)[1..] == Values(codes[1..]);
      PlainCodesRead(codes[1..], ReadCode(codes[0], faint));
    }
  }

  lemma {:induction false} PlainStyle(ts: seq<Token>, faint: bool)
    requires forall t :: t in ts && t.Sgr? ==> PlainSgr(t.params)
    ensures Style(ts, faint) == EcmaStyle(ts, faint)
  {
    if ts != [] {
      if ts[0].Sgr? {
        PlainCodesRead(Split(ts[0].params, ';'), faint);
        PlainStyle(ts[1..], ReadSgr(ts[0].params, faint));
      } else {
        PlainStyle(ts[1..], faint);
      }
    }
  }

  /** On rows whose SGR parameters are plain the scanner's styling is the standard's. */
  lemma PlainRowsFollowTheStandard(row: string)
    requires PlainRow(row)
    ensures Style(Tokens(row), false) == EcmaStyle(Tokens(row), false)
  {
    PlainStyle(Tokens(row), false);
  }

  /** What the last decisive parameter, by its text, sets the intensity to; None if there is none. */
  function LastSpelled(codes: seq<string>): Option<bool> {
    if codes == [] then None
    else
      var last := codes[|codes| - 1];
      if last == "" || last == "0" || last == "22" then Some(false)
      else if last == "2" then Some(true)
      else LastSpelled(codes[..|codes| - 1])
  }

  /** How many parameters an extended colour takes up at the front. */
  function ColourSpan(vs: seq<nat>): (n: nat)
    requires vs != []
    ensures 1 <= n <= |vs|
  {
    if |vs| >= 3 && vs[1] == 5 then 3 else if |vs| >= 5 && vs[1] == 2 then 5 else 1
  }

  /** What the last decisive parameter, by its number and outside colour arguments, sets the intensity to. */
  function LastMeant(vs: seq<nat>): Option<bool>
    decreases |vs|
  {
    if vs == [] then None
    else if vs[0] == 38 || vs[0] == 48 then LastMeant(vs[ColourSpan(vs)..])
    else
      var later := LastMeant(vs[1..]);
      if later.Some? then later
      else if vs[0] == 0 || vs[0] == 22 then Some(false) else if vs[0] == 2 then Some(true) else None
  }

  function Set(to: Option<bool>, faint: bool): bool { if to.Some? then to.value else faint }

  lemma {:induction false} ReadIsLast(codes: seq<string>, faint: bool)
    ensures ReadCodes(codes, faint) == Set(LastSpelled(codes), faint)
  {
    if codes != [] { ReadIsLast(codes[..|codes| - 1], faint); }
  }

  lemma {:induction false} EcmaIsLast(vs: seq<nat>, faint: bool)
    ensures EcmaRead(vs, faint) == Set(LastMeant(vs), faint)
    decreases |vs|
  {
    if vs == [] {
    } else if vs[0] == 38 || vs[0] == 48 {
      EcmaIsLast(vs[ColourSpan(vs)..], faint);
    } else {
      EcmaIsLast(vs[1..], if vs[0] == 0 || vs[0] == 22 then false else if vs[0] == 2 then true else faint);
    }
  }

  /** Exactly when the scanner reads an SGR sequence as the standard does, whatever the intensity before it: the last
      parameter that spells 0, 2, 22 or nothing sets what the last one that means them, outside colours, sets. */
  lemma ReadsAsStandardIff(params: string)
    ensures (forall faint :: ReadSgr(params, faint) == EcmaSgr(params, faint)) <==>
            LastSpelled(Split(params, ';')) == LastMeant(Values(Split(params, ';')))
  {
    var spelled, meant := LastSpelled(Split(params, ';')), LastMeant(Values(Split(params, ';')));
    forall faint ensures ReadSgr(params, faint) == Set(spelled, faint) && EcmaSgr(params, faint) == Set(meant, faint) {
      ReadIsLast(Split(params, ';'), faint);
      EcmaIsLast(Values(Split(params, ';')), faint);
    }
    if spelled != meant {
      assert ReadSgr(params, true) != EcmaSgr(params, true) || ReadSgr(params, false) != EcmaSgr(params, false);
    }
  }

  lemma ColourCodes()
    ensures Split("38;5;2", ';') == ["38", "5", "2"]
  {
    SplitNone("2", ';');
    SplitCons("5", "2", ';');
    SplitCons("38", "5;2", ';');
    assert "5" + [';'] + "2" == "5;2" && "38" + [';'] + "5;2" == "38;5;2";
  }

  lemma ColourValues()
    ensures Values(["38", "5", "2"]) == [38, 5, 2]
  {
    assert "38"[..1] == "3" && "3"[..0] == "" && "5"[..0] == "" && "2"[..0] == "" && Value("3") == 3;
  }

  /** An indexed colour ends in what the scanner takes for the faint parameter. */
  lemma ExtendedColourMisread()
    ensures ReadSgr("38;5;2", false) && !EcmaSgr("38;5;2", false)
  {
    ColourCodes();
    ColourValues();
    assert ["38", "5", "2"][..2] == ["38", "5"];
    assert [38, 5, 2][3..] == [];
  }

  /** A leading zero hides the faint parameter from the scanner. */
  lemma LeadingZeroMissed()
    ensures !ReadSgr("02", false) && EcmaSgr("02", false)
  {
    SplitNone("02", ';');
    assert ["02"][..0] == [];
    assert "02"[..1] == "0" && "0"[..0] == "" && Value("0") == 0;
    assert Values(["02"])[0] == 2 && Values(["02"])[1..] == [];
  }

  // ---------------------------------------------------------------- input rows

  /** The printed text of a row, without escape sequences. */
  function Printed(ts: seq<Token>): string {
    if ts == [] then [] else (if ts[0].Glyph? then [ts[0].c] else []) + Printed(ts[1..])
  }

  function StripControls(row: string): string { Strip(Printed(Tokens(row))) }

  function Chars(row: seq<Styled>): string { if row == [] then [] else [row[0].c] + Chars(row[1..]) }

  lemma CharsCons(x: Styled, rest: seq<Styled>)
    ensures Chars([x] + rest) == [x.c] + Chars(rest)
  {
    assert ([x] + rest)[1..] == rest;
  }

  lemma {:induction false} StyleKeepsChars(ts: seq<Token>, faint: bool)
    ensures Chars(Style(ts, faint)) == Printed(ts)
  {
    if ts != [] {
      var rest := Style(ts[1..], Intensity(ts[0], faint));
      StyleKeepsChars(ts[1..], Intensity(ts[0], faint));
      if ts[0].Glyph? { CharsCons(Styled(ts[0].c, faint), rest); } else { assert [] + rest == rest; }
    }
  }

  function TextAfter(s: string, marker: char): string {
    if s == [] then [] else if s[0] == marker then s[1..] else TextAfter(s[1..], marker)
  }

  lemma {:induction false} AfterMarkerChars(row: seq<Styled>, marker: char)
    ensures Chars(AfterMarker(row, marker)) == TextAfter(Chars(row), marker)
  {
    if row != [] {
      assert Chars(row)[1..] == Chars(row[1..]);
      AfterMarkerChars(row[1..], marker);
    }
  }

  lemma {:induction false} VisibleChars(row: seq<Styled>)
    ensures Chars(Visible(row)) == Squeeze(Chars(row))
  {
    if row != [] {
      assert Chars(row)[1..] == Chars(row[1..]);
      VisibleChars(row[1..]);
      if IsSpace(row[0].c) { assert Visible(row) == Visible(row[1..]); }
      else { assert Visible(row)[1..] == Visible(row[1..]); }
    }
  }

  lemma {:induction false} TextAfterSpaces(before: string, marker: char, rest: string)
    requires AllSpace(before) && !IsSpace(marker)
    ensures TextAfter(before + [marker] + rest, marker) == rest
  {
    var all := before + [marker] + rest;
    if before == [] { assert all[1..] == rest; }
    else {
      assert before[0] in before && all[1..] == before[1..] + [marker] + rest;
      assert forall c :: c in before[1..] ==> c in before;
      TextAfterSpaces(before[1..], marker, rest);
    }
  }

  /** The row, stripped, is the prompt marker followed by a draft on the same line. */
  predicate InputRow(row: string, marker: char) {
    var s := StripControls(row);
    s != [] && s[0] == marker && '\n' !in s
  }

  /** The draft the row pattern captures is blank exactly when the scanner sees no visible draft. */
  lemma BlankDraft(row: string, marker: char)
    requires InputRow(row, marker) && !IsSpace(marker)
    ensures Blank(StripControls(row)[1..]) <==> Draft(row, marker) == []
  {
    var text, s := Printed(Tokens(row)), StripControls(row);
    var before, after := StripIs(text);
    assert s == [marker] + s[1..];
    assert text == before + [marker] + (s[1..] + after);
    TextAfterSpaces(before, marker, s[1..] + after);
    DraftChars(row, marker);
    SqueezeAppend(s[1..], after);
    SqueezeNone(after);
    SqueezeNone(s[1..]);
    BlankIsAllSpace(s[1..]);
  }

  lemma DraftChars(row: string, marker: char)
    ensures Chars(Draft(row, marker)) == Squeeze(TextAfter(Printed(Tokens(row)), marker))
  {
    var styled := Style(Tokens(row), false);
    StyleKeepsChars(Tokens(row), false);
    AfterMarkerChars(styled, marker);
    VisibleChars(AfterMarker(styled, marker));
  }

  // ---------------------------------------------------------------- the pane check

  const ClaudeMarker := '\U{276f}'
  const CodexMarker := '\U{203a}'

  predicate RuleLine(row: string) {
    var s := StripControls(row);
    s != [] && forall c :: c in s ==> c == '\U{2500}'
  }

  /** A Claude row stands between two horizontal rules. */
  predicate ClaudeAt(lines: seq<string>, k: nat) {
    1 <= k < |lines| - 1 && RuleLine(lines[k - 1]) && RuleLine(lines[k + 1]) && InputRow(lines[k], ClaudeMarker)
  }

  predicate CodexAt(lines: seq<string>, k: nat) { k < |lines| && InputRow(lines[k], CodexMarker) }

  method ClaudeCodeInputRow(lines: seq<string>) returns (at: Option<nat>)
    ensures at.Some? ==> ClaudeAt(lines, at.value) && forall j :: at.value < j < |lines| ==> !ClaudeAt(lines, j)
    ensures at.None? ==> forall j :: 0 <= j < |lines| ==> !ClaudeAt(lines, j)
  {
    var k := |lines| - 2;
    while k > 0
      invariant forall j :: k < j < |lines| && j >= 0 ==> !ClaudeAt(lines, j)
    {
      if ClaudeAt(lines, k) { return Some(k); }
      k := k - 1;
    }
    at := None;
  }

  method CodexTuiInputRow(lines: seq<string>) returns (at: Option<nat>)
    ensures at.Some? ==> CodexAt(lines, at.value) && forall j :: at.value < j < |lines| ==> !CodexAt(lines, j)
    ensures at.None? ==> forall j :: 0 <= j < |lines| ==> !CodexAt(lines, j)
  {
    var k := |lines| - 1;
    while k >= 0
      invariant forall j :: k < j < |lines| && j >= 0 ==> !CodexAt(lines, j)
    {
      if InputRow(lines[k], CodexMarker) { return Some(k); }
      k := k - 1;
    }
    at := None;
  }

  /** The row the check decides on: the last Claude row, else the last Codex row. */
  predicate Decides(lines: seq<string>, k: nat, marker: char) {
    || (marker == ClaudeMarker && ClaudeAt(lines, k) && forall j :: k < j < |lines| ==> !ClaudeAt(lines, j))
    || (marker == CodexMarker && CodexAt(lines, k) && (forall j :: k < j < |lines| ==> !CodexAt(lines, j))
        && forall j :: 0 <= j < |lines| ==> !ClaudeAt(lines, j))
  }

  /** The tail digest, and whether a stripped line is a bare or configured idle prompt. */
  datatype Shell = Shell(hash: seq<string> -> string, prompt: string -> bool)

  lemma SomethingPrinted(lines: seq<string>, k: nat, marker: char)
    requires k < |lines| && InputRow(lines[k], marker)
    ensures Join(lines, "\n") != ""
  {
    assert Tokens("") == [] && Printed([]) == "" && Strip("") == "";
    assert lines[k] in lines;
    JoinNonEmpty(lines, "\n");
  }

  method RowIsIdle(row: string, marker: char) returns (idle: bool)
    requires InputRow(row, marker) && !IsSpace(marker)
    ensures idle <==> AllFaint(Draft(row, marker))
  {
    BlankDraft(row, marker);
    if Blank(StripControls(row)[1..]) { return true; }
    idle := InputRowDraftIsAllDim(row, marker);
  }

  /** A recognised input row is safe to paste over exactly when no visible character of its
      draft has normal intensity; without one, a non-empty capture is exactly when it is a known
      idle one or ends in an idle prompt. `row` is the row that decided. */
  method PaneInputCheck(shell: Shell, lines: seq<string>, known: set<string>)
    returns (ok: bool, row: Option<(nat, char)>)
    ensures row.Some? ==> row.value.0 < |lines| && Decides(lines, row.value.0, row.value.1)
    ensures row.Some? ==> (ok <==> AllFaint(Draft(lines[row.value.0], row.value.1)))
    ensures row.None? ==> forall k :: 0 <= k < |lines| ==> !ClaudeAt(lines, k) && !CodexAt(lines, k)
    ensures row.None? ==>
              (ok <==> lines != [] && Join(lines, "\n") != ""
                       && (shell.hash(lines) in known || shell.prompt(StripControls(lines[|lines| - 1]))))
  {
    var claude := ClaudeCodeInputRow(lines);
    var codex := CodexTuiInputRow(lines);
    ok, row := false, None;
    if claude.Some? {
      SomethingPrinted(lines, claude.value, ClaudeMarker);
      row := Some((claude.value, ClaudeMarker));
    } else if codex.Some? {
      SomethingPrinted(lines, codex.value, CodexMarker);
      row := Some((codex.value, CodexMarker));
    }
    if lines == [] || Join(lines, "\n") == "" { return; }
    if row.Some? {
      ok := RowIsIdle(lines[row.value.0], row.value.1);
    } else {
      ok := shell.hash(lines) in known || shell.prompt(StripControls(lines[|lines| - 1]));
    }
  }
}
