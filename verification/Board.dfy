/** Display-width wrapping and the box roster of src/chitra/board.py.

    The Unicode database answers which characters combine and which are wide. */
module Board {
  import opened Basics
  import opened Text
  import Goals

  datatype Unicode = Unicode(combining: char -> bool, wide: char -> bool)

  const Bar := '\U{2502}'
  const Dash := '\U{2500}'

  predicate BoxGlyph(c: char) { '\U{2500}' <= c <= '\U{257f}' }

  predicate Ascii(c: char) { ' ' <= c <= '~' }

  /** Printable ASCII and the box-drawing characters are ordinary, and the markers do not combine. */
  ghost predicate UnicodeOk(u: Unicode) {
    forall c :: (Ascii(c) || BoxGlyph(c) ==> !u.combining(c) && !u.wide(c)) && (Marker(c) ==> !u.combining(c))
  }

  /** The red, yellow and green circles. */
  predicate Marker(c: char) { c == '\U{1f534}' || c == '\U{1f7e1}' || c == '\U{1f7e2}' }

  function CharWidth(u: Unicode, c: char): (n: nat)
    ensures n == 0 <==> c in "\U{fe0f}\U{fe0e}\U{200d}" || u.combining(c)
    ensures n == 1 <==> n != 0 && !u.wide(c) && !('\U{1f000}' <= c <= '\U{1faff}') && !('\U{2600}' <= c <= '\U{27bf}')
    ensures n <= 2
  {
    if c == '\U{fe0f}' || c == '\U{fe0e}' || c == '\U{200d}' || u.combining(c) then 0
    else if u.wide(c) then 2
    else if '\U{1f000}' <= c <= '\U{1faff}' || '\U{2600}' <= c <= '\U{27bf}' then 2
    else 1
  }

  function DisplayWidth(u: Unicode, s: string): nat {
    if s == [] then 0 else DisplayWidth(u, s[..|s| - 1]) + CharWidth(u, s[|s| - 1])
  }

  lemma {:induction false} WidthAppend(u: Unicode, a: string, b: string)
    ensures DisplayWidth(u, a + b) == DisplayWidth(u, a) + DisplayWidth(u, b)
  {
    if b == [] { assert a + b == a; }
    else {
      assert (a + b)[..|a + b| - 1] == a + b[..|b| - 1];
      WidthAppend(u, a, b[..|b| - 1]);
    }
  }

  function Repeat(c: char, n: nat): (s: string)
    ensures |s| == n && forall k :: 0 <= k < n ==> s[k] == c
  {
    seq(n, _ => c)
  }

  lemma {:induction false} RepeatWidth(u: Unicode, c: char, n: nat)
    requires CharWidth(u, c) == 1
    ensures DisplayWidth(u, Repeat(c, n)) == n
  {
    if n > 0 {
      assert Repeat(c, n)[..n - 1] == Repeat(c, n - 1);
      RepeatWidth(u, c, n - 1);
    }
  }

  function Pad(u: Unicode, s: string, width: nat): string {
    s + Repeat(' ', if DisplayWidth(u, s) < width then width - DisplayWidth(u, s) else 0)
  }

  /** Padding reaches the column exactly when the text fits it. */
  lemma PadWidth(u: Unicode, s: string, width: nat)
    requires UnicodeOk(u)
    ensures DisplayWidth(u, Pad(u, s, width)) == if DisplayWidth(u, s) <= width then width else DisplayWidth(u, s)
  {
    var n: nat := if DisplayWidth(u, s) < width then width - DisplayWidth(u, s) else 0;
    WidthAppend(u, s, Repeat(' ', n));
    RepeatWidth(u, ' ', n);
  }

  // ---------------------------------------------------------------- wrapping

  predicate Fits(u: Unicode, lines: seq<string>, width: nat) {
    forall line :: line in lines ==> DisplayWidth(u, line) <= width
  }

  /** Every character on its own fits the column. */
  predicate CharsFit(u: Unicode, s: string, width: nat) { forall c :: c in s ==> CharWidth(u, c) <= width }

  lemma OneMoreChar(u: Unicode, piece: string, c: char)
    ensures DisplayWidth(u, piece + [c]) == DisplayWidth(u, piece) + CharWidth(u, c)
  {
    assert (piece + [c])[..|piece|] == piece;
  }

  lemma JoinedWidth(u: Unicode, current: string, word: string)
    requires UnicodeOk(u)
    ensures DisplayWidth(u, current + (" " + word)) == DisplayWidth(u, current) + 1 + DisplayWidth(u, word)
  {
    WidthAppend(u, current, " " + word);
    WidthAppend(u, " ", word);
    OneMoreChar(u, "", ' ');
    assert "" + [' '] == " ";
  }

  lemma FitsGrows(u: Unicode, lines: seq<string>, line: string, width: nat)
    ensures Fits(u, lines + [line], width) <==> Fits(u, lines, width) && DisplayWidth(u, line) <= width
  {
    var more := lines + [line];
    assert line in more && forall x :: x in lines ==> x in more;
  }

  /** What stands up to the first space. */
  function FirstWord(s: string): string {
    if s == [] || IsSpace(s[0]) then [] else [s[0]] + FirstWord(s[1..])
  }

  /** The lines put back together: a space at a break between words, nothing at a break inside one. */
  function Rejoined(lines: seq<string>, spaced: seq<bool>): string
    requires |lines| == |spaced| + 1
  {
    if spaced == [] then lines[0] else lines[0] + (if spaced[0] then " " else "") + Rejoined(lines[1..], spaced[1..])
  }

  /** Why a line ends where it does. Between words: the next word would not have fitted behind it, or is itself broken.
      Inside a word: the line holds nothing else, and the next character would not have fitted. */
  predicate Forced(u: Unicode, line: string, next: string, width: nat, spaced: bool, nextBroken: bool) {
    if spaced then DisplayWidth(u, line) + 1 + DisplayWidth(u, FirstWord(next)) > width || nextBroken
    else (forall c :: c in line ==> !IsSpace(c)) && next != "" && DisplayWidth(u, line) + CharWidth(u, next[0]) > width
  }

  predicate Clean(line: string) { line != "" && !IsSpace(line[0]) && !IsSpace(line[|line| - 1]) }

  /** Every line is as full as the words allow. */
  predicate Laid(u: Unicode, lines: seq<string>, spaced: seq<bool>, width: nat) {
    && |lines| == |spaced| + 1 && (forall k :: 0 <= k < |lines| ==> Clean(lines[k]))
    && forall k :: 0 <= k < |spaced| ==>
         Forced(u, lines[k], lines[k + 1], width, spaced[k], k + 1 < |spaced| && !spaced[k + 1])
  }

  /** The lines are the greedy wrapping of the text's words. */
  ghost predicate WrapsTo(u: Unicode, text: string, width: nat, lines: seq<string>) {
    if Words(text) == [] then lines == [""]
    else exists spaced :: Laid(u, lines, spaced, width) && Rejoined(lines, spaced) == Join(Words(text), " ")
  }

  lemma {:induction false} RejoinedAppend(a: seq<string>, sa: seq<bool>, g: bool, b: seq<string>, sb: seq<bool>)
    requires |a| == |sa| + 1 && |b| == |sb| + 1
    ensures Rejoined(a + b, sa + [g] + sb) == Rejoined(a, sa) + (if g then " " else "") + Rejoined(b, sb)
  {
    if sa == [] {
      assert (a + b)[1..] == b && (sa + [g] + sb)[1..] == sb;
    } else {
      assert (a + b)[1..] == a[1..] + b && (sa + [g] + sb)[1..] == sa[1..] + [g] + sb;
      RejoinedAppend(a[1..], sa[1..], g, b, sb);
    }
  }

  lemma LaidAppend(u: Unicode, a: seq<string>, sa: seq<bool>, g: bool, b: seq<string>, sb: seq<bool>, width: nat)
    requires Laid(u, a, sa, width) && Laid(u, b, sb, width)
    requires Forced(u, a[|a| - 1], b[0], width, g, sb != [] && !sb[0])
    ensures Laid(u, a + b, sa + [g] + sb, width)
  {
    var lines, spaced := a + b, sa + [g] + sb;
    forall k | 0 <= k < |spaced|
      ensures Forced(u, lines[k], lines[k + 1], width, spaced[k], k + 1 < |spaced| && !spaced[k + 1])
    {
      if k < |sa| { assert Forced(u, a[k], a[k + 1], width, sa[k], k + 1 < |sa| && !sa[k + 1]); }
      else if k > |sa| {
        var j := k - |a|;
        assert lines[k] == b[j] && lines[k + 1] == b[j + 1] && spaced[k] == sb[j];
        assert Forced(u, b[j], b[j + 1], width, sb[j], j + 1 < |sb| && !sb[j + 1]);
      }
    }
  }

  lemma {:induction false} FirstWordStays(c: string, more: string)
    requires more != [] && IsSpace(more[0])
    ensures FirstWord(c + more) == FirstWord(c)
  {
    if c == [] { assert c + more == more; }
    else {
      assert (c + more)[1..] == c[1..] + more;
      if !IsSpace(c[0]) { FirstWordStays(c[1..], more); }
    }
  }

  lemma {:induction false} RejoinedExtends(lines: seq<string>, c: string, spaced: seq<bool>, more: string)
    requires |lines| == |spaced|
    ensures Rejoined(lines + [c + more], spaced) == Rejoined(lines + [c], spaced) + more
  {
    if lines != [] {
      assert (lines + [c])[1..] == lines[1..] + [c] && (lines + [c + more])[1..] == lines[1..] + [c + more];
      RejoinedExtends(lines[1..], c, spaced[1..], more);
    }
  }

  /** A further word behind the last line changes no break. */
  lemma LaidExtends(u: Unicode, lines: seq<string>, c: string, spaced: seq<bool>, word: string, width: nat)
    requires Laid(u, lines + [c], spaced, width) && IsWord(word)
    ensures Laid(u, lines + [c + (" " + word)], spaced, width)
  {
    var was, all := lines + [c], lines + [c + (" " + word)];
    assert was[|lines|] == c && Clean(c) && word[|word| - 1] in word;
    FirstWordStays(c, " " + word);
    forall k | 0 <= k < |spaced|
      ensures Forced(u, all[k], all[k + 1], width, spaced[k], k + 1 < |spaced| && !spaced[k + 1])
    {
      assert Forced(u, was[k], was[k + 1], width, spaced[k], k + 1 < |spaced| && !spaced[k + 1]);
    }
    forall k | 0 <= k < |all| ensures Clean(all[k]) { assert k < |lines| ==> all[k] == was[k]; }
  }

  lemma {:induction false} WordIsItsFirst(word: string)
    requires forall c :: c in word ==> !IsSpace(c)
    ensures FirstWord(word) == word
  {
    if word != [] {
      assert word[0] in word && forall c :: c in word[1..] ==> c in word;
      WordIsItsFirst(word[1..]);
      assert word == [word[0]] + word[1..];
    }
  }

  /** The pieces of a hard split, each but the last too full for the character that follows. */
  predicate Pieces(u: Unicode, pieces: seq<string>, piece: string, width: nat) {
    var all := pieces + [piece];
    && (forall k :: 0 <= k < |all| ==> IsWord(all[k]))
    && forall k :: 0 <= k < |pieces| ==> DisplayWidth(u, all[k]) + CharWidth(u, all[k + 1][0]) > width
  }

  lemma PieceCloses(u: Unicode, pieces: seq<string>, piece: string, c: char, width: nat)
    requires Pieces(u, pieces, piece, width) && !IsSpace(c) && DisplayWidth(u, piece) + CharWidth(u, c) > width
    ensures Pieces(u, pieces + [piece], [c], width)
  {
    var was, all := pieces + [piece], pieces + [piece] + [[c]];
    forall k | 0 <= k < |all| ensures IsWord(all[k]) { assert k < |was| ==> all[k] == was[k]; }
    forall k | 0 <= k < |was| ensures DisplayWidth(u, all[k]) + CharWidth(u, all[k + 1][0]) > width {
      if k < |pieces| { assert all[k] == was[k] && all[k + 1] == was[k + 1]; }
    }
  }

  lemma PieceGrows(u: Unicode, pieces: seq<string>, piece: string, c: char, width: nat)
    requires Pieces(u, pieces, piece, width) && !IsSpace(c)
    ensures Pieces(u, pieces, piece + [c], width)
  {
    var was, all := pieces + [piece], pieces + [piece + [c]];
    assert was[|pieces|] == piece && IsWord(piece);
    forall k | 0 <= k < |all| ensures IsWord(all[k]) { assert k < |pieces| ==> all[k] == was[k]; }
    forall k | 0 <= k < |pieces| ensures DisplayWidth(u, all[k]) + CharWidth(u, all[k + 1][0]) > width {
      assert all[k] == was[k] && all[k + 1][0] == was[k + 1][0];
    }
  }

  /** Hard-split one unbroken token; the last piece stays open. */
  method SplitToken(u: Unicode, word: string, width: nat) returns (pieces: seq<string>, piece: string, pieceWidth: nat)
    requires IsWord(word)
    ensures Flatten(pieces) + piece == word && pieceWidth == DisplayWidth(u, piece) && Pieces(u, pieces, piece, width)
    ensures CharsFit(u, word, width) ==> Fits(u, pieces, width) && pieceWidth <= width
  {
    OneMoreChar(u, "", word[0]);
    assert word[0] in word && Flatten([]) == "" && word[..1] == [word[0]];
    pieces, piece, pieceWidth := [], [word[0]], CharWidth(u, word[0]);
    assert "" + [word[0]] == piece && IsWord(piece);
    for k := 1 to |word|
      invariant Flatten(pieces) + piece == word[..k] && pieceWidth == DisplayWidth(u, piece)
      invariant Pieces(u, pieces, piece, width)
      invariant CharsFit(u, word, width) ==> Fits(u, pieces, width) && pieceWidth <= width
    {
      var charWidth := CharWidth(u, word[k]);
      assert word[k] in word && word[..k + 1] == word[..k] + [word[k]];
      if pieceWidth + charWidth > width {
        PieceCloses(u, pieces, piece, word[k], width);
        FitsGrows(u, pieces, piece, width);
        FlattenOne(pieces, piece);
        pieces, piece, pieceWidth := pieces + [piece], "", 0;
      } else {
        PieceGrows(u, pieces, piece, word[k], width);
      }
      OneMoreChar(u, piece, word[k]);
      piece, pieceWidth := piece + [word[k]], pieceWidth + charWidth;
    }
    assert word[..|word|] == word;
  }

  lemma FlattenOne(parts: seq<string>, part: string)
    ensures Flatten(parts + [part]) == Flatten(parts) + part
  {
    FlattenAppend(parts, [part]);
    assert [part][1..] == [] && Flatten([part]) == part;
  }

  function Unspaced(n: nat): (s: seq<bool>)
    ensures |s| == n && forall k :: 0 <= k < n ==> !s[k]
  {
    seq(n, _ => false)
  }

  lemma {:induction false} PiecesRejoin(pieces: seq<string>, piece: string)
    ensures Rejoined(pieces + [piece], Unspaced(|pieces|)) == Flatten(pieces) + piece
  {
    if pieces != [] {
      assert (pieces + [piece])[1..] == pieces[1..] + [piece] && Unspaced(|pieces|)[1..] == Unspaced(|pieces| - 1);
      PiecesRejoin(pieces[1..], piece);
    }
  }

  lemma PiecesLaid(u: Unicode, pieces: seq<string>, piece: string, width: nat)
    requires Pieces(u, pieces, piece, width)
    ensures Laid(u, pieces + [piece], Unspaced(|pieces|), width)
  {
    var all := pieces + [piece];
    forall k | 0 <= k < |all| ensures Clean(all[k]) {
      assert IsWord(all[k]) && all[k][0] in all[k] && all[k][|all[k]| - 1] in all[k];
    }
    forall k | 0 <= k < |pieces| ensures Forced(u, all[k], all[k + 1], width, false, k + 1 < |pieces|) {
      assert IsWord(all[k]) && IsWord(all[k + 1]);
    }
  }

  /** The lines so far, the last of them open, are the greedy wrapping of the text so far. */
  ghost predicate Open(u: Unicode, lines: seq<string>, current: string, spaced: seq<bool>, width: nat, text: string) {
    if current == "" then lines == [] && spaced == [] && text == ""
    else Laid(u, lines + [current], spaced, width) && Rejoined(lines + [current], spaced) == text
  }

  function Behind(text: string, word: string): string { if text == "" then word else text + (" " + word) }

  lemma OpenSplits(u: Unicode, lines: seq<string>, current: string, spaced: seq<bool>, width: nat, text: string,
                   pieces: seq<string>, piece: string, word: string) returns (next: seq<bool>)
    requires Open(u, lines, current, spaced, width, text) && current != "" && Pieces(u, pieces, piece, width)
    requires Flatten(pieces) + piece == word && DisplayWidth(u, word) > width
    ensures Open(u, lines + [current] + pieces, piece, next, width, Behind(text, word))
  {
    var all, sb := pieces + [piece], Unspaced(|pieces|);
    PiecesOpen(u, pieces, piece, word, width);
    next := spaced + [true] + sb;
    if pieces == [] { assert IsWord(all[0]) && all[0] == word; WordIsItsFirst(word); }
    LinesJoin(u, lines + [current], spaced, text, all, sb, word, width);
    assert lines + [current] + pieces + [piece] == lines + [current] + all;
  }

  lemma PiecesOpen(u: Unicode, pieces: seq<string>, piece: string, word: string, width: nat)
    requires Pieces(u, pieces, piece, width) && Flatten(pieces) + piece == word
    ensures Open(u, pieces, piece, Unspaced(|pieces|), width, word) && piece != ""
    ensures Laid(u, pieces + [piece], Unspaced(|pieces|), width)
    ensures Rejoined(pieces + [piece], Unspaced(|pieces|)) == word
  {
    PiecesLaid(u, pieces, piece, width);
    PiecesRejoin(pieces, piece);
    assert (pieces + [piece])[|pieces|] == piece && IsWord((pieces + [piece])[|pieces|]);
  }

  /** Lines behind lines, with a space where they meet. */
  lemma LinesJoin(u: Unicode, a: seq<string>, sa: seq<bool>, text: string, b: seq<string>, sb: seq<bool>, word: string,
                  width: nat)
    requires Laid(u, a, sa, width) && Rejoined(a, sa) == text && Laid(u, b, sb, width) && Rejoined(b, sb) == word
    requires Forced(u, a[|a| - 1], b[0], width, true, sb != [] && !sb[0])
    ensures Laid(u, a + b, sa + [true] + sb, width) && Rejoined(a + b, sa + [true] + sb) == Behind(text, word)
  {
    LaidAppend(u, a, sa, true, b, sb, width);
    RejoinedAppend(a, sa, true, b, sb);
    RejoinedNonEmpty(a, sa);
    SpaceBetween(text, word);
  }

  lemma RejoinedNonEmpty(lines: seq<string>, spaced: seq<bool>)
    requires |lines| == |spaced| + 1 && Clean(lines[0])
    ensures Rejoined(lines, spaced) != ""
  {
  }

  lemma OpenBreaks(u: Unicode, lines: seq<string>, current: string, spaced: seq<bool>, width: nat, text: string,
                   word: string)
    requires Open(u, lines, current, spaced, width, text) && current != "" && IsWord(word)
    requires DisplayWidth(u, current) + 1 + DisplayWidth(u, word) > width
    ensures Open(u, lines + [current], word, spaced + [true], width, Behind(text, word))
  {
    OneWordLaid(u, word, width);
    WordIsItsFirst(word);
    LinesJoin(u, lines + [current], spaced, text, [word], [], word, width);
    assert spaced + [true] + [] == spaced + [true];
  }

  lemma SpaceBetween(text: string, word: string)
    ensures text + " " + word == text + (" " + word)
  {
  }

  lemma OneWordLaid(u: Unicode, word: string, width: nat)
    requires IsWord(word)
    ensures Laid(u, [word], [], width) && Rejoined([word], []) == word
  {
    assert word[0] in word && word[|word| - 1] in word;
  }

  lemma OpenExtends(u: Unicode, lines: seq<string>, current: string, spaced: seq<bool>, width: nat, text: string,
                    word: string)
    requires Open(u, lines, current, spaced, width, text) && current != "" && IsWord(word)
    ensures Open(u, lines, current + (" " + word), spaced, width, Behind(text, word))
  {
    LaidExtends(u, lines, current, spaced, word, width);
    RejoinedExtends(lines, current, spaced, " " + word);
    RejoinedNonEmpty(lines + [current], spaced);
  }

  lemma OpenStarts(u: Unicode, word: string, width: nat)
    requires IsWord(word)
    ensures Open(u, [], word, [], width, word)
  {
    assert word[0] in word && word[|word| - 1] in word && [] + [word] == [word];
  }

  /** One word: split it, break the line before it, or join it to the line. */
  method PlaceWord(u: Unicode, word: string, width: nat, lines0: seq<string>, current0: string, currentWidth0: nat,
                   ghost spaced0: seq<bool>, ghost text: string)
    returns (lines: seq<string>, current: string, currentWidth: nat, ghost spaced: seq<bool>)
    requires UnicodeOk(u) && IsWord(word) && Open(u, lines0, current0, spaced0, width, text)
    requires currentWidth0 == DisplayWidth(u, current0)
    ensures Open(u, lines, current, spaced, width, Behind(text, word)) && current != ""
    ensures currentWidth == DisplayWidth(u, current)
    ensures CharsFit(u, word, width) && Fits(u, lines0, width) && currentWidth0 <= width ==>
              Fits(u, lines, width) && currentWidth <= width
  {
    lines, current, currentWidth, spaced := lines0, current0, currentWidth0, spaced0;
    var wordWidth := DisplayWidth(u, word);
    if wordWidth > width {
      var pieces, piece, pieceWidth := SplitToken(u, word, width);
      PiecesOpen(u, pieces, piece, word, width);
      FitsGrows(u, lines, current, width);
      if current != "" {
        spaced := OpenSplits(u, lines, current, spaced, width, text, pieces, piece, word);
        lines := lines + [current] + pieces;
      } else {
        lines, spaced := pieces, Unspaced(|pieces|);
      }
      current, currentWidth := piece, pieceWidth;
      return;
    }
    var candidate := currentWidth + (if current != "" then 1 else 0) + wordWidth;
    if current != "" && candidate > width {
      OpenBreaks(u, lines, current, spaced, width, text, word);
      FitsGrows(u, lines, current, width);
      lines, spaced := lines + [current], spaced + [true];
      current, currentWidth := word, wordWidth;
    } else if current != "" {
      OpenExtends(u, lines, current, spaced, width, text, word);
      JoinedWidth(u, current, word);
      current, currentWidth := current + (" " + word), candidate;
    } else {
      OpenStarts(u, word, width);
      current, currentWidth := word, candidate;
    }
  }

  function AtLeast(n: int, floor: int): int { if n < floor then floor else n }

  /** The greedy wrapping of the text's words: they survive whole and apart but for a word too wide for the column, no
      line ends before it must, and no line is wider than the column exactly when each character fits it. */
  method WrapCell(u: Unicode, text: string, width: int) returns (lines: seq<string>)
    requires UnicodeOk(u)
    ensures WrapsTo(u, text, AtLeast(width, 1), lines)
    ensures lines != [] && Squeeze(Flatten(lines)) == Squeeze(text)
    ensures CharsFit(u, Squeeze(text), AtLeast(width, 1)) <==> Fits(u, lines, AtLeast(width, 1))
    ensures lines == [""] || "" !in lines
  {
    var words := Words(text);
    WordsAreWords(text);
    WordsKeepText(text);
    if words == [] {
      assert Flatten([""]) == "" + Flatten([""][1..]);
      assert CharsFit(u, Squeeze(text), AtLeast(width, 1)) && DisplayWidth(u, "") == 0;
      return [""];
    }
    var w: nat := AtLeast(width, 1);
    lines := [];
    var current, currentWidth := "", 0;
    ghost var spaced: seq<bool> := [];
    for i := 0 to |words|
      invariant Open(u, lines, current, spaced, w, Join(words[..i], " ")) && currentWidth == DisplayWidth(u, current)
      invariant CharsFit(u, Squeeze(text), w) ==> Fits(u, lines, w) && currentWidth <= w
      invariant i > 0 ==> current != ""
    {
      var word := words[i];
      assert word in words;
      JoinGrows(words, i);
      if CharsFit(u, Squeeze(text), w) { WordFits(u, words, i, w); }
      lines, current, currentWidth, spaced := PlaceWord(u, word, w, lines, current, currentWidth, spaced,
                                                        Join(words[..i], " "));
    }
    assert words[..|words|] == words;
    lines := lines + [current];
    RejoinedKeeps(lines, spaced, words);
    FitsGrows(u, lines[..|lines| - 1], current, w);
    assert lines[..|lines| - 1] + [current] == lines;
    if Fits(u, lines, w) { FittingNeedsChars(u, lines, Squeeze(text), w); }
  }

  lemma {:induction false} JoinSnoc(parts: seq<string>, part: string)
    requires parts != []
    ensures Join(parts + [part], " ") == Join(parts, " ") + (" " + part)
  {
    assert (parts + [part])[1..] == parts[1..] + [part];
    if |parts| > 1 {
      JoinSnoc(parts[1..], part);
      assert parts[0] + " " + (Join(parts[1..], " ") + (" " + part)) == parts[0] + " " + Join(parts[1..], " ") +
             (" " + part);
    } else {
      assert parts[1..] + [part] == [part];
      assert parts[0] + " " + part == parts[0] + (" " + part);
    }
  }

  lemma JoinGrows(words: seq<string>, i: nat)
    requires i < |words| && forall w :: w in words ==> IsWord(w)
    ensures Join(words[..i + 1], " ") == Behind(Join(words[..i], " "), words[i])
  {
    assert words[..i + 1] == words[..i] + [words[i]];
    if i > 0 {
      JoinSnoc(words[..i], words[i]);
      assert words[0] in words && words[0] == words[..i][0] && words[..i][0] in words[..i];
      JoinNonEmpty(words[..i], " ");
    }
  }

  lemma SqueezeGap(a: string, gap: string, b: string)
    requires gap == "" || gap == " "
    ensures Squeeze(a + gap + b) == Squeeze(a) + Squeeze(b)
  {
    SqueezeAppend(a + gap, b);
    SqueezeAppend(a, gap);
    assert gap != "" ==> gap[1..] == "";
  }

  lemma {:induction false} SqueezeJoin(words: seq<string>)
    requires forall w :: w in words ==> IsWord(w)
    ensures Squeeze(Join(words, " ")) == Flatten(words)
  {
    if words != [] {
      assert words[0] in words;
      SqueezeWord(words[0]);
      if |words| == 1 { assert words[1..] == []; }
      else {
        SqueezeJoin(words[1..]);
        SqueezeGap(words[0], " ", Join(words[1..], " "));
      }
    }
  }

  lemma FlattenSqueezes(line: string, rest: seq<string>)
    ensures Squeeze(Flatten([line] + rest)) == Squeeze(line) + Squeeze(Flatten(rest))
  {
    assert ([line] + rest)[1..] == rest;
    SqueezeAppend(line, Flatten(rest));
  }

  lemma {:induction false} SqueezeRejoined(lines: seq<string>, spaced: seq<bool>)
    requires |lines| == |spaced| + 1
    ensures Squeeze(Rejoined(lines, spaced)) == Squeeze(Flatten(lines))
  {
    assert lines == [lines[0]] + lines[1..];
    FlattenSqueezes(lines[0], lines[1..]);
    if spaced == [] { assert lines[1..] == []; }
    else {
      SqueezeRejoined(lines[1..], spaced[1..]);
      SqueezeGap(lines[0], if spaced[0] then " " else "", Rejoined(lines[1..], spaced[1..]));
    }
  }

  lemma RejoinedKeeps(lines: seq<string>, spaced: seq<bool>, words: seq<string>)
    requires |lines| == |spaced| + 1 && Rejoined(lines, spaced) == Join(words, " ")
    requires forall w :: w in words ==> IsWord(w)
    ensures Squeeze(Flatten(lines)) == Flatten(words)
  {
    SqueezeRejoined(lines, spaced);
    SqueezeJoin(words);
  }

  lemma {:induction false} SqueezeHas(s: string, c: char)
    requires c in Squeeze(s)
    ensures c in s
  {
    if s != [] && !(!IsSpace(s[0]) && s[0] == c) { SqueezeHas(s[1..], c); }
  }

  lemma {:induction false} FlattenMember(parts: seq<string>, c: char)
    requires c in Flatten(parts)
    ensures exists p :: p in parts && c in p
  {
    if c in parts[0] { assert parts[0] in parts; } else { FlattenMember(parts[1..], c); }
  }

  lemma {:induction false} HoldsWide(u: Unicode, line: string, c: char)
    requires c in line
    ensures DisplayWidth(u, line) >= CharWidth(u, c)
  {
    if line[|line| - 1] != c { HoldsWide(u, line[..|line| - 1], c); }
  }

  /** Lines that carry a text and fit a column need each of its characters to fit. */
  lemma FittingNeedsChars(u: Unicode, lines: seq<string>, text: string, width: nat)
    requires Squeeze(Flatten(lines)) == text && Fits(u, lines, width)
    ensures CharsFit(u, text, width)
  {
    forall c | c in text ensures CharWidth(u, c) <= width {
      SqueezeHas(Flatten(lines), c);
      FlattenMember(lines, c);
      var line :| line in lines && c in line;
      HoldsWide(u, line, c);
    }
  }

  lemma {:induction false} WordInText(words: seq<string>, i: nat, c: char)
    requires i < |words| && c in words[i]
    ensures c in Flatten(words)
  {
    if i > 0 { WordInText(words[1..], i - 1, c); }
  }

  lemma WordFits(u: Unicode, words: seq<string>, i: nat, width: nat)
    requires i < |words| && CharsFit(u, Flatten(words), width)
    ensures CharsFit(u, words[i], width)
  {
    forall c | c in words[i] ensures CharWidth(u, c) <= width { WordInText(words, i, c); }
  }

  // ---------------------------------------------------------------- the box roster

  const MarkerWidth := 2
  const SessionMax := 20
  const GoalMin := 24
  const NowMin := 18
  const NeedsMin := 8

  datatype Columns = Columns(marker: nat, session: nat, goal: nat, now: nat, needs: nat)

  function AtMost(n: int, cap: int): int { if n > cap then cap else n }

  /** `COLUMNS`, or the default when it is absent, kept within a sane band. */
  function TerminalWidth(columns: Option<int>): (t: nat)
    ensures 80 <= t <= 160
    ensures columns.None? || columns.value <= 0 ==> t == 100
    ensures columns.Some? && 80 <= columns.value <= 160 ==> t == columns.value
    ensures columns.Some? && 0 < columns.value < 80 ==> t == 80
    ensures columns.Some? && 160 < columns.value ==> t == 160
  {
    var cols := if columns.None? || columns.value <= 0 then 100 else columns.value;
    AtLeast(AtMost(cols, 160), 80)
  }

  /** The three text columns share what the fixed ones leave; the floats of the source are exact floors here. */
  function ColumnWidths(term: nat, session: nat): (c: Columns)
    requires 80 <= term <= 160 && 7 <= session <= SessionMax
    ensures c.marker == MarkerWidth && c.session == session
    ensures c.goal >= GoalMin && c.now >= NowMin && c.needs >= NeedsMin
    ensures c.marker + c.session + c.goal + c.now + c.needs + 16 == AtLeast(term, 68 + session)
    ensures var shared := c.goal + c.now + c.needs;
            && (100 * c.goal <= 46 * shared < 100 * (c.goal + 1) || (c.goal == GoalMin && 46 * shared < 100 * GoalMin))
            && (100 * c.now <= 32 * shared < 100 * (c.now + 1) || (c.now == NowMin && 32 * shared < 100 * NowMin))
  {
    var budget := AtLeast(term - 16, 40);
    var remaining := AtLeast(budget - MarkerWidth - session, GoalMin + NowMin + NeedsMin);
    var goal := AtLeast(remaining * 46 / 100, GoalMin);
    var now := AtLeast(remaining * 32 / 100, NowMin);
    Columns(MarkerWidth, session, goal, now, AtLeast(remaining - goal - now, NeedsMin))
  }

  function Widths(c: Columns): (w: seq<nat>)
    ensures |w| == 5
  {
    [c.marker, c.session, c.goal, c.now, c.needs]
  }

  datatype Row = Row(marker: string, session: string, goal: string, now: string, needs: string)

  function Cells(r: Row): (s: seq<string>)
    ensures |s| == 5
  {
    [r.marker, r.session, r.goal, r.now, r.needs]
  }

  const Headers := Row("", "Session", "Goal", "Now", "Needs")

  predicate MarkerFits(u: Unicode, r: Row) { DisplayWidth(u, r.marker) <= MarkerWidth }

  lemma {:induction false} AsciiWidth(u: Unicode, s: string)
    requires UnicodeOk(u) && forall c :: c in s ==> Ascii(c)
    ensures DisplayWidth(u, s) == |s|
  {
    if s != [] {
      AsciiWidth(u, s[..|s| - 1]);
      assert s[|s| - 1] in s;
    }
  }

  /** Room for the header and for every name, but for at most twenty columns, and no more than some name or the header
      needs. */
  predicate IsSessionWidth(u: Unicode, rows: seq<Row>, n: nat) {
    && 7 <= n <= SessionMax && (forall r :: r in rows ==> DisplayWidth(u, r.session) <= n || n == SessionMax)
    && (n == 7 || exists r :: r in rows && DisplayWidth(u, r.session) >= n)
  }

  /** The widest session name, at least the header and at most twenty columns. */
  method SessionWidth(u: Unicode, rows: seq<Row>) returns (n: nat)
    requires UnicodeOk(u)
    ensures 7 <= n <= SessionMax && IsSessionWidth(u, rows, n)
  {
    var widest := DisplayWidth(u, "Session");
    AsciiWidth(u, "Session");
    for k := 0 to |rows|
      invariant widest >= 7
      invariant forall r :: r in rows[..k] ==> DisplayWidth(u, r.session) <= widest
      invariant widest == 7 || exists r :: r in rows && DisplayWidth(u, r.session) == widest
    {
      assert rows[..k + 1] == rows[..k] + [rows[k]];
      assert rows[k] in rows;
      if DisplayWidth(u, rows[k].session) > widest { widest := DisplayWidth(u, rows[k].session); }
    }
    assert rows[..|rows|] == rows;
    n := AtMost(widest, SessionMax);
  }

  /** `left + middle.join(segments) + right`. */
  function Frame(left: char, middle: char, right: char, segments: seq<string>): string {
    [left] + Join(segments, [middle]) + [right]
  }

  function Total(widths: seq<nat>): nat {
    if widths == [] then 0 else widths[0] + 2 + Total(widths[1..])
  }

  /** Each segment is its column plus a space on either side. */
  predicate Aligned(u: Unicode, segments: seq<string>, widths: seq<nat>) {
    |segments| == |widths| && forall k :: 0 <= k < |widths| ==> DisplayWidth(u, segments[k]) == widths[k] + 2
  }

  lemma GlyphWidth(u: Unicode, c: char)
    requires UnicodeOk(u) && BoxGlyph(c)
    ensures DisplayWidth(u, [c]) == 1
  {
    assert [c][..0] == [];
  }

  lemma {:induction false} JoinWidth(u: Unicode, segments: seq<string>, widths: seq<nat>, middle: char)
    requires UnicodeOk(u) && BoxGlyph(middle) && segments != [] && Aligned(u, segments, widths)
    ensures DisplayWidth(u, Join(segments, [middle])) == Total(widths) + |segments| - 1
  {
    if |segments| > 1 {
      var rest := Join(segments[1..], [middle]);
      JoinWidth(u, segments[1..], widths[1..], middle);
      GlyphWidth(u, middle);
      WidthAppend(u, segments[0] + [middle], rest);
      WidthAppend(u, segments[0], [middle]);
    } else {
      assert widths[1..] == [];
    }
  }

  lemma FrameWidth(u: Unicode, left: char, middle: char, right: char, segments: seq<string>, widths: seq<nat>)
    requires UnicodeOk(u) && BoxGlyph(left) && BoxGlyph(middle) && BoxGlyph(right) && segments != []
    requires Aligned(u, segments, widths)
    ensures DisplayWidth(u, Frame(left, middle, right, segments)) == Total(widths) + |widths| + 1
  {
    var inner := Join(segments, [middle]);
    JoinWidth(u, segments, widths, middle);
    GlyphWidth(u, left);
    GlyphWidth(u, right);
    WidthAppend(u, [left] + inner, [right]);
    WidthAppend(u, [left], inner);
  }

  function Rule(widths: seq<nat>): (r: seq<string>)
    ensures |r| == |widths| && forall k :: 0 <= k < |widths| ==> r[k] == Repeat(Dash, widths[k] + 2)
  {
    seq(|widths|, k requires 0 <= k < |widths| => Repeat(Dash, widths[k] + 2))
  }

  function Border(left: char, middle: char, right: char, widths: seq<nat>): string {
    Frame(left, middle, right, Rule(widths))
  }

  lemma DashesWidth(u: Unicode, n: nat)
    requires UnicodeOk(u)
    ensures DisplayWidth(u, Repeat(Dash, n)) == n
  {
    assert BoxGlyph(Dash);
    RepeatWidth(u, Dash, n);
  }

  lemma RuleAligned(u: Unicode, widths: seq<nat>)
    requires UnicodeOk(u)
    ensures Aligned(u, Rule(widths), widths)
  {
    var rule := Rule(widths);
    forall k | 0 <= k < |widths| ensures DisplayWidth(u, rule[k]) == widths[k] + 2 {
      assert rule[k] == Repeat(Dash, widths[k] + 2);
      DashesWidth(u, widths[k] + 2);
    }
  }

  lemma BorderWidth(u: Unicode, left: char, middle: char, right: char, widths: seq<nat>)
    requires UnicodeOk(u) && BoxGlyph(left) && BoxGlyph(middle) && BoxGlyph(right) && widths != []
    ensures DisplayWidth(u, Border(left, middle, right, widths)) == Total(widths) + |widths| + 1
  {
    RuleAligned(u, widths);
    FrameWidth(u, left, middle, right, Rule(widths), widths);
  }

  /** The r-th piece of a wrapped cell, padded to its column. */
  function Segment(u: Unicode, cell: seq<string>, r: nat, width: nat): string {
    " " + Pad(u, if r < |cell| then cell[r] else "", width) + " "
  }

  lemma SegmentWidth(u: Unicode, cell: seq<string>, r: nat, width: nat)
    requires UnicodeOk(u) && Fits(u, cell, width)
    ensures DisplayWidth(u, Segment(u, cell, r, width)) == width + 2
  {
    var piece := if r < |cell| then cell[r] else "";
    var padded := Pad(u, piece, width);
    PadWidth(u, piece, width);
    AsciiWidth(u, " ");
    WidthAppend(u, " " + padded, " ");
    WidthAppend(u, " ", padded);
  }

  function CellOf(wrapped: seq<seq<string>>, k: nat): seq<string> { if k < |wrapped| then wrapped[k] else [] }

  function TableLine(u: Unicode, wrapped: seq<seq<string>>, widths: seq<nat>, r: nat): string {
    Frame(Bar, Bar, Bar, seq(|widths|, k requires 0 <= k < |widths| => Segment(u, CellOf(wrapped, k), r, widths[k])))
  }

  /** The wrapped cells fit their columns. */
  predicate AllFit(u: Unicode, wrapped: seq<seq<string>>, widths: seq<nat>) {
    |wrapped| == |widths| && forall k :: 0 <= k < |widths| ==> Fits(u, wrapped[k], widths[k])
  }

  lemma TableLineWidth(u: Unicode, wrapped: seq<seq<string>>, widths: seq<nat>, r: nat)
    requires UnicodeOk(u) && widths != [] && AllFit(u, wrapped, widths)
    ensures DisplayWidth(u, TableLine(u, wrapped, widths, r)) == Total(widths) + |widths| + 1
  {
    var segments := seq(|widths|, k requires 0 <= k < |widths| => Segment(u, CellOf(wrapped, k), r, widths[k]));
    forall k | 0 <= k < |widths| ensures DisplayWidth(u, segments[k]) == widths[k] + 2 {
      SegmentWidth(u, wrapped[k], r, widths[k]);
    }
    FrameWidth(u, Bar, Bar, Bar, segments, widths);
  }

  /** The marker stands on one line; each text cell is the greedy wrapping of its text and carries every non-space
      character of it, in order. */
  ghost predicate Carries(u: Unicode, wrapped: seq<seq<string>>, cells: seq<string>, widths: seq<nat>) {
    && |wrapped| == |cells| == |widths| && (cells != [] ==> wrapped[0] == [cells[0]])
    && (forall k :: 1 <= k < |cells| ==> WrapsTo(u, cells[k], widths[k], wrapped[k]))
    && forall k :: 0 <= k < |cells| ==> Squeeze(Flatten(wrapped[k])) == Squeeze(cells[k])
  }

  predicate Roomy(widths: seq<nat>) { forall k :: 0 <= k < |widths| ==> widths[k] >= 2 }

  method WrapRow(u: Unicode, cells: seq<string>, widths: seq<nat>) returns (wrapped: seq<seq<string>>)
    requires UnicodeOk(u) && |cells| == |widths| > 0 && Roomy(widths) && DisplayWidth(u, cells[0]) <= widths[0]
    ensures AllFit(u, wrapped, widths) && Carries(u, wrapped, cells, widths)
  {
    wrapped := [[cells[0]]];
    assert [cells[0]][1..] == [] && Flatten([cells[0]]) == cells[0] + [] == cells[0];
    for k := 1 to |cells|
      invariant AllFit(u, wrapped, widths[..k]) && Carries(u, wrapped, cells[..k], widths[..k])
    {
      var cell := WrapCell(u, cells[k], widths[k]);
      CharsFitTwo(u, Squeeze(cells[k]), widths[k]);
      FitGrows(u, wrapped, widths, k, cell);
      CarriesGrows(u, wrapped, cells, widths, k, cell);
      wrapped := wrapped + [cell];
    }
    assert cells[..|cells|] == cells && widths[..|widths|] == widths;
  }

  lemma CharsFitTwo(u: Unicode, s: string, width: nat)
    requires width >= 2
    ensures CharsFit(u, s, width)
  {
  }

  lemma CarriesGrows(u: Unicode, wrapped: seq<seq<string>>, cells: seq<string>, widths: seq<nat>, k: nat,
                     cell: seq<string>)
    requires 1 <= k < |cells| == |widths| && Carries(u, wrapped, cells[..k], widths[..k])
    requires WrapsTo(u, cells[k], widths[k], cell) && Squeeze(Flatten(cell)) == Squeeze(cells[k])
    ensures Carries(u, wrapped + [cell], cells[..k + 1], widths[..k + 1])
  {
    var more, c, w := wrapped + [cell], cells[..k + 1], widths[..k + 1];
    assert more[k] == cell && c[k] == cells[k] && w[k] == widths[k];
    forall j | 0 <= j < k ensures more[j] == wrapped[j] && c[j] == cells[..k][j] && w[j] == widths[..k][j] {}
  }

  lemma FitGrows(u: Unicode, wrapped: seq<seq<string>>, widths: seq<nat>, k: nat, cell: seq<string>)
    requires k < |widths| && AllFit(u, wrapped, widths[..k]) && Fits(u, cell, widths[k])
    ensures AllFit(u, wrapped + [cell], widths[..k + 1])
  {
    var more, w := wrapped + [cell], widths[..k + 1];
    forall j | 0 <= j < k + 1 ensures Fits(u, more[j], w[j]) {
      if j < k { assert more[j] == wrapped[j] && w[j] == widths[..k][j]; }
    }
  }

  /** The height of a row: its tallest cell. */
  function Tallest(wrapped: seq<seq<string>>): (h: nat)
    ensures forall k :: 0 <= k < |wrapped| ==> |wrapped[k]| <= h
    ensures wrapped != [] ==> exists k :: 0 <= k < |wrapped| && |wrapped[k]| == h
  {
    if wrapped == [] then 0
    else
      var rest, last := Tallest(wrapped[..|wrapped| - 1]), |wrapped[|wrapped| - 1]|;
      if last >= rest then last else (assert |wrapped| > 1; rest)
  }

  method Height(wrapped: seq<seq<string>>) returns (h: nat)
    ensures h == Tallest(wrapped)
  {
    h := 0;
    for k := 0 to |wrapped|
      invariant h == Tallest(wrapped[..k])
    {
      assert wrapped[..k + 1][..k] == wrapped[..k];
      if |wrapped[k]| > h { h := |wrapped[k]|; }
    }
    assert wrapped[..|wrapped|] == wrapped;
  }

  /** The first n lines of a row. */
  function RowLines(u: Unicode, wrapped: seq<seq<string>>, widths: seq<nat>, n: nat): seq<string> {
    if n == 0 then [] else RowLines(u, wrapped, widths, n - 1) + [TableLine(u, wrapped, widths, n - 1)]
  }

  predicate Ample(c: Columns) { c.marker == 2 && c.session >= 2 && c.goal >= 2 && c.now >= 2 && c.needs >= 2 }

  predicate Uniform(u: Unicode, lines: seq<string>, n: nat) {
    forall line :: line in lines ==> DisplayWidth(u, line) == n
  }

  lemma UniformGrows(u: Unicode, lines: seq<string>, line: string, n: nat)
    requires Uniform(u, lines, n) && DisplayWidth(u, line) == n
    ensures Uniform(u, lines + [line], n)
  {
  }

  lemma {:induction false} RowUniform(u: Unicode, wrapped: seq<seq<string>>, widths: seq<nat>, n: nat)
    requires UnicodeOk(u) && widths != [] && AllFit(u, wrapped, widths)
    ensures Uniform(u, RowLines(u, wrapped, widths, n), Total(widths) + |widths| + 1)
  {
    if n > 0 {
      RowUniform(u, wrapped, widths, n - 1);
      TableLineWidth(u, wrapped, widths, n - 1);
      var line := TableLine(u, wrapped, widths, n - 1);
      UniformGrows(u, RowLines(u, wrapped, widths, n - 1), line, Total(widths) + |widths| + 1);
    }
  }

  /** One roster row: as many lines as its tallest cell. */
  method PhysicalLines(u: Unicode, row: Row, c: Columns) returns (out: seq<string>, wrapped: seq<seq<string>>)
    requires UnicodeOk(u) && MarkerFits(u, row) && Ample(c)
    ensures AllFit(u, wrapped, Widths(c)) && Carries(u, wrapped, Cells(row), Widths(c))
    ensures out == RowLines(u, wrapped, Widths(c), Tallest(wrapped))
  {
    wrapped := WrapRow(u, Cells(row), Widths(c));
    var height := Height(wrapped);
    out := [];
    for r := 0 to height
      invariant out == RowLines(u, wrapped, Widths(c), r)
    {
      out := out + [TableLine(u, wrapped, Widths(c), r)];
    }
  }

  lemma TotalCons(n: nat, rest: seq<nat>)
    ensures Total([n] + rest) == n + 2 + Total(rest)
  {
    assert ([n] + rest)[1..] == rest;
  }

  lemma TotalOfColumns(c: Columns)
    ensures Total(Widths(c)) == c.marker + c.session + c.goal + c.now + c.needs + 10
  {
    TotalCons(c.needs, []);
    TotalCons(c.now, [c.needs]);
    TotalCons(c.goal, [c.now, c.needs]);
    TotalCons(c.session, [c.goal, c.now, c.needs]);
    TotalCons(c.marker, [c.session, c.goal, c.now, c.needs]);
    assert [c.needs] + [] == [c.needs] && [c.now] + [c.needs] == [c.now, c.needs] &&
           [c.goal] + [c.now, c.needs] == [c.goal, c.now, c.needs];
    assert [c.session] + [c.goal, c.now, c.needs] == [c.session, c.goal, c.now, c.needs];
    assert [c.marker] + [c.session, c.goal, c.now, c.needs] == Widths(c);
  }

  /** The rows between the header and the bottom border, with a rule between lanes. */
  function BodyLines(u: Unicode, tables: seq<seq<seq<string>>>, widths: seq<nat>, middle: string): seq<string> {
    if tables == [] then []
    else
      var last := tables[|tables| - 1];
      BodyLines(u, tables[..|tables| - 1], widths, middle) + (if |tables| > 1 then [middle] else []) +
        RowLines(u, last, widths, Tallest(last))
  }

  /** The wrapped rows fit and carry their cells. */
  ghost predicate Faithful(u: Unicode, tables: seq<seq<seq<string>>>, rows: seq<Row>, widths: seq<nat>) {
    |tables| == |rows| && forall k :: 0 <= k < |rows| ==>
        AllFit(u, tables[k], widths) && Carries(u, tables[k], Cells(rows[k]), widths)
  }

  lemma {:induction false} BodyUniform(u: Unicode, tables: seq<seq<seq<string>>>, widths: seq<nat>, middle: string)
    requires UnicodeOk(u) && widths != [] && DisplayWidth(u, middle) == Total(widths) + |widths| + 1
    requires forall k :: 0 <= k < |tables| ==> AllFit(u, tables[k], widths)
    ensures Uniform(u, BodyLines(u, tables, widths, middle), Total(widths) + |widths| + 1)
  {
    if tables != [] {
      var last := tables[|tables| - 1];
      BodyUniform(u, tables[..|tables| - 1], widths, middle);
      RowUniform(u, last, widths, Tallest(last));
    }
  }

  lemma BodyGrows(u: Unicode, tables: seq<seq<seq<string>>>, wrapped: seq<seq<string>>, widths: seq<nat>,
                  middle: string)
    ensures BodyLines(u, tables + [wrapped], widths, middle)
         == BodyLines(u, tables, widths, middle) + (if tables != [] then [middle] else []) +
           RowLines(u, wrapped, widths, Tallest(wrapped))
  {
    assert (tables + [wrapped])[..|tables|] == tables;
  }

  lemma FaithfulGrows(u: Unicode, tables: seq<seq<seq<string>>>, rows: seq<Row>, k: nat, wrapped: seq<seq<string>>,
                      widths: seq<nat>)
    requires k < |rows| && Faithful(u, tables, rows[..k], widths) && AllFit(u, wrapped, widths)
    requires Carries(u, wrapped, Cells(rows[k]), widths)
    ensures Faithful(u, tables + [wrapped], rows[..k + 1], widths)
  {
    var more := tables + [wrapped];
    forall j | 0 <= j < k + 1 ensures AllFit(u, more[j], widths) &&
      Carries(u, more[j], Cells(rows[..k + 1][j]), widths) {
      if j < k { assert more[j] == tables[j] && rows[..k + 1][j] == rows[..k][j]; }
      else { assert more[j] == wrapped && rows[..k + 1][j] == rows[k]; }
    }
  }

  method RenderBody(u: Unicode, rows: seq<Row>, c: Columns, middle: string)
    returns (lines: seq<string>, tables: seq<seq<seq<string>>>)
    requires UnicodeOk(u) && Ample(c) && forall r :: r in rows ==> MarkerFits(u, r)
    ensures Faithful(u, tables, rows, Widths(c))
    ensures lines == BodyLines(u, tables, Widths(c), middle)
  {
    lines, tables := [], [];
    for k := 0 to |rows|
      invariant Faithful(u, tables, rows[..k], Widths(c))
      invariant lines == BodyLines(u, tables, Widths(c), middle)
    {
      if k > 0 { lines := lines + [middle]; }
      var out, wrapped := PhysicalLines(u, rows[k], c);
      BodyGrows(u, tables, wrapped, Widths(c), middle);
      FaithfulGrows(u, tables, rows, k, wrapped, Widths(c));
      lines := lines + out;
      tables := tables + [wrapped];
    }
    assert rows[..|rows|] == rows;
  }

  /** Runs of dashes, each two longer than its column, between the corner and joint glyphs. */
  ghost predicate IsEdge(line: string, left: char, joint: char, right: char, widths: seq<nat>) {
    exists dashes: seq<string> ::
      && |dashes| == |widths| && line == [left] + Join(dashes, [joint]) + [right]
      && forall k :: 0 <= k < |widths| ==> |dashes[k]| == widths[k] + 2 && forall c :: c in dashes[k] ==> c == Dash
  }

  method Borders(u: Unicode, widths: seq<nat>) returns (top: string, middle: string, bottom: string)
    requires UnicodeOk(u) && widths != []
    ensures Uniform(u, [top, middle, bottom], Total(widths) + |widths| + 1)
    ensures IsEdge(top, '\U{250c}', '\U{252c}', '\U{2510}', widths)
    ensures IsEdge(middle, '\U{251c}', '\U{253c}', '\U{2524}', widths)
    ensures IsEdge(bottom, '\U{2514}', '\U{2534}', '\U{2518}', widths)
  {
    var dashes := Rule(widths);
    top := Border('\U{250c}', '\U{252c}', '\U{2510}', widths);
    middle := Border('\U{251c}', '\U{253c}', '\U{2524}', widths);
    bottom := Border('\U{2514}', '\U{2534}', '\U{2518}', widths);
    BorderWidth(u, '\U{250c}', '\U{252c}', '\U{2510}', widths);
    BorderWidth(u, '\U{251c}', '\U{253c}', '\U{2524}', widths);
    BorderWidth(u, '\U{2514}', '\U{2534}', '\U{2518}', widths);
  }

  ghost predicate AreEdges(edges: Edges, widths: seq<nat>) {
    && IsEdge(edges.top, '\U{250c}', '\U{252c}', '\U{2510}', widths)
    && IsEdge(edges.middle, '\U{251c}', '\U{253c}', '\U{2524}', widths)
    && IsEdge(edges.bottom, '\U{2514}', '\U{2534}', '\U{2518}', widths)
  }

  datatype Edges = Edges(top: string, middle: string, bottom: string)

  function TableLines(u: Unicode, edges: Edges, head: seq<seq<string>>, tables: seq<seq<seq<string>>>,
                      widths: seq<nat>): seq<string> {
    [edges.top] + RowLines(u, head, widths, Tallest(head)) + [edges.middle] +
      BodyLines(u, tables, widths, edges.middle) + [edges.bottom]
  }

  lemma TableUniform(u: Unicode, edges: Edges, head: seq<seq<string>>, tables: seq<seq<seq<string>>>, widths: seq<nat>)
    requires UnicodeOk(u) && widths != [] && AllFit(u, head, widths)
    requires forall k :: 0 <= k < |tables| ==> AllFit(u, tables[k], widths)
    requires Uniform(u, [edges.top, edges.middle, edges.bottom], Total(widths) + |widths| + 1)
    ensures Uniform(u, TableLines(u, edges, head, tables, widths), Total(widths) + |widths| + 1)
  {
    var all := [edges.top, edges.middle, edges.bottom];
    assert edges.top in all && edges.middle in all && edges.bottom in all;
    var n, rows := Total(widths) + |widths| + 1, RowLines(u, head, widths, Tallest(head));
    var body := BodyLines(u, tables, widths, edges.middle);
    RowUniform(u, head, widths, Tallest(head));
    BodyUniform(u, tables, widths, edges.middle);
    UniformAppend(u, [edges.top], rows, n);
    UniformAppend(u, [edges.top] + rows, [edges.middle], n);
    UniformAppend(u, [edges.top] + rows + [edges.middle], body, n);
    UniformAppend(u, [edges.top] + rows + [edges.middle] + body, [edges.bottom], n);
  }

  /** A piece of text, one space before it and nothing but spaces behind it, as wide as its column and two more. */
  predicate ShowsPiece(u: Unicode, segment: string, piece: string, width: nat) {
    && |segment| >= |piece| + 2 && segment[0] == ' ' && segment[1..1 + |piece|] == piece
    && (forall j :: 1 + |piece| <= j < |segment| ==> segment[j] == ' ') && DisplayWidth(u, segment) == width + 2
  }

  /** A line of the table: the r-th line of every cell of a row, or nothing below its last, between bars. */
  ghost predicate ShowsLine(u: Unicode, line: string, wrapped: seq<seq<string>>, widths: seq<nat>, r: nat)
    requires |wrapped| == |widths|
  {
    exists segments: seq<string> ::
      && |segments| == |widths| && line == [Bar] + Join(segments, [Bar]) + [Bar]
      && forall k :: 0 <= k < |widths| ==>
           ShowsPiece(u, segments[k], if r < |wrapped[k]| then wrapped[k][r] else "", widths[k])
  }

  /** The lines of one row: as many as its tallest cell has. */
  ghost predicate ShowsRow(u: Unicode, lines: seq<string>, wrapped: seq<seq<string>>, widths: seq<nat>) {
    && |wrapped| == |widths| && |lines| == Tallest(wrapped)
    && forall r :: 0 <= r < |lines| ==> ShowsLine(u, lines[r], wrapped, widths, r)
  }

  /** The blocks one after another with a rule between every two. */
  function Ruled(blocks: seq<seq<string>>, rule: string): seq<string> {
    if blocks == [] then []
    else if |blocks| == 1 then blocks[0]
    else Ruled(blocks[..|blocks| - 1], rule) + [rule] + blocks[|blocks| - 1]
  }

  ghost predicate ShowsRows(u: Unicode, blocks: seq<seq<string>>, tables: seq<seq<seq<string>>>, widths: seq<nat>) {
    |blocks| == |tables| && forall k :: 0 <= k < |tables| ==> ShowsRow(u, blocks[k], tables[k], widths)
  }

  /** The box: top edge, header, rule, the lanes with a rule between every two, bottom edge. */
  ghost predicate IsTable(u: Unicode, lines: seq<string>, edges: Edges, head: seq<seq<string>>,
                          tables: seq<seq<seq<string>>>, widths: seq<nat>)
  {
    exists header, blocks ::
      && ShowsRow(u, header, head, widths) && ShowsRows(u, blocks, tables, widths)
      && lines == [edges.top] + header + [edges.middle] + Ruled(blocks, edges.middle) + [edges.bottom]
  }

  lemma LineShows(u: Unicode, wrapped: seq<seq<string>>, widths: seq<nat>, r: nat)
    requires UnicodeOk(u) && AllFit(u, wrapped, widths)
    ensures ShowsLine(u, TableLine(u, wrapped, widths, r), wrapped, widths, r)
  {
    var segments := seq(|widths|, k requires 0 <= k < |widths| => Segment(u, CellOf(wrapped, k), r, widths[k]));
    forall k | 0 <= k < |widths| ensures ShowsPiece(u, segments[k], if r < |wrapped[k]| then wrapped[k][r] else "",
                                                    widths[k]) {
      SegmentWidth(u, wrapped[k], r, widths[k]);
    }
  }

  lemma {:induction false} RowLineAt(u: Unicode, wrapped: seq<seq<string>>, widths: seq<nat>, n: nat)
    ensures var rows := RowLines(u, wrapped, widths, n);
            |rows| == n && forall r :: 0 <= r < n ==> rows[r] == TableLine(u, wrapped, widths, r)
  {
    if n > 0 { RowLineAt(u, wrapped, widths, n - 1); }
  }

  lemma RowShows(u: Unicode, wrapped: seq<seq<string>>, widths: seq<nat>)
    requires UnicodeOk(u) && AllFit(u, wrapped, widths)
    ensures ShowsRow(u, RowLines(u, wrapped, widths, Tallest(wrapped)), wrapped, widths)
  {
    RowLineAt(u, wrapped, widths, Tallest(wrapped));
    var lines := RowLines(u, wrapped, widths, Tallest(wrapped));
    forall r | 0 <= r < |lines| ensures ShowsLine(u, lines[r], wrapped, widths, r) { LineShows(u, wrapped, widths, r); }
  }

  lemma {:induction false} BodyShows(u: Unicode, tables: seq<seq<seq<string>>>, widths: seq<nat>, middle: string)
    returns (blocks: seq<seq<string>>)
    requires UnicodeOk(u) && forall k :: 0 <= k < |tables| ==> AllFit(u, tables[k], widths)
    ensures ShowsRows(u, blocks, tables, widths) && BodyLines(u, tables, widths, middle) == Ruled(blocks, middle)
  {
    blocks := [];
    if tables != [] {
      var front, last := tables[..|tables| - 1], tables[|tables| - 1];
      var before := BodyShows(u, front, widths, middle);
      RowShows(u, last, widths);
      var rows := RowLines(u, last, widths, Tallest(last));
      blocks := before + [rows];
      RuledGrows(before, rows, middle);
      ShownGrows(u, before, front, rows, last, widths);
      assert tables == front + [last];
      BodyGrows(u, front, last, widths, middle);
    }
  }

  lemma ShownGrows(u: Unicode, blocks: seq<seq<string>>, tables: seq<seq<seq<string>>>, rows: seq<string>,
                   wrapped: seq<seq<string>>, widths: seq<nat>)
    requires ShowsRows(u, blocks, tables, widths) && ShowsRow(u, rows, wrapped, widths)
    ensures ShowsRows(u, blocks + [rows], tables + [wrapped], widths)
  {
    var b, t := blocks + [rows], tables + [wrapped];
    forall k | 0 <= k < |t| ensures ShowsRow(u, b[k], t[k], widths) {
      if k < |tables| { assert b[k] == blocks[k] && t[k] == tables[k]; }
    }
  }

  lemma RuledGrows(before: seq<seq<string>>, rows: seq<string>, middle: string)
    ensures Ruled(before + [rows], middle) == Ruled(before, middle) + (if before != [] then [middle] else []) + rows
  {
    assert (before + [rows])[..|before|] == before;
  }

  lemma TableIs(u: Unicode, edges: Edges, head: seq<seq<string>>, tables: seq<seq<seq<string>>>, widths: seq<nat>)
    requires UnicodeOk(u) && AllFit(u, head, widths)
    requires forall k :: 0 <= k < |tables| ==> AllFit(u, tables[k], widths)
    ensures IsTable(u, TableLines(u, edges, head, tables, widths), edges, head, tables, widths)
  {
    RowShows(u, head, widths);
    var blocks := BodyShows(u, tables, widths, edges.middle);
  }

  lemma UniformAppend(u: Unicode, a: seq<string>, b: seq<string>, n: nat)
    requires Uniform(u, a, n) && Uniform(u, b, n)
    ensures Uniform(u, a + b, n)
  {
  }

  lemma TableSound(u: Unicode, edges: Edges, head: seq<seq<string>>, tables: seq<seq<seq<string>>>, rows: seq<Row>,
                   widths: seq<nat>, lines: seq<string>)
    requires UnicodeOk(u) && widths != [] && AllFit(u, head, widths) && Faithful(u, tables, rows, widths)
    requires Uniform(u, [edges.top, edges.middle, edges.bottom], Total(widths) + |widths| + 1)
    requires lines == TableLines(u, edges, head, tables, widths)
    ensures Uniform(u, lines, Total(widths) + |widths| + 1) && IsTable(u, lines, edges, head, tables, widths)
  {
    TableUniform(u, edges, head, tables, widths);
    TableIs(u, edges, head, tables, widths);
  }

  /** The whole table. Every line is as wide as the terminal, or as the narrowest frame when that is wider; and the
      table is built from cells that fit their columns and carry every non-space character of the roster in order. */
  method RenderBox(u: Unicode, rows: seq<Row>, columns: Option<int>)
    returns (lines: seq<string>, session: nat, edges: Edges, head: seq<seq<string>>, tables: seq<seq<seq<string>>>)
    requires UnicodeOk(u) && forall r :: r in rows ==> MarkerFits(u, r)
    ensures 7 <= session <= SessionMax
    ensures Uniform(u, lines, AtLeast(TerminalWidth(columns), 68 + session))
    ensures var widths := Widths(ColumnWidths(TerminalWidth(columns), session));
            && AllFit(u, head, widths) && Carries(u, head, Cells(Headers), widths) && Faithful(u, tables, rows, widths)
            && IsTable(u, lines, edges, head, tables, widths)
    ensures AreEdges(edges, Widths(ColumnWidths(TerminalWidth(columns), session)))
    ensures IsSessionWidth(u, rows, session)
  {
    session := SessionWidth(u, rows);
    var c := ColumnWidths(TerminalWidth(columns), session);
    TotalOfColumns(c);
    var top, middle, bottom := Borders(u, Widths(c));
    edges := Edges(top, middle, bottom);
    var out, body;
    out, head := PhysicalLines(u, Headers, c);
    body, tables := RenderBody(u, rows, c, middle);
    lines := [top] + out + [middle] + body + [bottom];
    TableSound(u, edges, head, tables, rows, Widths(c), lines);
  }

  // ---------------------------------------------------------------- the roster of lanes

  /** What the roster shows of one lane; `goal` already carries its version and its done condition. */
  datatype Lane = Lane(session: string, goal: string, now: string, needs: string, asks: seq<string>,
                       status: Goals.Status)

  /** Red for a named unblock, yellow for idle by design, green for work. */
  function ComputeMarker(l: Lane): (c: char)
    ensures Marker(c)
    ensures c == '\U{1f534}' <==> l.asks != [] || l.status.Blocked? || l.status.CompletionDisputed?
    ensures c == '\U{1f7e2}' <==> l.asks == [] && (l.status.Working? || l.status.DonePendingClose?)
  {
    if l.asks != [] || l.status.Blocked? || l.status.CompletionDisputed? then '\U{1f534}'
    else if l.status.Working? || l.status.DonePendingClose? then '\U{1f7e2}'
    else '\U{1f7e1}'
  }

  /** A red lane shows its named unblock, any other a dash. */
  function RosterNeeds(l: Lane): (s: string)
    ensures !(l.asks != [] || l.status.Blocked? || l.status.CompletionDisputed?) <==> ComputeMarker(l) != '\U{1f534}'
    ensures ComputeMarker(l) != '\U{1f534}' ==> s == "\U{2014}"
    ensures ComputeMarker(l) == '\U{1f534}' && l.needs != "" ==> s == l.needs
    ensures ComputeMarker(l) == '\U{1f534}' && l.needs == "" && l.asks == [] ==> s == "(name the block)"
    ensures l.needs == "" && |l.asks| > 1 ==> s == Join(l.asks, "; ")
    ensures l.needs == "" && |l.asks| == 1 && l.asks[0] != "" ==> s == l.asks[0]
  {
    if ComputeMarker(l) != '\U{1f534}' then "\U{2014}"
    else if l.needs != "" then l.needs
    else if Join(l.asks, "; ") != "" then Join(l.asks, "; ")
    else "(name the block)"
  }

  function RosterRow(l: Lane): Row { Row([ComputeMarker(l)], l.session, l.goal, l.now, RosterNeeds(l)) }

  function RosterRows(lanes: seq<Lane>): (rows: seq<Row>)
    ensures |rows| == |lanes| && forall k :: 0 <= k < |lanes| ==> rows[k] == RosterRow(lanes[k])
  {
    seq(|lanes|, k requires 0 <= k < |lanes| => RosterRow(lanes[k]))
  }

  /** Every marker glyph fills its slot exactly. */
  lemma MarkersFit(u: Unicode, c: char)
    requires UnicodeOk(u) && Marker(c)
    ensures DisplayWidth(u, [c]) == MarkerWidth
  {
    assert [c][..0] == [];
  }

  /** The box roster of any lanes, whatever their texts. */
  method RenderRoster(u: Unicode, lanes: seq<Lane>, columns: Option<int>)
    returns (lines: seq<string>, session: nat, edges: Edges, head: seq<seq<string>>, tables: seq<seq<seq<string>>>)
    requires UnicodeOk(u)
    ensures 7 <= session <= SessionMax
    ensures Uniform(u, lines, AtLeast(TerminalWidth(columns), 68 + session))
    ensures var widths := Widths(ColumnWidths(TerminalWidth(columns), session));
            && |head| == |widths| && Faithful(u, tables, RosterRows(lanes), widths)
            && IsTable(u, lines, edges, head, tables, widths)
    ensures AreEdges(edges, Widths(ColumnWidths(TerminalWidth(columns), session)))
    ensures IsSessionWidth(u, RosterRows(lanes), session)
  {
    var rows := RosterRows(lanes);
    forall r | r in rows ensures MarkerFits(u, r) {
      var k :| 0 <= k < |rows| && rows[k] == r;
      MarkersFit(u, ComputeMarker(lanes[k]));
    }
    lines, session, edges, head, tables := RenderBox(u, rows, columns);
  }

  /** No wrapping whatever keeps a character wider than its column within it. */
  lemma NarrowColumnOverflows(u: Unicode, lines: seq<string>, text: string, width: nat, c: char)
    requires Squeeze(Flatten(lines)) == Squeeze(text) && c in Squeeze(text) && CharWidth(u, c) > width
    ensures !Fits(u, lines, width)
  {
    if Fits(u, lines, width) { FittingNeedsChars(u, lines, Squeeze(text), width); }
  }
}
