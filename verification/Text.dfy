/** The Python string operations the goal store relies on. */
module Text {

  /** `str.isspace` on one character. */
  predicate IsSpace(c: char) {
    '\t' <= c <= '\r' || '\U{1c}' <= c <= ' ' || c == '\U{85}' || c == '\U{a0}' || c == '\U{1680}'
    || '\U{2000}' <= c <= '\U{200a}' || c == '\U{2028}' || c == '\U{2029}' || c == '\U{202f}' || c == '\U{205f}'
    || c == '\U{3000}'
  }

  function TrimLeft(s: string): string {
    if s != [] && IsSpace(s[0]) then TrimLeft(s[1..]) else s
  }

  function TrimRight(s: string): string {
    if s != [] && IsSpace(s[|s| - 1]) then TrimRight(s[..|s| - 1]) else s
  }

  /** `str.strip()`. */
  function Strip(s: string): string {
    TrimRight(TrimLeft(s))
  }

  predicate Blank(s: string) { Strip(s) == "" }

  /** `len(s.split())`: the number of maximal runs of non-space characters. */
  function WordCount(s: string): nat {
    if s == [] then 0
    else WordCount(s[1..]) + if !IsSpace(s[0]) && (|s| == 1 || IsSpace(s[1])) then 1 else 0
  }

  /** `s.split(sep)` for a one-character separator. */
  function Split(s: string, sep: char): (r: seq<string>)
    ensures r != []
  {
    if s == [] then [""]
    else
      var rest := Split(s[1..], sep);
      if s[0] == sep then [""] + rest else [[s[0]] + rest[0]] + rest[1..]
  }

  lemma {:induction false} SplitCons(head: string, rest: string, sep: char)
    requires sep !in head
    ensures Split(head + [sep] + rest, sep) == [head] + Split(rest, sep)
  {
    var all := head + [sep] + rest;
    if head == [] { assert all[1..] == rest; }
    else {
      assert all[1..] == head[1..] + [sep] + rest;
      SplitCons(head[1..], rest, sep);
      assert [head[0]] + head[1..] == head;
    }
  }

  lemma {:induction false} SplitNone(s: string, sep: char)
    requires sep !in s
    ensures Split(s, sep) == [s]
  {
    if s != [] {
      SplitNone(s[1..], sep);
      assert [s[0]] + s[1..] == s;
    }
  }

  /** `sep.join(parts)`. */
  function Join(parts: seq<string>, sep: string): string {
    if parts == [] then "" else if |parts| == 1 then parts[0] else parts[0] + sep + Join(parts[1..], sep)
  }

  predicate StartsWith(s: string, prefix: string) {
    |prefix| <= |s| && s[..|prefix|] == prefix
  }

  /** `s.split()`: the maximal runs of non-space characters. */
  function Words(s: string): (r: seq<string>)
    ensures s != [] && !IsSpace(s[0]) ==> r != []
  {
    if s == [] then []
    else if IsSpace(s[0]) then Words(s[1..])
    else
      var rest := Words(s[1..]);
      if |s| > 1 && !IsSpace(s[1]) then [[s[0]] + rest[0]] + rest[1..] else [[s[0]]] + rest
  }

  /** The non-space characters, in order. */
  function Squeeze(s: string): string {
    if s == [] then [] else (if IsSpace(s[0]) then [] else [s[0]]) + Squeeze(s[1..])
  }

  function Flatten(parts: seq<string>): string {
    if parts == [] then [] else parts[0] + Flatten(parts[1..])
  }

  predicate IsWord(w: string) { w != [] && forall c :: c in w ==> !IsSpace(c) }

  lemma {:induction false} WordsAreWords(s: string)
    ensures forall w :: w in Words(s) ==> IsWord(w)
    ensures |Words(s)| == WordCount(s)
  {
    if s != [] {
      WordsAreWords(s[1..]);
      var rest := Words(s[1..]);
      if !IsSpace(s[0]) && |s| > 1 && !IsSpace(s[1]) {
        assert rest[0] in rest;
        assert IsWord([s[0]] + rest[0]);
      } else if !IsSpace(s[0]) {
        assert IsWord([s[0]]);
      }
    }
  }

  /** Splitting loses nothing but the whitespace. */
  lemma {:induction false} WordsKeepText(s: string)
    ensures Flatten(Words(s)) == Squeeze(s)
  {
    if s != [] {
      WordsKeepText(s[1..]);
      var rest := Words(s[1..]);
      if !IsSpace(s[0]) && |s| > 1 && !IsSpace(s[1]) {
        assert Words(s)[1..] == rest[1..];
        assert ([s[0]] + rest[0]) + Flatten(rest[1..]) == [s[0]] + (rest[0] + Flatten(rest[1..]));
      } else if !IsSpace(s[0]) {
        assert Words(s)[1..] == rest;
      }
    }
  }

  lemma SqueezeAppend(a: string, b: string)
    ensures Squeeze(a + b) == Squeeze(a) + Squeeze(b)
  {
    if a == [] { assert a + b == b; } else { assert (a + b)[1..] == a[1..] + b; }
  }

  lemma SqueezeWord(w: string)
    requires forall c :: c in w ==> !IsSpace(c)
    ensures Squeeze(w) == w
  {
    if w != [] { SqueezeWord(w[1..]); assert w == [w[0]] + w[1..]; }
  }

  lemma FlattenAppend(a: seq<string>, b: seq<string>)
    ensures Flatten(a + b) == Flatten(a) + Flatten(b)
  {
    if a == [] { assert a + b == b; } else { assert (a + b)[1..] == a[1..] + b; }
  }

  lemma {:induction false} JoinNonEmpty(parts: seq<string>, sep: string)
    requires exists p :: p in parts && p != ""
    ensures Join(parts, sep) != ""
  {
    if |parts| > 1 && parts[0] == "" {
      assert parts == [parts[0]] + parts[1..];
      JoinNonEmpty(parts[1..], sep);
    }
  }

  predicate AllSpace(s: string) { forall c :: c in s ==> IsSpace(c) }

  lemma {:induction false} TrimLeftIs(s: string) returns (cut: nat)
    ensures cut <= |s| && TrimLeft(s) == s[cut..] && AllSpace(s[..cut])
  {
    if s != [] && IsSpace(s[0]) {
      var rest := TrimLeftIs(s[1..]);
      cut := rest + 1;
      assert s[..cut] == [s[0]] + s[1..][..rest];
    } else {
      cut := 0;
    }
  }

  lemma {:induction false} TrimRightIs(s: string) returns (cut: nat)
    ensures cut <= |s| && TrimRight(s) == s[..cut] && AllSpace(s[cut..])
  {
    if s != [] && IsSpace(s[|s| - 1]) {
      cut := TrimRightIs(s[..|s| - 1]);
      assert s[cut..] == s[..|s| - 1][cut..] + [s[|s| - 1]];
    } else {
      cut := |s|;
    }
  }

  /** `strip` removes whitespace from the two ends and nothing else. */
  lemma StripIs(s: string) returns (before: string, after: string)
    ensures s == before + Strip(s) + after && AllSpace(before) && AllSpace(after)
  {
    var left := TrimLeftIs(s);
    var right := TrimRightIs(s[left..]);
    before, after := s[..left], s[left..][right..];
  }

  lemma {:induction false} SqueezeNone(s: string)
    ensures Squeeze(s) == "" <==> AllSpace(s)
  {
    if s != [] {
      SqueezeNone(s[1..]);
      assert s == [s[0]] + s[1..];
    }
  }

  lemma {:induction false} SpacesTrim(s: string)
    requires AllSpace(s)
    ensures TrimLeft(s) == ""
  {
    if s != [] {
      assert s[0] in s && forall c :: c in s[1..] ==> c in s;
      SpacesTrim(s[1..]);
    }
  }

  lemma BlankIsAllSpace(s: string)
    ensures Blank(s) <==> AllSpace(s)
  {
    if AllSpace(s) { SpacesTrim(s); } else { var before, after := StripIs(s); }
  }
}
