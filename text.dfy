/** String operations of Python that the gateway uses: `str.split()` with no
    argument (runs of whitespace), `sep.join(parts)`, and `sub in s`. */
module Text {

  /** The characters Python's `str.split()` treats as whitespace. */
  predicate IsSpace(c: char) {
    c == ' ' || ('\t' <= c <= '\r') || ('\U{1C}' <= c <= '\U{1F}')
    || c == '\U{85}' || c == '\U{A0}' || c == '\U{1680}'
    || ('\U{2000}' <= c <= '\U{200A}') || c == '\U{2028}' || c == '\U{2029}'
    || c == '\U{202F}' || c == '\U{205F}' || c == '\U{3000}'
  }

  /** A word as `str.split()` yields it: non-empty and free of whitespace. */
  predicate IsWord(w: string) {
    w != [] && forall i :: 0 <= i < |w| ==> !IsSpace(w[i])
  }

  /** `s.split()`: the maximal whitespace-free runs of `s`, left to right. */
  function Words(s: string): seq<string> {
    Scan(s, [])
  }

  /** The scan behind `Words`: `cur` is the word read so far, ended by the
      next whitespace character or by the end of the input. */
  function Scan(s: string, cur: string): seq<string>
    decreases |s|
  {
    if s == [] then (if cur == [] then [] else [cur])
    else if IsSpace(s[0]) then (if cur == [] then [] else [cur]) + Scan(s[1..], [])
    else Scan(s[1..], cur + [s[0]])
  }

  /** The characters of `s` that are not whitespace, in order. */
  function NonSpace(s: string): string {
    if s == [] then []
    else (if IsSpace(s[0]) then [] else [s[0]]) + NonSpace(s[1..])
  }

  /** The concatenation of a sequence of strings. */
  function Concat(ws: seq<string>): string {
    if ws == [] then [] else ws[0] + Concat(ws[1..])
  }

  /** `sep.join(parts)` for a one-character separator. */
  function JoinWith(parts: seq<string>, sep: char): string {
    if |parts| == 0 then []
    else if |parts| == 1 then parts[0]
    else parts[0] + [sep] + JoinWith(parts[1..], sep)
  }

  /** `s.split(sep)` for a one-character separator: the pieces between
      separators, empty ones included, so there is always at least one. */
  function SplitOn(s: string, sep: char): (parts: seq<string>)
    ensures |parts| >= 1
  {
    if s == [] then [[]]
    else
      var rest := SplitOn(s[1..], sep);
      if s[0] == sep then [[]] + rest else [[s[0]] + rest[0]] + rest[1..]
  }

  /** `sub in s` for strings: `sub` occurs in `s` at some position. */
  predicate Contains(s: string, sub: string)
    decreases |s|
  {
    (|sub| <= |s| && s[..|sub|] == sub) || (s != [] && Contains(s[1..], sub))
  }

  lemma {:induction false} ScanYieldsWords(s: string, cur: string)
    requires forall i :: 0 <= i < |cur| ==> !IsSpace(cur[i])
    ensures forall k :: 0 <= k < |Scan(s, cur)| ==> IsWord(Scan(s, cur)[k])
    decreases |s|
  {
    if s != [] {
      if IsSpace(s[0]) {
        ScanYieldsWords(s[1..], []);
      } else {
        ScanYieldsWords(s[1..], cur + [s[0]]);
      }
    }
  }

  /** Every piece `str.split()` returns is a word: non-empty, no whitespace. */
  lemma WordsAreWords(s: string)
    ensures forall k :: 0 <= k < |Words(s)| ==> IsWord(Words(s)[k])
  {
    ScanYieldsWords(s, []);
  }

  lemma {:induction false} ConcatAppend(a: seq<string>, b: seq<string>)
    ensures Concat(a + b) == Concat(a) + Concat(b)
  {
    if a == [] {
      assert a + b == b;
    } else {
      assert (a + b)[1..] == a[1..] + b;
      ConcatAppend(a[1..], b);
    }
  }

  lemma {:induction false} ScanKeepsAllText(s: string, cur: string)
    ensures Concat(Scan(s, cur)) == cur + NonSpace(s)
    decreases |s|
  {
    if s == [] {
      assert Concat([cur]) == cur + Concat([]);
    } else if IsSpace(s[0]) {
      var head := if cur == [] then [] else [cur];
      ConcatAppend(head, Scan(s[1..], []));
      ScanKeepsAllText(s[1..], []);
      assert Concat([cur]) == cur + Concat([]);
    } else {
      ScanKeepsAllText(s[1..], cur + [s[0]]);
    }
  }

  /** Splitting loses only whitespace: the words, glued together, are exactly
      the non-whitespace characters of the input, in order. */
  lemma WordsKeepAllText(s: string)
    ensures Concat(Words(s)) == NonSpace(s)
  {
    ScanKeepsAllText(s, []);
  }

  lemma {:induction false} ScanOverWord(w: string, rest: string, cur: string)
    requires forall i :: 0 <= i < |w| ==> !IsSpace(w[i])
    ensures Scan(w + rest, cur) == Scan(rest, cur + w)
    decreases |w|
  {
    if w == [] {
      assert w + rest == rest;
      assert cur + w == cur;
    } else {
      assert (w + rest)[0] == w[0];
      assert (w + rest)[1..] == w[1..] + rest;
      ScanOverWord(w[1..], rest, cur + [w[0]]);
      assert cur + [w[0]] + w[1..] == cur + w;
    }
  }

  /** Joining words with single spaces and splitting again gives the words back. */
  lemma {:induction false} WordsOfJoin(ws: seq<string>)
    requires forall k :: 0 <= k < |ws| ==> IsWord(ws[k])
    ensures Words(JoinWith(ws, ' ')) == ws
    decreases |ws|
  {
    if |ws| == 1 {
      ScanOverWord(ws[0], [], []);
      assert ws[0] + [] == ws[0];
      assert [] + ws[0] == ws[0];
    } else if |ws| > 1 {
      var w := ws[0];
      var tail := JoinWith(ws[1..], ' ');
      assert JoinWith(ws, ' ') == w + ([' '] + tail);
      ScanOverWord(w, [' '] + tail, []);
      assert [] + w == w;
      assert ([' '] + tail)[1..] == tail;
      WordsOfJoin(ws[1..]);
    }
  }

  lemma {:induction false} SplitOnWithout(a: string, sep: char)
    requires sep !in a
    ensures SplitOn(a, sep) == [a]
  {
    if a != [] {
      SplitOnWithout(a[1..], sep);
      assert [a[0]] + a[1..] == a;
    }
  }

  lemma {:induction false} SplitOnAfter(a: string, sep: char, b: string)
    requires sep !in a
    ensures SplitOn(a + [sep] + b, sep) == [a] + SplitOn(b, sep)
  {
    if a == [] {
      assert a + [sep] + b == [sep] + b;
      assert ([sep] + b)[1..] == b;
    } else {
      var s := a + [sep] + b;
      assert s[1..] == a[1..] + [sep] + b;
      SplitOnAfter(a[1..], sep, b);
      assert [a[0]] + a[1..] == a;
    }
  }

  /** `sep.join` and `split(sep)` are inverse as long as no part holds `sep`. */
  lemma {:induction false} SplitOnJoin(parts: seq<string>, sep: char)
    requires |parts| >= 1
    requires forall k :: 0 <= k < |parts| ==> sep !in parts[k]
    ensures SplitOn(JoinWith(parts, sep), sep) == parts
  {
    if |parts| == 1 {
      SplitOnWithout(parts[0], sep);
    } else {
      SplitOnAfter(parts[0], sep, JoinWith(parts[1..], sep));
      SplitOnJoin(parts[1..], sep);
    }
  }

  /** A word of `s` starts at `i`: a non-space character at the start of `s`
      or right after a space. */
  predicate IsWordStart(s: string, i: nat)
    requires i < |s|
  {
    !IsSpace(s[i]) && (i == 0 || IsSpace(s[i - 1]))
  }

  /** The number of word starts at positions `k` and later. */
  function StartsFrom(s: string, k: nat): nat
    requires k <= |s|
    decreases |s| - k
  {
    if k == |s| then 0 else (if IsWordStart(s, k) then 1 else 0) + StartsFrom(s, k + 1)
  }

  lemma {:induction false} ScanCount(s: string, k: nat, cur: string)
    requires k <= |s|
    requires (cur == []) == (k == 0 || IsSpace(s[k - 1]))
    ensures |Scan(s[k..], cur)| == (if cur == [] then 0 else 1) + StartsFrom(s, k)
    decreases |s| - k
  {
    if k < |s| {
      assert s[k..][0] == s[k];
      assert s[k..][1..] == s[k + 1..];
      if IsSpace(s[k]) {
        ScanCount(s, k + 1, []);
      } else {
        ScanCount(s, k + 1, cur + [s[k]]);
      }
    }
  }

  /** `len(s.split())` is the number of positions where a word starts. */
  lemma WordsCount(s: string)
    ensures |Words(s)| == StartsFrom(s, 0)
  {
    assert s[0..] == s;
    ScanCount(s, 0, []);
  }
}
