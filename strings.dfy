/**
 * The string operations of Python that the card code relies on: whitespace,
 * `strip`, `split`, `join`, slicing and the truthiness of optional strings.
 */
module Strings {
  import opened Wrappers

  /** Python's `str.isspace()` on one character: what `split()` and `strip()` treat as whitespace. */
  predicate IsSpace(c: char) {
    || c == ' ' || ('\t' <= c <= '\r') || ('\U{1C}' <= c <= '\U{1F}')
    || c == '\U{85}' || c == '\U{A0}' || c == '\U{1680}' || ('\U{2000}' <= c <= '\U{200A}')
    || c == '\U{2028}' || c == '\U{2029}' || c == '\U{202F}' || c == '\U{205F}' || c == '\U{3000}'
  }

  /** Python truthiness of an `Optional[str]`: present and non-empty. */
  predicate Present(o: Option<string>) {
    o.Some? && o.value != ""
  }

  /** Python's `a or b` on optional strings. */
  function Or(a: Option<string>, b: Option<string>): (r: Option<string>)
    ensures Present(a) ==> r == a
    ensures !Present(a) ==> r == b
  {
    if Present(a) then a else b
  }

  /** Python's `s[:n]` for `n >= 0`. */
  function Take<T>(s: seq<T>, n: nat): (r: seq<T>)
    ensures |r| == if |s| <= n then |s| else n
    ensures r == s[..|r|]
  {
    if |s| <= n then s else s[..n]
  }

  // ---------------------------------------------------------------- strip

  /** The number of whitespace characters `s` starts with. */
  function Leading(s: string): (n: nat)
    ensures n <= |s|
    ensures forall k :: 0 <= k < n ==> IsSpace(s[k])
    ensures n < |s| ==> !IsSpace(s[n])
  {
    if s != [] && IsSpace(s[0]) then 1 + Leading(s[1..]) else 0
  }

  /** The length of `s` without its trailing whitespace. */
  function TrailEnd(s: string): (n: nat)
    ensures n <= |s|
    ensures forall k :: n <= k < |s| ==> IsSpace(s[k])
    ensures n > 0 ==> !IsSpace(s[n - 1])
  {
    if s != [] && IsSpace(s[|s| - 1]) then TrailEnd(s[..|s| - 1]) else |s|
  }

  /** The contract of `Leading` determines it. */
  lemma LeadingUnique(s: string, n: nat)
    requires n <= |s|
    requires forall k :: 0 <= k < n ==> IsSpace(s[k])
    requires n < |s| ==> !IsSpace(s[n])
    ensures Leading(s) == n
  {
  }

  function LStrip(s: string): string {
    s[Leading(s)..]
  }

  function RStrip(s: string): string {
    s[..TrailEnd(s)]
  }

  /** A string that `strip()` leaves alone: empty, or no whitespace at either end. */
  predicate Clean(s: string) {
    s == [] || (!IsSpace(s[0]) && !IsSpace(s[|s| - 1]))
  }

  /**
   * Python's `str.strip()` with no argument: what is removed in front is the
   * leading whitespace, and what is removed behind is whitespace only.
   */
  function Strip(s: string): (r: string)
    ensures Leading(s) + |r| <= |s|
    ensures Clean(r)
    ensures forall k :: Leading(s) + |r| <= k < |s| ==> IsSpace(s[k])
  {
    var l := LStrip(s);
    var r := RStrip(l);
    assert r != [] ==> r[0] == l[0] == s[Leading(s)] && r[|r| - 1] == l[TrailEnd(l) - 1];
    assert forall k :: TrailEnd(l) <= k < |l| ==> l[k] == s[Leading(s) + k];
    r
  }

  /** What `strip()` keeps is a run of the original characters, in order. */
  lemma StripChars(s: string)
    ensures forall k :: 0 <= k < |Strip(s)| ==> Strip(s)[k] == s[Leading(s) + k]
  {
  }

  lemma StripClean(s: string)
    requires Clean(s)
    ensures Strip(s) == s
  {
    if s != [] {
      LeadingUnique(s, 0);
    }
    assert LStrip(s) == s;
  }

  lemma StripIdempotent(s: string)
    ensures Strip(Strip(s)) == Strip(s)
  {
    StripClean(Strip(s));
  }

  /** Leading whitespace in front of a clean string is what `strip()` removes. */
  lemma StripAfterSpaces(pre: string, t: string)
    requires forall k :: 0 <= k < |pre| ==> IsSpace(pre[k])
    requires t != [] && Clean(t)
    ensures Strip(pre + t) == t
  {
    var s := pre + t;
    assert s[|pre|] == t[0];
    LeadingUnique(s, |pre|);
    assert LStrip(s) == t;
    StripClean(t);
  }

  // ---------------------------------------------------------------- split() into words

  /** The length of the longest whitespace-free prefix of `s`. */
  function RunLength(s: string): (n: nat)
    ensures n <= |s|
    ensures forall k :: 0 <= k < n ==> !IsSpace(s[k])
    ensures n < |s| ==> IsSpace(s[n])
  {
    if s == [] || IsSpace(s[0]) then 0 else 1 + RunLength(s[1..])
  }

  /** What `split()` can return as one piece: non-empty and free of whitespace. */
  predicate IsWord(w: string) {
    w != [] && forall k :: 0 <= k < |w| ==> !IsSpace(w[k])
  }

  predicate AllWords(ws: seq<string>) {
    forall j :: 0 <= j < |ws| ==> IsWord(ws[j])
  }

  /** Python's `s.split()` with no separator: the maximal runs of non-whitespace characters. */
  function Words(s: string): (ws: seq<string>)
    ensures AllWords(ws)
    decreases |s|
  {
    if s == [] then []
    else if IsSpace(s[0]) then Words(s[1..])
    else
      var n := RunLength(s);
      [s[..n]] + Words(s[n..])
  }

  /** `split()` finds no word exactly in a string made only of whitespace. */
  lemma {:induction false} WordsEmpty(s: string)
    ensures Words(s) == [] <==> forall k :: 0 <= k < |s| ==> IsSpace(s[k])
    decreases |s|
  {
    if s != [] && IsSpace(s[0]) {
      WordsEmpty(s[1..]);
      if forall k :: 0 <= k < |s| - 1 ==> IsSpace(s[1..][k]) {
        forall k | 0 <= k < |s| ensures IsSpace(s[k]) {
          if k > 0 { assert s[k] == s[1..][k - 1]; }
        }
      }
    }
  }

  /** The contract of `RunLength` determines it. */
  lemma RunLengthUnique(s: string, n: nat)
    requires n <= |s|
    requires forall k :: 0 <= k < n ==> !IsSpace(s[k])
    requires n < |s| ==> IsSpace(s[n])
    ensures RunLength(s) == n
  {
  }

  lemma RunLengthOfWord(w: string, t: string)
    requires IsWord(w)
    requires t == [] || IsSpace(t[0])
    ensures RunLength(w + t) == |w|
  {
    var s := w + t;
    assert forall k :: 0 <= k < |w| ==> s[k] == w[k];
    assert |w| < |s| ==> s[|w|] == t[0];
    RunLengthUnique(s, |w|);
  }

  lemma WordsOfWordThen(w: string, t: string)
    requires IsWord(w)
    requires t == [] || IsSpace(t[0])
    ensures Words(w + t) == [w] + Words(t)
  {
    RunLengthOfWord(w, t);
    assert (w + t)[0] == w[0];
    assert (w + t)[..|w|] == w;
    assert (w + t)[|w|..] == t;
  }

  // ---------------------------------------------------------------- join

  /** Python's `sep.join(parts)`. */
  function Join(sep: string, parts: seq<string>): string {
    if |parts| == 0 then ""
    else if |parts| == 1 then parts[0]
    else parts[0] + sep + Join(sep, parts[1..])
  }

  lemma {:induction false} JoinSnoc(sep: string, parts: seq<string>, w: string)
    requires |parts| >= 1
    ensures Join(sep, parts + [w]) == Join(sep, parts) + sep + w
  {
    if |parts| == 1 {
      assert (parts + [w])[1..] == [w];
    } else {
      assert (parts + [w])[1..] == parts[1..] + [w];
      JoinSnoc(sep, parts[1..], w);
    }
  }

  /** Words joined with single spaces form a clean, non-empty string starting with the first word. */
  lemma {:induction false} JoinWordsClean(ws: seq<string>)
    requires AllWords(ws) && ws != []
    ensures Join(" ", ws) != [] && Clean(Join(" ", ws))
    ensures Join(" ", ws)[0] == ws[0][0]
  {
    if |ws| > 1 {
      JoinWordsClean(ws[1..]);
      var j := Join(" ", ws[1..]);
      assert Join(" ", ws) == ws[0] + " " + j;
      assert Join(" ", ws)[|Join(" ", ws)| - 1] == j[|j| - 1];
    }
  }

  /** Splitting words joined by single spaces gives the words back. */
  lemma {:induction false} WordsOfJoin(ws: seq<string>)
    requires AllWords(ws)
    ensures Words(Join(" ", ws)) == ws
  {
    if |ws| == 1 {
      WordsOfWordThen(ws[0], "");
      assert ws[0] + "" == ws[0];
    } else if |ws| > 1 {
      var j := Join(" ", ws[1..]);
      assert Join(" ", ws) == ws[0] + (" " + j);
      WordsOfWordThen(ws[0], " " + j);
      assert (" " + j)[1..] == j;
      WordsOfJoin(ws[1..]);
    }
  }

  // ---------------------------------------------------------------- split(sep)

  /** Python's `s.split(sep)` for a one-character separator: always at least one piece. */
  function SplitOn(s: string, sep: char): (pieces: seq<string>)
    ensures |pieces| >= 1
    ensures forall i :: 0 <= i < |pieces| ==> sep !in pieces[i]
  {
    if s == [] then [""]
    else
      var rest := SplitOn(s[1..], sep);
      if s[0] == sep then [""] + rest else [[s[0]] + rest[0]] + rest[1..]
  }

  /** Joining the pieces with the separator gives the string back. */
  lemma {:induction false} JoinSplitOn(s: string, sep: char)
    ensures Join([sep], SplitOn(s, sep)) == s
  {
    if s != [] {
      JoinSplitOn(s[1..], sep);
      var rest := SplitOn(s[1..], sep);
      if s[0] == sep {
        assert ([""] + rest)[1..] == rest;
      } else if |rest| == 1 {
      } else {
        assert ([[s[0]] + rest[0]] + rest[1..])[1..] == rest[1..];
        assert s == [s[0]] + s[1..];
      }
    }
  }

  lemma {:induction false} SplitOnNoSep(a: string, sep: char)
    requires sep !in a
    ensures SplitOn(a, sep) == [a]
  {
    if a != [] {
      SplitOnNoSep(a[1..], sep);
      assert [a[0]] + a[1..] == a;
    }
  }

  lemma {:induction false} SplitOnAt(a: string, sep: char, b: string)
    requires sep !in a
    ensures SplitOn(a + [sep] + b, sep) == [a] + SplitOn(b, sep)
  {
    var s := a + [sep] + b;
    if a == [] {
      assert s[1..] == b;
    } else {
      assert s[1..] == a[1..] + [sep] + b;
      SplitOnAt(a[1..], sep, b);
      assert [a[0]] + a[1..] == a;
    }
  }
}
