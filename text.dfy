/** The parts of Python's `str` behaviour that the installer relies on:
    whitespace splitting (`split()`), single-character splitting
    (`split(c)`), `strip`, `join`, `splitlines`, `upper`, repetition and the
    `^` (centre) alignment of format specifications. */
module Text {

  /** Python's `str.isspace()` for one character. */
  predicate IsSpace(c: char) {
    c == ' ' || ('\t' <= c <= '\r') || ('\U{1C}' <= c <= '\U{1F}') ||
    c == '\U{85}' || c == '\U{A0}' || c == '\U{1680}' || ('\U{2000}' <= c <= '\U{200A}') ||
    c == '\U{2028}' || c == '\U{2029}' || c == '\U{202F}' || c == '\U{205F}' || c == '\U{3000}'
  }

  /** A token that `str.split()` can produce: non-empty and free of whitespace. */
  predicate IsWord(w: string) {
    |w| > 0 && forall i :: 0 <= i < |w| ==> !IsSpace(w[i])
  }

  /** Printable ASCII other than the space is never whitespace. */
  lemma VisibleWord(w: string)
    requires |w| > 0 && forall i :: 0 <= i < |w| ==> '!' <= w[i] <= '~'
    ensures IsWord(w)
  {
  }

  predicate StartsWith(s: string, prefix: string) {
    |prefix| <= |s| && s[..|prefix|] == prefix
  }

  predicate EndsWith(s: string, suffix: string) {
    |suffix| <= |s| && s[|s| - |suffix|..] == suffix
  }

  /** Python's `needle in haystack` when both are strings. */
  predicate IsSubstring(needle: string, haystack: string)
    decreases |haystack|
  {
    StartsWith(haystack, needle) || (|haystack| > 0 && IsSubstring(needle, haystack[1..]))
  }

  /** `needle` occurs in `haystack` starting at index `i`. */
  predicate OccursAt(needle: string, haystack: string, i: int) {
    0 <= i <= |haystack| - |needle| && haystack[i..i + |needle|] == needle
  }

  /** The substring test holds exactly when the needle occurs at some index. */
  lemma {:induction false} SubstringAt(needle: string, haystack: string)
    ensures IsSubstring(needle, haystack) <==> exists i :: OccursAt(needle, haystack, i)
    decreases |haystack|
  {
    if StartsWith(haystack, needle) {
      assert OccursAt(needle, haystack, 0);
    }
    if |haystack| > 0 {
      var tail := haystack[1..];
      SubstringAt(needle, tail);
      if IsSubstring(needle, tail) {
        var i :| OccursAt(needle, tail, i);
        OccursInTail(needle, haystack, i);
      }
      if exists i :: OccursAt(needle, haystack, i) {
        var i :| OccursAt(needle, haystack, i);
        if i > 0 {
          OccursInTail(needle, haystack, i - 1);
        }
      }
    } else {
      if exists i :: OccursAt(needle, haystack, i) {
        var i :| OccursAt(needle, haystack, i);
        assert needle == [];
      }
    }
  }

  /** An occurrence in the tail is the occurrence one further along. */
  lemma OccursInTail(needle: string, haystack: string, i: nat)
    requires |haystack| > 0
    ensures OccursAt(needle, haystack[1..], i) <==> OccursAt(needle, haystack, i + 1)
  {
    if i + |needle| <= |haystack| - 1 {
      assert haystack[1..][i..i + |needle|] == haystack[i + 1..i + 1 + |needle|];
    }
  }

  /** `sep.join(parts)`. */
  function JoinWith(sep: string, parts: seq<string>): string
    decreases |parts|
  {
    if |parts| == 0 then ""
    else if |parts| == 1 then parts[0]
    else parts[0] + sep + JoinWith(sep, parts[1..])
  }

  lemma JoinCons(sep: string, a: string, rest: seq<string>)
    requires |rest| > 0
    ensures JoinWith(sep, [a] + rest) == a + sep + JoinWith(sep, rest)
  {
    assert ([a] + rest)[1..] == rest;
  }

  lemma {:induction false} JoinAppend(sep: string, a: seq<string>, b: seq<string>)
    requires |a| > 0 && |b| > 0
    ensures JoinWith(sep, a + b) == JoinWith(sep, a) + sep + JoinWith(sep, b)
    decreases |a|
  {
    if |a| == 1 {
      assert (a + b)[1..] == b;
    } else {
      assert (a + b)[1..] == a[1..] + b;
      JoinAppend(sep, a[1..], b);
    }
  }

  // ---------------------------------------------------------------------
  // Whitespace splitting: `s.split()` and `s.strip().split()`

  /** Length of the run of non-whitespace characters at the start of `s`. */
  function WordLength(s: string): (n: nat)
    ensures n <= |s|
    ensures forall i :: 0 <= i < n ==> !IsSpace(s[i])
    ensures n == |s| || IsSpace(s[n])
  {
    if s == [] || IsSpace(s[0]) then 0 else 1 + WordLength(s[1..])
  }

  lemma {:induction false} WordLengthUnique(s: string, n: nat)
    requires n <= |s|
    requires forall i :: 0 <= i < n ==> !IsSpace(s[i])
    requires n == |s| || IsSpace(s[n])
    ensures WordLength(s) == n
  {
    if n > 0 {
      WordLengthUnique(s[1..], n - 1);
    }
  }

  /** Python's `s.split()` with no separator: the maximal runs of
      non-whitespace characters, in order. */
  function Split(s: string): (r: seq<string>)
    ensures forall i :: 0 <= i < |r| ==> IsWord(r[i])
    decreases |s|
  {
    if s == [] then []
    else if IsSpace(s[0]) then Split(s[1..])
    else [s[..WordLength(s)]] + Split(s[WordLength(s)..])
  }

  /** A word followed by whitespace (or nothing) splits off as the first token. */
  lemma SplitWordPrefix(w: string, t: string)
    requires IsWord(w)
    requires t == [] || IsSpace(t[0])
    ensures Split(w + t) == [w] + Split(t)
  {
    var s := w + t;
    WordLengthUnique(s, |w|);
    assert s[..|w|] == w;
    assert s[|w|..] == t;
  }

  /** A string that starts with a non-whitespace character has a first token. */
  lemma SplitNonEmpty(s: string)
    requires |s| > 0 && !IsSpace(s[0])
    ensures |Split(s)| > 0 && Split(s)[0] == s[..WordLength(s)]
  {
  }

  lemma {:induction false} SplitTrailingSpace(s: string, c: char)
    requires IsSpace(c)
    ensures Split(s + [c]) == Split(s)
    decreases |s|
  {
    var t := s + [c];
    if s == [] {
      assert t[1..] == [];
    } else if IsSpace(s[0]) {
      assert t[1..] == s[1..] + [c];
      SplitTrailingSpace(s[1..], c);
    } else {
      var n := WordLength(s);
      WordLengthUnique(t, n);
      assert t[..n] == s[..n];
      assert t[n..] == s[n..] + [c];
      SplitTrailingSpace(s[n..], c);
    }
  }

  /** Python's `lstrip`, generalised over the set of characters dropped. */
  function LStripBy(s: string, drop: char -> bool): (r: string)
    ensures |r| <= |s| && r == s[|s| - |r|..]
    ensures r == [] || !drop(r[0])
  {
    if s != [] && drop(s[0]) then LStripBy(s[1..], drop) else s
  }

  /** Python's `rstrip`, generalised over the set of characters dropped. */
  function RStripBy(s: string, drop: char -> bool): (r: string)
    ensures |r| <= |s| && r == s[..|r|]
    ensures r == [] || !drop(r[|r| - 1])
  {
    if s != [] && drop(s[|s| - 1]) then RStripBy(s[..|s| - 1], drop) else s
  }

  /** Python's `s.strip()`. */
  function Strip(s: string): string {
    RStripBy(LStripBy(s, IsSpace), IsSpace)
  }

  /** A whitespace-free token is its own strip. */
  lemma StripWord(w: string)
    requires IsWord(w)
    ensures Strip(w) == w
  {
  }

  /** Python's `s.strip(c)` for a one-character argument. */
  function TrimChar(s: string, c: char): string {
    RStripBy(LStripBy(s, x => x == c), x => x == c)
  }

  lemma {:induction false} SplitLStrip(s: string)
    ensures Split(LStripBy(s, IsSpace)) == Split(s)
    decreases |s|
  {
    if s != [] && IsSpace(s[0]) {
      SplitLStrip(s[1..]);
    }
  }

  lemma {:induction false} SplitRStrip(s: string)
    ensures Split(RStripBy(s, IsSpace)) == Split(s)
    decreases |s|
  {
    if s != [] && IsSpace(s[|s| - 1]) {
      var init := s[..|s| - 1];
      assert s == init + [s[|s| - 1]];
      SplitTrailingSpace(init, s[|s| - 1]);
      SplitRStrip(init);
    }
  }

  /** Stripping before splitting changes nothing: `s.strip().split() == s.split()`. */
  lemma SplitIgnoresStrip(s: string)
    ensures Split(Strip(s)) == Split(s)
  {
    SplitRStrip(LStripBy(s, IsSpace));
    SplitLStrip(s);
  }

  /** Splitting distributes over a whitespace character: tokens never
      straddle it. */
  lemma {:induction false} SplitAtSpace(a: string, c: char, b: string)
    requires IsSpace(c)
    ensures Split(a + [c] + b) == Split(a) + Split(b)
    decreases |a|
  {
    var s := a + [c] + b;
    if a == [] {
      assert s[1..] == b;
    } else if IsSpace(a[0]) {
      assert s[1..] == a[1..] + [c] + b;
      SplitAtSpace(a[1..], c, b);
    } else {
      var n := WordLength(a);
      if n < |a| {
        WordLengthUnique(s, n);
        assert s[..n] == a[..n];
        assert s[n..] == a[n..] + [c] + b;
        SplitAtSpace(a[n..], c, b);
      } else {
        WordLengthUnique(s, n);
        assert s[..n] == a;
        assert s[n..] == [c] + b;
        assert ([c] + b)[1..] == b;
        assert Split([c] + b) == Split(b);
        assert a[..n] == a && a[n..] == [];
        assert Split(a) == [a];
      }
    }
  }

  /** Joining one more part appends the separator and that part. */
  lemma JoinSnoc(sep: string, parts: seq<string>, w: string)
    requires |parts| > 0
    ensures JoinWith(sep, parts + [w]) == JoinWith(sep, parts) + sep + w
  {
    JoinAppend(sep, parts, [w]);
  }

  /** A whitespace-free token splits into itself. */
  lemma SplitWord(w: string)
    requires IsWord(w)
    ensures Split(w) == [w]
  {
    SplitWordPrefix(w, []);
    assert w + [] == w;
  }

  /** Appending a space and a token to a line appends that token to its
      split. */
  lemma SplitThenWord(s: string, w: string)
    requires IsWord(w)
    ensures Split(s + " " + w) == Split(s) + [w]
  {
    assert s + " " + w == s + [' '] + w;
    SplitAtSpace(s, ' ', w);
    SplitWord(w);
  }

  /** Lines of three to six tokens separated by single spaces split back
      into those tokens. */
  lemma SplitSpaced3(a: string, b: string, c: string)
    requires IsWord(a) && IsWord(b) && IsWord(c)
    ensures Split(a + " " + b + " " + c) == [a, b, c]
  {
    SplitWord(a);
    SplitThenWord(a, b);
    SplitThenWord(a + " " + b, c);
  }

  lemma SplitSpaced4(a: string, b: string, c: string, d: string)
    requires IsWord(a) && IsWord(b) && IsWord(c) && IsWord(d)
    ensures Split(a + " " + b + " " + c + " " + d) == [a, b, c, d]
  {
    SplitSpaced3(a, b, c);
    SplitThenWord(a + " " + b + " " + c, d);
  }

  lemma SplitSpaced5(a: string, b: string, c: string, d: string, e: string)
    requires IsWord(a) && IsWord(b) && IsWord(c) && IsWord(d) && IsWord(e)
    ensures Split(a + " " + b + " " + c + " " + d + " " + e) == [a, b, c, d, e]
  {
    SplitSpaced4(a, b, c, d);
    SplitThenWord(a + " " + b + " " + c + " " + d, e);
  }

  lemma SplitSpaced6(a: string, b: string, c: string, d: string, e: string, f: string)
    requires IsWord(a) && IsWord(b) && IsWord(c) && IsWord(d) && IsWord(e) && IsWord(f)
    ensures Split(a + " " + b + " " + c + " " + d + " " + e + " " + f) == [a, b, c, d, e, f]
  {
    SplitSpaced5(a, b, c, d, e);
    SplitThenWord(a + " " + b + " " + c + " " + d + " " + e, f);
  }

  /** Round trip: splitting a line built by `" ".join(parts)` of whitespace-free,
      non-empty parts gives back exactly those parts. */
  lemma {:induction false} SplitJoin(parts: seq<string>)
    requires forall i :: 0 <= i < |parts| ==> IsWord(parts[i])
    ensures Split(JoinWith(" ", parts)) == parts
    decreases |parts|
  {
    if |parts| == 1 {
      SplitWordPrefix(parts[0], []);
      assert parts[0] + [] == parts[0];
    } else if |parts| > 1 {
      var rest := JoinWith(" ", parts[1..]);
      assert JoinWith(" ", parts) == parts[0] + (" " + rest);
      SplitWordPrefix(parts[0], " " + rest);
      assert (" " + rest)[1..] == rest;
      SplitJoin(parts[1..]);
      assert [parts[0]] + parts[1..] == parts;
    }
  }

  // ---------------------------------------------------------------------
  // Splitting on one character: `s.split(c)`

  /** Number of characters before the first `c` in `s` (or `|s|`). */
  function FieldLength(c: char, s: string): (n: nat)
    ensures n <= |s|
    ensures forall i :: 0 <= i < n ==> s[i] != c
    ensures n == |s| || s[n] == c
  {
    if s == [] || s[0] == c then 0 else 1 + FieldLength(c, s[1..])
  }

  lemma {:induction false} FieldLengthUnique(c: char, s: string, n: nat)
    requires n <= |s|
    requires forall i :: 0 <= i < n ==> s[i] != c
    requires n == |s| || s[n] == c
    ensures FieldLength(c, s) == n
  {
    if n > 0 {
      FieldLengthUnique(c, s[1..], n - 1);
    }
  }

  /** Python's `s.split(c)` for a one-character separator. */
  function SplitOn(c: char, s: string): (r: seq<string>)
    ensures |r| > 0
    ensures forall i :: 0 <= i < |r| ==> c !in r[i]
    decreases |s|
  {
    var n := FieldLength(c, s);
    assert c !in s[..n] by {
      forall j | 0 <= j < n ensures s[..n][j] != c { }
    }
    if n == |s| then [s] else [s[..n]] + SplitOn(c, s[n + 1..])
  }

  /** Joining the pieces of a split with the separator restores the string. */
  lemma {:induction false} JoinSplitOn(c: char, s: string)
    ensures JoinWith([c], SplitOn(c, s)) == s
    decreases |s|
  {
    var n := FieldLength(c, s);
    if n < |s| {
      JoinSplitOn(c, s[n + 1..]);
      assert s == s[..n] + [c] + s[n + 1..];
    }
  }

  /** Splitting a join of separator-free parts gives back the parts. */
  lemma {:induction false} SplitOnJoin(c: char, parts: seq<string>)
    requires |parts| > 0
    requires forall i :: 0 <= i < |parts| ==> c !in parts[i]
    ensures SplitOn(c, JoinWith([c], parts)) == parts
    decreases |parts|
  {
    var p := parts[0];
    if |parts| == 1 {
      FieldLengthUnique(c, p, |p|);
    } else {
      var rest := JoinWith([c], parts[1..]);
      var s := p + [c] + rest;
      assert JoinWith([c], parts) == s;
      FieldLengthUnique(c, s, |p|);
      assert s[..|p|] == p;
      assert s[|p| + 1..] == rest;
      SplitOnJoin(c, parts[1..]);
      assert [p] + parts[1..] == parts;
    }
  }

  /** `(a + c + b).split(c) == a.split(c) + b.split(c)`. */
  lemma SplitOnConcat(c: char, a: string, b: string)
    ensures SplitOn(c, a + [c] + b) == SplitOn(c, a) + SplitOn(c, b)
  {
    var pa, pb := SplitOn(c, a), SplitOn(c, b);
    var parts := pa + pb;
    JoinSplitOn(c, a);
    JoinSplitOn(c, b);
    JoinAppend([c], pa, pb);
    assert JoinWith([c], parts) == a + [c] + b;
    SeparatorFreeAppend(c, pa, pb);
    SplitOnJoin(c, parts);
  }

  /** Two lists of separator-free parts stay separator-free when appended. */
  lemma SeparatorFreeAppend(c: char, pa: seq<string>, pb: seq<string>)
    requires forall i :: 0 <= i < |pa| ==> c !in pa[i]
    requires forall i :: 0 <= i < |pb| ==> c !in pb[i]
    ensures forall i :: 0 <= i < |pa + pb| ==> c !in (pa + pb)[i]
  {
    forall i | 0 <= i < |pa + pb| ensures c !in (pa + pb)[i] {
      if i >= |pa| { assert (pa + pb)[i] == pb[i - |pa|]; }
    }
  }

  // ---------------------------------------------------------------------
  // `s.splitlines()`

  /** The line boundaries recognised by Python's `str.splitlines()`. */
  predicate IsLineBreak(c: char) {
    ('\n' <= c <= '\r') || ('\U{1C}' <= c <= '\U{1E}') ||
    c == '\U{85}' || c == '\U{2028}' || c == '\U{2029}'
  }

  predicate HasNoLineBreak(s: string) {
    forall i :: 0 <= i < |s| ==> !IsLineBreak(s[i])
  }

  /** Number of characters before the first line boundary in `s` (or `|s|`). */
  function LineLength(s: string): (n: nat)
    ensures n <= |s|
    ensures HasNoLineBreak(s[..n])
    ensures n == |s| || IsLineBreak(s[n])
  {
    if s == [] || IsLineBreak(s[0]) then 0
    else
      var m := LineLength(s[1..]);
      assert s[..m + 1] == [s[0]] + s[1..][..m];
      1 + m
  }

  lemma {:induction false} LineLengthUnique(s: string, n: nat)
    requires n <= |s|
    requires HasNoLineBreak(s[..n])
    requires n == |s| || IsLineBreak(s[n])
    ensures LineLength(s) == n
  {
    if n > 0 {
      assert s[0] == s[..n][0];
      assert s[1..][..n - 1] == s[..n][1..];
      LineLengthUnique(s[1..], n - 1);
    }
  }

  /** Python's `s.splitlines()`: the lines without their boundaries, `\r\n`
      counting as one boundary and no empty line after a final boundary. */
  function SplitLines(s: string): (r: seq<string>)
    ensures forall i :: 0 <= i < |r| ==> HasNoLineBreak(r[i])
    decreases |s|
  {
    if s == [] then []
    else
      var n := LineLength(s);
      if n == |s| then [s]
      else if s[n] == '\r' && n + 1 < |s| && s[n + 1] == '\n' then [s[..n]] + SplitLines(s[n + 2..])
      else [s[..n]] + SplitLines(s[n + 1..])
  }

  /** Round trip: the lines of `"\n".join(parts)` are the parts, when no part
      holds a line boundary and the last part is not empty. */
  lemma {:induction false} SplitLinesJoin(parts: seq<string>)
    requires |parts| > 0 && parts[|parts| - 1] != ""
    requires forall i :: 0 <= i < |parts| ==> HasNoLineBreak(parts[i])
    ensures SplitLines(JoinWith("\n", parts)) == parts
    decreases |parts|
  {
    var p := parts[0];
    if |parts| == 1 {
      LineLengthUnique(p, |p|);
      assert p[..|p|] == p;
    } else {
      var rest := JoinWith("\n", parts[1..]);
      var s := p + "\n" + rest;
      assert JoinWith("\n", parts) == s;
      assert s[..|p|] == p;
      LineLengthUnique(s, |p|);
      assert s[|p| + 1..] == rest;
      SplitLinesJoin(parts[1..]);
      assert [p] + parts[1..] == parts;
    }
  }

  // ---------------------------------------------------------------------
  // `upper`, repetition and centring

  /** ASCII upper-casing of one character. */
  function UpperChar(c: char): (u: char)
    ensures !('a' <= u <= 'z')
  {
    if 'a' <= c <= 'z' then (c as int - 32) as char else c
  }

  /** `s.upper()` restricted to ASCII letters. */
  function Upper(s: string): (r: string)
    ensures |r| == |s|
    ensures forall i :: 0 <= i < |s| ==> r[i] == UpperChar(s[i])
  {
    seq(|s|, i requires 0 <= i < |s| => UpperChar(s[i]))
  }

  /** Upper-casing twice is upper-casing once. */
  lemma UpperIdempotent(s: string)
    ensures Upper(Upper(s)) == Upper(s)
  {
  }

  /** `c * n` for a one-character string `c`. */
  function Repeat(c: char, n: nat): (r: string)
    ensures |r| == n
    ensures forall i :: 0 <= i < n ==> r[i] == c
  {
    seq(n, _ => c)
  }

  /** `s * n` for any string `s`. */
  function RepeatString(s: string, n: nat): string {
    if n == 0 then "" else s + RepeatString(s, n - 1)
  }

  /** `"{:" + fill + "^" + str(width) + "}".format(s)`: `s` padded with `fill`
      to `width` characters, the smaller half of the padding on the left; a
      string already `width` long or longer is left as it is. */
  function Center(s: string, width: nat, fill: char): string {
    if width <= |s| then s
    else
      var left := (width - |s|) / 2;
      Repeat(fill, left) + s + Repeat(fill, width - |s| - left)
  }

  /** Shape of a centred string: its length is `max(width, |s|)` and `s` sits
      between two runs of `fill` whose lengths differ by at most one, the
      right-hand run being the longer one. */
  lemma CenterShape(s: string, width: nat, fill: char)
    ensures |Center(s, width, fill)| == if width <= |s| then |s| else width
    ensures exists left: nat, right: nat ::
              left <= right <= left + 1 &&
              Center(s, width, fill) == Repeat(fill, left) + s + Repeat(fill, right)
  {
    if width <= |s| {
      assert Center(s, width, fill) == Repeat(fill, 0) + s + Repeat(fill, 0);
    } else {
      var left := (width - |s|) / 2;
      assert Center(s, width, fill) == Repeat(fill, left) + s + Repeat(fill, width - |s| - left);
    }
  }

  /** `lstrip` removes exactly the leading run of dropped characters. */
  lemma {:induction false} LStripRun(t: string, k: nat, drop: char -> bool)
    requires k <= |t| && forall i :: 0 <= i < k ==> drop(t[i])
    requires k == |t| || !drop(t[k])
    ensures LStripBy(t, drop) == t[k..]
    decreases k
  {
    if k > 0 {
      var rest := t[1..];
      assert forall i :: 0 <= i < k - 1 ==> rest[i] == t[i + 1];
      assert rest[k - 1..] == t[k..];
      LStripRun(rest, k - 1, drop);
    } else if t != [] {
      assert !drop(t[0]);
    }
  }

  lemma LStripRepeat(c: char, n: nat, s: string)
    requires s == [] || s[0] != c
    ensures LStripBy(Repeat(c, n) + s, x => x == c) == s
  {
    var t := Repeat(c, n) + s;
    assert t[n..] == s;
    LStripRun(t, n, x => x == c);
  }

  lemma {:induction false} RStripRepeat(c: char, n: nat, s: string)
    requires s == [] || s[|s| - 1] != c
    ensures RStripBy(s + Repeat(c, n), x => x == c) == s
  {
    if n > 0 {
      assert (s + Repeat(c, n))[..|s + Repeat(c, n)| - 1] == s + Repeat(c, n - 1);
      RStripRepeat(c, n - 1, s);
    } else {
      assert s + Repeat(c, n) == s;
    }
  }

  /** Inverse of centring: stripping the fill character from both ends of a
      centred string gives back the string, when it neither starts nor ends
      with the fill character. */
  lemma CenterTrim(s: string, width: nat, fill: char)
    requires |s| > 0 && s[0] != fill && s[|s| - 1] != fill
    ensures TrimChar(Center(s, width, fill), fill) == s
  {
    var left := if width <= |s| then 0 else (width - |s|) / 2;
    var right := if width <= |s| then 0 else width - |s| - left;
    assert Center(s, width, fill) == Repeat(fill, left) + (s + Repeat(fill, right));
    LStripRepeat(fill, left, s + Repeat(fill, right));
    RStripRepeat(fill, right, s);
  }
}
