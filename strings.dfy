/** Python string and list primitives used by the track parser, on `seq<char>`. */
module Strings {
  import opened Outcomes

  /** Every character for which Python's `str.isspace()` holds. */
  const Whitespace: string :=
    " \t\n\r\U{0B}\U{0C}\U{1C}\U{1D}\U{1E}\U{1F}\U{85}\U{A0}\U{1680}"
    + "\U{2000}\U{2001}\U{2002}\U{2003}\U{2004}\U{2005}\U{2006}\U{2007}\U{2008}\U{2009}\U{200A}"
    + "\U{2028}\U{2029}\U{202F}\U{205F}\U{3000}"

  /** The regex class `\d`, restricted to ASCII digits. */
  predicate IsDigit(c: char) { '0' <= c <= '9' }

  /** The regex class `\w`, restricted to ASCII letters, digits and underscore. */
  predicate IsWordChar(c: char) {
    IsDigit(c) || ('a' <= c <= 'z') || ('A' <= c <= 'Z') || c == '_'
  }

  predicate NoDup<T(==)>(s: seq<T>) {
    forall i, j :: 0 <= i < j < |s| ==> s[i] != s[j]
  }

  // ---------------------------------------------------------------- strip

  /** `s.lstrip(chars)` */
  function LStrip(s: string, chars: string): (r: string)
    ensures |r| <= |s| && r == s[|s| - |r|..]
    ensures r == [] || r[0] !in chars
    ensures forall i :: 0 <= i < |s| - |r| ==> s[i] in chars
    decreases |s|
  {
    if s != [] && s[0] in chars then LStrip(s[1..], chars) else s
  }

  /** `s.rstrip(chars)` */
  function RStrip(s: string, chars: string): (r: string)
    ensures |r| <= |s| && r == s[..|r|]
    ensures r == [] || r[|r| - 1] !in chars
    ensures forall i :: |r| <= i < |s| ==> s[i] in chars
    decreases |s|
  {
    if s != [] && s[|s| - 1] in chars then RStrip(s[..|s| - 1], chars) else s
  }

  /** `(x + suffix).rstrip(chars)` is `x` when the suffix is made of `chars` and `x`
      does not end in one. */
  lemma {:induction false} RStripSuffix(x: string, suffix: string, chars: string)
    requires forall i :: 0 <= i < |suffix| ==> suffix[i] in chars
    requires x == [] || x[|x| - 1] !in chars
    ensures RStrip(x + suffix, chars) == x
    decreases |suffix|
  {
    if suffix == [] {
      assert x + suffix == x;
    } else {
      var s := x + suffix;
      assert s[..|s| - 1] == x + suffix[..|suffix| - 1];
      RStripSuffix(x, suffix[..|suffix| - 1], chars);
    }
  }

  /** `s.strip(chars)`; `s.strip()` is `Strip(s, Whitespace)`. */
  function Strip(s: string, chars: string): (r: string)
    ensures r == [] || (r[0] !in chars && r[|r| - 1] !in chars)
    ensures StrippedAt(s, r, |s| - |LStrip(s, chars)|, chars)
  {
    StripShape(s, chars);
    RStrip(LStrip(s, chars), chars)
  }

  lemma StripShape(s: string, chars: string)
    ensures StrippedAt(s, RStrip(LStrip(s, chars), chars), |s| - |LStrip(s, chars)|, chars)
  {
    var l := LStrip(s, chars);
    TrimmedShape(s, l, RStrip(l, chars), chars);
  }

  /** A tail `l` of `s` and a head `r` of `l`, with only `chars` cut off at either end. */
  lemma TrimmedShape(s: string, l: string, r: string, chars: string)
    requires |l| <= |s| && l == s[|s| - |l|..] && (forall i :: 0 <= i < |s| - |l| ==> s[i] in chars)
    requires |r| <= |l| && r == l[..|r|] && (forall i :: |r| <= i < |l| ==> l[i] in chars)
    ensures StrippedAt(s, r, |s| - |l|, chars)
  {
    var k := |s| - |l|;
    assert s[k..k + |r|] == r by {
      assert s[k..][..|r|] == s[k..k + |r|];
    }
    forall i | k + |r| <= i < |s|
      ensures s[i] in chars
    {
      assert s[i] == l[i - k];
    }
  }

  /** Stripping a string that neither starts nor ends with one of `chars` changes nothing. */
  lemma StripUntouched(x: string, chars: string)
    requires x == [] || (x[0] !in chars && x[|x| - 1] !in chars)
    ensures Strip(x, chars) == x
  {
  }

  /** `r` is `s` with a prefix of length `k` and a suffix removed, both made of `chars` only. */
  predicate StrippedAt(s: string, r: string, k: int, chars: string) {
    && OccursAt(s, r, k)
    && (forall i :: 0 <= i < k ==> s[i] in chars)
    && (forall i :: k + |r| <= i < |s| ==> s[i] in chars)
  }

  // ---------------------------------------------------------------- search

  /** `pat` occurs in `s` at position `i`. */
  predicate OccursAt(s: string, pat: string, i: int) {
    0 <= i && i + |pat| <= |s| && s[i..i + |pat|] == pat
  }

  function FindFrom(s: string, pat: string, k: nat): (r: Option<nat>)
    requires k <= |s| + 1
    ensures r.Some? ==> k <= r.value && OccursAt(s, pat, r.value)
    ensures forall j :: k <= j && (r.None? || j < r.value) ==> !OccursAt(s, pat, j)
    decreases |s| + 1 - k
  {
    if k + |pat| > |s| then None
    else if s[k..k + |pat|] == pat then Some(k)
    else FindFrom(s, pat, k + 1)
  }

  /** `s.find(pat)`: the first position at which `pat` occurs, if any. */
  function Find(s: string, pat: string): (r: Option<nat>)
    ensures r.Some? ==> OccursAt(s, pat, r.value)
  {
    FindFrom(s, pat, 0)
  }

  /** Where `s.find(c)` finds a single character, that character is `c`. */
  lemma FindCharAt(s: string, c: char)
    ensures Find(s, [c]).Some? ==> s[Find(s, [c]).value] == c
  {
    if Find(s, [c]).Some? {
      var i := Find(s, [c]).value;
      assert s[i..i + 1][0] == s[i];
    }
  }

  /** `s.find(pat)` finds the first occurrence: there is none before it, and none at all
      when it finds nothing. */
  lemma FindFirst(s: string, pat: string)
    ensures forall j :: 0 <= j && (Find(s, pat).None? || j < Find(s, pat).value) ==> !OccursAt(s, pat, j)
  {
  }

  /** `pat in s` for strings. */
  predicate Contains(s: string, pat: string) {
    Find(s, pat).Some?
  }

  /** `s.endswith(suffix)` */
  predicate EndsWith(s: string, suffix: string) {
    |suffix| <= |s| && s[|s| - |suffix|..] == suffix
  }

  /** `s.removesuffix(suffix)` */
  function RemoveSuffix(s: string, suffix: string): (r: string)
    ensures s == r + (if suffix != [] && EndsWith(s, suffix) then suffix else [])
  {
    if suffix != [] && EndsWith(s, suffix) then s[..|s| - |suffix|] else s
  }

  // ---------------------------------------------------------------- split / join / replace

  /** `s.split(sep)` for a non-empty separator. */
  function Split(s: string, sep: string): (parts: seq<string>)
    requires sep != []
    ensures |parts| >= 1
    decreases |s|
  {
    match Find(s, sep)
    case None => [s]
    case Some(i) => [s[..i]] + Split(s[i + |sep|..], sep)
  }

  /** `sep.join(parts)` */
  function Join(parts: seq<string>, sep: string): string {
    if parts == [] then []
    else if |parts| == 1 then parts[0]
    else parts[0] + sep + Join(parts[1..], sep)
  }

  /** `s.replace(pat, repl)` for a non-empty `pat`: every occurrence, left to right, without overlap. */
  function ReplaceAll(s: string, pat: string, repl: string): string
    requires pat != []
    decreases |s|
  {
    match Find(s, pat)
    case None => s
    case Some(i) => s[..i] + repl + ReplaceAll(s[i + |pat|..], pat, repl)
  }

  /** `s.replace(pat, "")`, which leaves `s` as it is when `pat` is empty. */
  function Remove(s: string, pat: string): string {
    if pat == [] then s else ReplaceAll(s, pat, "")
  }

  /** Splitting on a separator and joining back gives the original string. */
  lemma {:induction false} JoinSplit(s: string, sep: string)
    requires sep != []
    ensures Join(Split(s, sep), sep) == s
    decreases |s|
  {
    match Find(s, sep)
    case None =>
    case Some(i) =>
      var rest := s[i + |sep|..];
      var tail := Split(rest, sep);
      assert Split(s, sep) == [s[..i]] + tail;
      assert Join(tail, sep) == rest by {
        JoinSplit(rest, sep);
      }
      assert Join([s[..i]] + tail, sep) == s[..i] + sep + Join(tail, sep) by {
        JoinCons(s[..i], tail, sep);
      }
      assert s == s[..i] + sep + rest by {
        assert s[i..i + |sep|] == sep;
        assert s == s[..i] + s[i..i + |sep|] + rest;
      }
  }

  /** Joining a list with a head puts the separator after the head. */
  lemma JoinCons(x: string, tail: seq<string>, sep: string)
    requires tail != []
    ensures Join([x] + tail, sep) == x + sep + Join(tail, sep)
  {
    assert ([x] + tail)[1..] == tail;
  }

  /** `s.replace(pat, repl)` equals `repl.join(s.split(pat))`. */
  lemma {:induction false} ReplaceIsSplitJoin(s: string, pat: string, repl: string)
    requires pat != []
    ensures ReplaceAll(s, pat, repl) == Join(Split(s, pat), repl)
    decreases |s|
  {
    match Find(s, pat)
    case None =>
    case Some(i) =>
      var rest := s[i + |pat|..];
      var tail := Split(rest, pat);
      ReplaceIsSplitJoin(rest, pat, repl);
      JoinCons(s[..i], tail, repl);
      calc {
        ReplaceAll(s, pat, repl);
        s[..i] + repl + ReplaceAll(rest, pat, repl);
        s[..i] + repl + Join(tail, repl);
        Join([s[..i]] + tail, repl);
        Join(Split(s, pat), repl);
      }
  }

  /** Replacing a string by itself changes nothing. */
  lemma {:induction false} ReplaceBySelf(s: string, pat: string)
    requires pat != []
    ensures ReplaceAll(s, pat, pat) == s
    decreases |s|
  {
    match Find(s, pat)
    case None =>
    case Some(i) =>
      ReplaceBySelf(s[i + |pat|..], pat);
      assert s == s[..i] + pat + s[i + |pat|..];
  }

  /** A join of a tail of the parts is a suffix of the join of all of them. */
  lemma {:induction false} JoinTailIsSuffix(parts: seq<string>, sep: string, i: nat)
    requires i < |parts|
    ensures EndsWith(Join(parts, sep), Join(parts[i..], sep))
    decreases i
  {
    if i > 0 {
      JoinTailIsSuffix(parts[1..], sep, i - 1);
      assert parts[1..][i - 1..] == parts[i..];
      assert Join(parts, sep) == parts[0] + sep + Join(parts[1..], sep);
    }
  }

  // ---------------------------------------------------------------- runs of a character class

  /** The two character classes whose runs the parser collects. */
  datatype CharClass = NonSpace | Digit

  predicate InClass(c: char, k: CharClass) {
    match k
    case NonSpace => c !in Whitespace
    case Digit => IsDigit(c)
  }

  /** The length of the longest prefix of `s` within class `k`. */
  function RunLength(s: string, k: CharClass): (n: nat)
    ensures n <= |s|
    ensures forall i :: 0 <= i < n ==> InClass(s[i], k)
    ensures n == |s| || !InClass(s[n], k)
  {
    if s != [] && InClass(s[0], k) then 1 + RunLength(s[1..], k) else 0
  }

  /** The maximal runs of characters of class `k`, in order. `Runs(s, NonSpace)` is
      `s.split()`; `Runs(s, Digit)` is `re.findall(r"[0-9]+", s)`. */
  function Runs(s: string, k: CharClass): (rs: seq<string>)
    ensures forall j :: 0 <= j < |rs| ==> rs[j] != [] && forall i :: 0 <= i < |rs[j]| ==> InClass(rs[j][i], k)
    decreases |s|
  {
    if s == [] then []
    else if !InClass(s[0], k) then Runs(s[1..], k)
    else
      var n := RunLength(s, k);
      [s[..n]] + Runs(s[n..], k)
  }

  /** `s.split()` */
  function Words(s: string): seq<string> {
    Runs(s, NonSpace)
  }

  /** A run followed by a character outside the class is collected whole. */
  lemma RunsPrefix(run: string, rest: string, k: CharClass)
    requires run != [] && forall i :: 0 <= i < |run| ==> InClass(run[i], k)
    requires rest == [] || !InClass(rest[0], k)
    ensures Runs(run + rest, k) == [run] + Runs(rest, k)
  {
    var s := run + rest;
    RunLengthOf(run, rest, k);
    assert s[..|run|] == run && s[|run|..] == rest;
  }

  lemma {:induction false} RunLengthOf(run: string, rest: string, k: CharClass)
    requires forall i :: 0 <= i < |run| ==> InClass(run[i], k)
    requires rest == [] || !InClass(rest[0], k)
    ensures RunLength(run + rest, k) == |run|
    decreases |run|
  {
    if run != [] {
      assert (run + rest)[1..] == run[1..] + rest;
      RunLengthOf(run[1..], rest, k);
    } else {
      assert run + rest == rest;
    }
  }

  /** Characters outside the class are skipped. */
  lemma RunsSkip(c: char, rest: string, k: CharClass)
    requires !InClass(c, k)
    ensures Runs([c] + rest, k) == Runs(rest, k)
  {
    assert ([c] + rest)[1..] == rest;
  }

  /** `" ".join(words).split()` gives back the words when none is empty or holds whitespace. */
  lemma {:induction false} WordsOfJoin(ws: seq<string>)
    requires forall j :: 0 <= j < |ws| ==> ws[j] != [] && forall i :: 0 <= i < |ws[j]| ==> ws[j][i] !in Whitespace
    ensures Words(Join(ws, " ")) == ws
    decreases |ws|
  {
    if ws == [] {
    } else if |ws| == 1 {
      RunsPrefix(ws[0], [], NonSpace);
      assert ws[0] + [] == ws[0];
    } else {
      var tail := Join(ws[1..], " ");
      WordsOfJoin(ws[1..]);
      RunsPrefix(ws[0], " " + tail, NonSpace);
      assert ws[0] + " " + tail == ws[0] + (" " + tail);
      RunsSkip(' ', tail, NonSpace);
    }
  }

  // ---------------------------------------------------------------- lists

  /** The number of occurrences of `x` in `xs`. */
  function Count<T(==)>(xs: seq<T>, x: T): nat {
    if xs == [] then 0 else (if xs[0] == x then 1 else 0) + Count(xs[1..], x)
  }

  /** The position of the first occurrence of `x` in `xs`. */
  function IndexOf<T(==)>(xs: seq<T>, x: T): (i: nat)
    requires x in xs
    ensures i < |xs| && xs[i] == x && x !in xs[..i]
  {
    if xs[0] == x then 0 else 1 + IndexOf(xs[1..], x)
  }

  /** `xs.remove(x)`: drop the first occurrence of `x`, which must be present. */
  function RemoveFirst<T(==)>(xs: seq<T>, x: T): (r: seq<T>)
    requires x in xs
    ensures |r| == |xs| - 1
    ensures multiset(r) == multiset(xs) - multiset{x}
    ensures r == xs[..IndexOf(xs, x)] + xs[IndexOf(xs, x) + 1..]
  {
    var i := IndexOf(xs, x);
    assert xs == xs[..i] + [x] + xs[i + 1..];
    xs[..i] + xs[i + 1..]
  }

  /** An ordered set built from `xs`: every element once, in the order first seen. */
  function Dedup<T(==,!new)>(xs: seq<T>): (r: seq<T>)
    ensures NoDup(r)
    ensures forall x :: x in r <==> x in xs
    decreases |xs|
  {
    if xs == [] then []
    else
      var d := Dedup(xs[..|xs| - 1]);
      var last := xs[|xs| - 1];
      assert xs == xs[..|xs| - 1] + [last];
      if last in d then d else d + [last]
  }

  // ---------------------------------------------------------------- decimal numbers

  function DigitValue(c: char): nat requires IsDigit(c) { (c as int - '0' as int) as nat }

  function DigitChar(d: nat): (c: char)
    requires d < 10
    ensures IsDigit(c) && DigitValue(c) == d
  {
    ('0' as int + d) as char
  }

  /** `int(run)` for a run of ASCII digits. */
  function DecimalValue(run: string): nat
    requires forall i :: 0 <= i < |run| ==> IsDigit(run[i])
  {
    if run == [] then 0 else DecimalValue(run[..|run| - 1]) * 10 + DigitValue(run[|run| - 1])
  }

  /** `str(n)` for a natural number. */
  function DecimalString(n: nat): (s: string)
    ensures s != [] && forall i :: 0 <= i < |s| ==> IsDigit(s[i])
  {
    if n < 10 then [DigitChar(n)] else DecimalString(n / 10) + [DigitChar(n % 10)]
  }

  /** `str(i)` for any integer. */
  function IntString(i: int): string {
    if i < 0 then "-" + DecimalString(-i) else DecimalString(i)
  }

  /** Reading back the decimal form of a number gives that number. */
  lemma {:induction false} DecimalRoundTrip(n: nat)
    ensures DecimalValue(DecimalString(n)) == n
  {
    if n >= 10 {
      DecimalRoundTrip(n / 10);
      var s := DecimalString(n);
      assert s[..|s| - 1] == DecimalString(n / 10);
    }
  }

  /** A string of `k` zero digits. */
  function Zeros(k: nat): (z: string)
    ensures |z| == k && forall i :: 0 <= i < k ==> z[i] == '0'
  {
    seq(k, _ => '0')
  }

  /** `int` ignores leading zeros: `int("0" * k + d) == int(d)`. */
  lemma {:induction false} DecimalValuePadded(k: nat, d: string)
    requires forall i :: 0 <= i < |d| ==> IsDigit(d[i])
    ensures DecimalValue(Zeros(k) + d) == DecimalValue(d)
    decreases |d|
  {
    var z := Zeros(k);
    if d == [] {
      assert z + d == z;
      ZerosValue(k);
    } else {
      var s := z + d;
      assert s[..|s| - 1] == z + d[..|d| - 1];
      assert s[|s| - 1] == d[|d| - 1];
      DecimalValuePadded(k, d[..|d| - 1]);
    }
  }

  lemma {:induction false} ZerosValue(k: nat)
    ensures DecimalValue(Zeros(k)) == 0
  {
    if k > 0 {
      assert Zeros(k)[..k - 1] == Zeros(k - 1);
      ZerosValue(k - 1);
    }
  }

  /** `s.replace(c, "")` leaves no `c`. */
  lemma {:induction false} RemoveCharGone(s: string, c: char)
    ensures c !in Remove(s, [c])
    decreases |s|
  {
    match Find(s, [c])
    case None =>
      if c in s {
        var j :| 0 <= j < |s| && s[j] == c;
        assert OccursAt(s, [c], j);
      }
    case Some(i) =>
      RemoveCharGone(s[i + 1..], c);
      if c in s[..i] {
        var j :| 0 <= j < i && s[j] == c;
        assert OccursAt(s, [c], j);
      }
  }
}
