/** The pattern library of `beetsplug/bandcamp/_tracks.py`.

    The delimiter pattern and the leading-index pattern are encoded directly. Every
    other regular expression is an opaque function held in `Env`, with only the
    shape of result the parser reads from it. */
module Patterns {
  import opened Outcomes
  import opened Strings

  /** A regex match: `m.group()` and the capture group the parser reads
      (`m.group(1)`, or the last group for the featuring pattern). */
  datatype Match = Match(whole: string, group: string)

  /** `Helpers.split_artists`: its one promised property is that the list is free of duplicates. */
  type ArtistSplitter = f: seq<string> -> seq<string> | forall xs :: NoDup(f(xs))
    witness (xs: seq<string>) => []

  /** The opaque patterns. A `...Sub` field or a rule list is `pat.sub(repl, ·)`;
      the other fields are `pat.search(·)`. */
  datatype Env = Env(
    cleanRules: seq<string -> string>,       // CLEAN_PATTERNS, clean_title included, in order
    trackAlt: string -> Option<Match>,        // PATTERNS["track_alt"]
    catnumDelimited: string -> Option<Match>, // CATNUM_PAT["delimited"]
    catnumAnywhere: string -> Option<string>, // CATNUM_PAT["anywhere"], group 1
    remixer: string -> Option<Match>,         // REMIXER_PAT
    remixerSub: string -> string,             // REMIXER_PAT.sub("", ·)
    elpAlbum: string -> Option<Match>,        // ELP_ALBUM_PAT
    featuring: string -> Option<Match>,       // FT_PAT, with its last group
    digiOnly: seq<string -> string>,          // DIGI_ONLY_PATTERNS, each .sub("", ·)
    splitArtists: ArtistSplitter)

  /** Apply rewrite rules one after the other, as `reduce` over a pattern list does; a
      string every rule leaves alone comes out as it went in. */
  function ApplyRules(rules: seq<string -> string>, s: string): (r: string)
    ensures (forall i :: 0 <= i < |rules| ==> rules[i](s) == s) ==> r == s
    decreases |rules|
  {
    if rules == [] then s else ApplyRules(rules[1..], rules[0](s))
  }

  // ---------------------------------------------------------------- DELIMITER_PAT

  /** The class `[^\w&()+/[\] ]`. */
  predicate IsDelimiterChar(c: char) {
    !IsWordChar(c) && c !in "&()+/[] "
  }

  /** `DELIMITER_PAT` = ` ([^\w&()+/[\] ]) ` matches at position `i` of `s`. */
  predicate DelimiterAt(s: string, i: int) {
    0 <= i && i + 3 <= |s| && s[i] == ' ' && IsDelimiterChar(s[i + 1]) && s[i + 2] == ' '
  }

  function FirstDelimiterFrom(s: string, k: nat): (r: Option<nat>)
    ensures r.Some? ==> k <= r.value && DelimiterAt(s, r.value)
    ensures forall j :: k <= j && (r.None? || j < r.value) ==> !DelimiterAt(s, j)
    decreases |s| - k
  {
    if k + 3 > |s| then None
    else if DelimiterAt(s, k) then Some(k)
    else FirstDelimiterFrom(s, k + 1)
  }

  /** `DELIMITER_PAT.search(s)`, as the position of the leftmost match. */
  function FirstDelimiter(s: string): (r: Option<nat>)
    ensures r.Some? ==> DelimiterAt(s, r.value)
    ensures forall j :: 0 <= j && (r.None? || j < r.value) ==> !DelimiterAt(s, j)
  {
    FirstDelimiterFrom(s, 0)
  }

  // ---------------------------------------------------------------- leading index

  /** The length of the run of characters matched by `\W+` (greedy) from position `p`. */
  function NonWordRun(s: string, p: nat): (n: nat)
    requires p <= |s|
    ensures p + n <= |s|
    ensures forall i :: p <= i < p + n ==> !IsWordChar(s[i])
    ensures p + n == |s| || IsWordChar(s[p + n])
    decreases |s| - p
  {
    if p < |s| && !IsWordChar(s[p]) then 1 + NonWordRun(s, p + 1) else 0
  }

  /** After the index digits at `p`: `(?!\W\d)\W+` can match there. */
  predicate IndexTailOk(s: string, p: nat) {
    p < |s| && !IsWordChar(s[p]) && !(p + 1 < |s| && IsDigit(s[p + 1]))
  }

  /** The end of a match of `^0*{index}(?!\W\d)\W+` in which `0*` took exactly `k` zeros. */
  function IndexMatchWith(s: string, digits: string, k: nat): Option<nat> {
    var p := k + |digits|;
    if p <= |s| && s[k..p] == digits && IndexTailOk(s, p) then Some(p + NonWordRun(s, p)) else None
  }

  /** `s` starts with `k` zeros. */
  predicate ZeroPrefix(s: string, k: nat) {
    k <= |s| && forall i :: 0 <= i < k ==> s[i] == '0'
  }

  /** The number of leading zeros of `s`: what greedy `0*` takes first. */
  function LeadingZeros(s: string): (n: nat)
    ensures ZeroPrefix(s, n) && (n == |s| || s[n] != '0')
  {
    if s != [] && s[0] == '0' then 1 + LeadingZeros(s[1..]) else 0
  }

  /** Backtracking over `0*`: try `k` zeros, then fewer; the first count that matches wins. */
  function IndexMatchFrom(s: string, digits: string, k: nat): (r: Option<nat>)
    ensures r.Some? ==> exists j :: 0 <= j <= k && IndexMatchWith(s, digits, j) == r
                                    && forall i :: j < i <= k ==> IndexMatchWith(s, digits, i).None?
    ensures r.None? ==> forall j :: 0 <= j <= k ==> IndexMatchWith(s, digits, j).None?
    decreases k
  {
    var m := IndexMatchWith(s, digits, k);
    if m.Some? || k == 0 then m else IndexMatchFrom(s, digits, k - 1)
  }

  /** The match of `^0*{index}(?!\W\d)\W+` that takes `j` zeros is the one the regex engine
      finds: no match takes more zeros. */
  predicate FirstIndexMatch(s: string, digits: string, j: nat) {
    && ZeroPrefix(s, j) && IndexMatchWith(s, digits, j).Some?
    && forall k :: j < k <= |s| && ZeroPrefix(s, k) ==> IndexMatchWith(s, digits, k).None?
  }

  /** `re.sub(fr"^0*{index}(?!\W\d)\W+", "", s)`: drop this track's own index from the
      start of its name, unless a digit follows the index after one separator character. */
  function StripIndex(s: string, index: int): (r: string)
    ensures EndsWith(s, r)
    ensures r != s <==> exists j :: ZeroPrefix(s, j) && IndexMatchWith(s, IntString(index), j).Some?
    ensures forall j :: FirstIndexMatch(s, IntString(index), j) ==> r == s[IndexMatchWith(s, IntString(index), j).value..]
  {
    var d := IntString(index);
    match IndexMatchFrom(s, d, LeadingZeros(s))
    case None =>
      NoIndexMatch(s, d);
      s
    case Some(e) =>
      IndexMatchIsFirst(s, d);
      s[e..]
  }

  /** `0*` can take no more zeros than the name starts with. */
  lemma ZeroPrefixBound(s: string, k: nat)
    requires ZeroPrefix(s, k)
    ensures k <= LeadingZeros(s)
  {
    var z := LeadingZeros(s);
    if z < |s| {
      assert s[z] != '0';
    }
  }

  /** When backtracking finds nothing, no count of zeros gives a match. */
  lemma NoIndexMatch(s: string, d: string)
    requires IndexMatchFrom(s, d, LeadingZeros(s)).None?
    ensures forall j :: ZeroPrefix(s, j) ==> IndexMatchWith(s, d, j).None?
  {
    forall j | ZeroPrefix(s, j)
      ensures IndexMatchWith(s, d, j).None?
    {
      ZeroPrefixBound(s, j);
    }
  }

  /** What backtracking finds is the match that takes the most zeros. */
  lemma IndexMatchIsFirst(s: string, d: string)
    requires IndexMatchFrom(s, d, LeadingZeros(s)).Some?
    ensures forall j :: FirstIndexMatch(s, d, j) ==> IndexMatchWith(s, d, j) == IndexMatchFrom(s, d, LeadingZeros(s))
    ensures exists j :: ZeroPrefix(s, j) && IndexMatchWith(s, d, j).Some?
  {
    var z := LeadingZeros(s);
    var m := IndexMatchFrom(s, d, z);
    var j :| 0 <= j <= z && IndexMatchWith(s, d, j) == m
              && forall i :: j < i <= z ==> IndexMatchWith(s, d, i).None?;
    assert ZeroPrefix(s, j);
    forall j' | FirstIndexMatch(s, d, j')
      ensures IndexMatchWith(s, d, j') == m
    {
      ChosenIsFirst(s, d, j, j');
    }
  }

  /** The match the backtracking search settles on is the first one. */
  lemma ChosenIsFirst(s: string, d: string, j: nat, j': nat)
    requires ZeroPrefix(s, j) && IndexMatchWith(s, d, j).Some?
    requires forall i :: j < i <= LeadingZeros(s) ==> IndexMatchWith(s, d, i).None?
    requires FirstIndexMatch(s, d, j')
    ensures j' == j
  {
    ZeroPrefixBound(s, j');
    assert j' < j ==> IndexMatchWith(s, d, j).None?;
    assert j' > j ==> IndexMatchWith(s, d, j').None?;
  }

  /** A name that does not start with zeros followed by the index is left as it is. */
  lemma StripIndexNoIndex(s: string, index: int)
    requires forall j: nat :: ZeroPrefix(s, j) ==> !OccursAt(s, IntString(index), j)
    ensures StripIndex(s, index) == s
  {
    var z := LeadingZeros(s);
    forall j | 0 <= j <= z ensures IndexMatchWith(s, IntString(index), j).None? {
      assert ZeroPrefix(s, j);
    }
  }

  /** "01 Title" loses its index on track 1. */
  lemma StripIndexExample()
    ensures StripIndex("01 Title", 1) == "Title"
  {
    var s := "01 Title";
    assert IntString(1) == "1";
    assert LeadingZeros(s) == 1;
    assert NonWordRun(s, 3) == 0;
    assert NonWordRun(s, 2) == 1;
    assert IndexMatchWith(s, "1", 1) == Some(3);
  }

  /** "0100 Club" keeps its leading digits on track 1: the "1" is followed by a digit. */
  lemma StripIndexKeepsNumber()
    ensures StripIndex("0100 Club", 1) == "0100 Club"
  {
    var s := "0100 Club";
    assert IntString(1) == "1";
    assert LeadingZeros(s) == 1;
    assert s[1..2] == "1" && IsWordChar(s[2]);
    assert IndexMatchWith(s, "1", 1).None?;
    assert s[0..1] != "1";
    assert IndexMatchWith(s, "1", 0).None?;
  }
}
