/** The tracks of one release: `Tracks.track_delimiter`, `Tracks.common_catalognum`,
    `Tracks.from_json` and the `Tracks` list with its aggregate views and `adjust_artists`. */
module Release {
  import opened Outcomes
  import opened Strings
  import opened Patterns
  import opened TrackModel

  // ================================================================ track_delimiter

  /** `get_delim`: the character of the first delimiter match, or `-`. */
  function GetDelim(name: string): (r: string)
    ensures |r| == 1
    ensures FirstDelimiter(name).Some? ==> r == [name[FirstDelimiter(name).value + 1]]
    ensures FirstDelimiter(name).None? ==> r == "-"
  {
    match FirstDelimiter(name)
    case None => "-"
    case Some(i) => [name[i + 1]]
  }

  /** One vote per name. */
  function Votes(names: seq<string>): (v: seq<string>)
    ensures |v| == |names| && forall i :: 0 <= i < |names| ==> v[i] == GetDelim(names[i])
  {
    seq(|names|, i requires 0 <= i < |names| => GetDelim(names[i]))
  }

  /** A candidate of the `Counter` with the greatest count; the earliest one on a tie. */
  function ArgMaxCount(votes: seq<string>, cands: seq<string>): (r: string)
    requires cands != []
    ensures r in cands
    ensures forall c :: c in cands ==> Count(votes, c) <= Count(votes, r)
    decreases |cands|
  {
    if |cands| == 1 then cands[0]
    else
      var best := ArgMaxCount(votes, cands[1..]);
      if Count(votes, cands[0]) >= Count(votes, best) then cands[0] else best
  }

  /** `Counter(votes).most_common(1)[0][0]` */
  function MostCommon(votes: seq<string>): (r: string)
    requires votes != []
    ensures r in votes
    ensures forall x :: x in votes ==> Count(votes, x) <= Count(votes, r)
  {
    assert votes[0] in Dedup(votes);
    ArgMaxCount(votes, Dedup(votes))
  }

  /** `d` has strictly more than half of the votes. */
  predicate Majority(votes: seq<string>, d: string) {
    2 * Count(votes, d) > |votes|
  }

  lemma {:induction false} CountPositive<T>(xs: seq<T>, x: T)
    requires Count(xs, x) > 0
    ensures x in xs
    decreases |xs|
  {
    if xs[0] != x { CountPositive(xs[1..], x); }
  }

  /** Two different values share the votes between them. */
  lemma {:induction false} CountTwo<T>(xs: seq<T>, a: T, b: T)
    requires a != b
    ensures Count(xs, a) + Count(xs, b) <= |xs|
    decreases |xs|
  {
    if xs != [] { CountTwo(xs[1..], a, b); }
  }

  /** At most one value has a strict majority. */
  lemma MajorityUnique(votes: seq<string>, d: string, e: string)
    requires Majority(votes, d) && Majority(votes, e)
    ensures d == e
  {
    if d != e { CountTwo(votes, d, e); }
  }

  /** `Tracks.track_delimiter`: `""` for no names; for one name its own vote; for more,
      the value with a strict majority of the votes, or `-` when there is none. */
  function TrackDelimiter(names: seq<string>): (r: string)
    ensures names == [] ==> r == ""
    ensures |names| == 1 ==> r == GetDelim(names[0])
    ensures |names| > 1 ==> forall d :: Majority(Votes(names), d) ==> r == d
    ensures |names| > 1 && (forall d :: !Majority(Votes(names), d)) ==> r == "-"
    ensures names != [] ==> |r| == 1
  {
    if names == [] then ""
    else
      var v := Votes(names);
      var d := MostCommon(v);
      assert |names| == 1 ==> v == [GetDelim(names[0])];
      forall e | Majority(v, e) ensures Majority(v, d) && e == d {
        CountPositive(v, e);
        MajorityUnique(v, d, e);
      }
      if |names| == 1 || Majority(v, d) then d else "-"
  }

  // ================================================================ common_catalognum

  /** `list(map(str.split, names))` */
  function TokenLists(names: seq<string>): (ls: seq<seq<string>>)
    ensures |ls| == |names| && forall i :: 0 <= i < |names| ==> ls[i] == Words(names[i])
  {
    seq(|names|, i requires 0 <= i < |names| => Words(names[i]))
  }

  /** `w` is a token of every name. */
  predicate InEvery(w: string, names: seq<string>) {
    forall i :: 0 <= i < |names| ==> w in Words(names[i])
  }

  /** `xs` lists elements of `order` by their first position in `order`. */
  predicate OrderedBy(xs: seq<string>, order: seq<string>) {
    && (forall i :: 0 <= i < |xs| ==> xs[i] in order)
    && (forall i, j :: 0 <= i < j < |xs| ==> IndexOf(order, xs[i]) < IndexOf(order, xs[j]))
  }

  /** An ordered set keeps the order in which its elements were first seen. */
  lemma {:induction false} DedupOrdered(xs: seq<string>)
    ensures OrderedBy(Dedup(xs), xs)
    decreases |xs|
  {
    if xs != [] {
      var front := xs[..|xs| - 1];
      var last := xs[|xs| - 1];
      DedupOrdered(front);
      var d := Dedup(front);
      assert xs == front + [last];
      forall y | y in front ensures IndexOf(xs, y) == IndexOf(front, y) {
        IndexOfPrefix(front, [last], y);
      }
      if last !in d {
        assert last !in front;
        IndexOfAfter(front, last);
        assert Dedup(xs) == d + [last];
      }
    }
  }

  lemma {:induction false} IndexOfPrefix(a: seq<string>, b: seq<string>, y: string)
    requires y in a
    ensures IndexOf(a + b, y) == IndexOf(a, y)
    decreases |a|
  {
    if a[0] != y {
      assert (a + b)[1..] == a[1..] + b;
      IndexOfPrefix(a[1..], b, y);
    }
  }

  lemma IndexOfAfter(a: seq<string>, y: string)
    requires y !in a
    ensures IndexOf(a + [y], y) == |a|
    decreases |a|
  {
    if a != [] {
      assert (a + [y])[1..] == a[1..] + [y];
      IndexOfAfter(a[1..], y);
    }
  }

  /** The elements of `xs` that satisfy `keep`, in their order. */
  function Filter(xs: seq<string>, keep: string -> bool): (r: seq<string>)
    ensures forall w :: w in r <==> w in xs && keep(w)
    ensures NoDup(xs) ==> NoDup(r)
    decreases |xs|
  {
    if xs == [] then []
    else
      var rest := Filter(xs[1..], keep);
      if keep(xs[0]) then [xs[0]] + rest else rest
  }

  /** The tail of an ordered list is ordered, and comes after its head. */
  lemma OrderedTail(xs: seq<string>, order: seq<string>)
    requires xs != [] && OrderedBy(xs, order)
    ensures OrderedBy(xs[1..], order)
    ensures forall y :: y in xs[1..] ==> IndexOf(order, xs[0]) < IndexOf(order, y)
  {
    var tail := xs[1..];
    forall i, j | 0 <= i < j < |tail| ensures IndexOf(order, tail[i]) < IndexOf(order, tail[j]) {
      assert tail[i] == xs[i + 1] && tail[j] == xs[j + 1];
    }
    forall y | y in tail ensures IndexOf(order, xs[0]) < IndexOf(order, y) {
      var k :| 0 <= k < |tail| && tail[k] == y;
      assert xs[k + 1] == y;
    }
  }

  /** An element placed before an ordered list of later elements keeps it ordered. */
  lemma OrderedCons(x: string, rest: seq<string>, order: seq<string>)
    requires x in order && OrderedBy(rest, order)
    requires forall y :: y in rest ==> IndexOf(order, x) < IndexOf(order, y)
    ensures OrderedBy([x] + rest, order)
  {
    var r := [x] + rest;
    forall i, j | 0 <= i < j < |r| ensures IndexOf(order, r[i]) < IndexOf(order, r[j]) {
      assert r[j] == rest[j - 1];
      if i > 0 {
        assert r[i] == rest[i - 1];
      }
    }
  }

  /** Filtering keeps the order. */
  lemma {:induction false} FilterOrdered(xs: seq<string>, keep: string -> bool, order: seq<string>)
    requires OrderedBy(xs, order)
    ensures OrderedBy(Filter(xs, keep), order)
    decreases |xs|
  {
    if xs != [] {
      OrderedTail(xs, order);
      FilterOrdered(xs[1..], keep, order);
      if keep(xs[0]) {
        OrderedCons(xs[0], Filter(xs[1..], keep), order);
      }
    }
  }

  /** `ordset.intersection(*names_tokens) - {delim}`: the distinct tokens of the first name,
      in the order first seen, that every name has, except the delimiter. */
  function CommonWords(names: seq<string>, delim: string): (r: seq<string>)
    requires names != []
    ensures NoDup(r)
    ensures forall w :: w in r <==> w != delim && InEvery(w, names)
    ensures OrderedBy(r, Words(names[0]))
  {
    var keep := w => w != delim && InEvery(w, names);
    DedupOrdered(Words(names[0]));
    FilterOrdered(Dedup(Words(names[0])), keep, Words(names[0]));
    Filter(Dedup(Words(names[0])), keep)
  }

  /** `set([common_words[0], common_words[-1]])` in the order it is iterated, which
      Python leaves unspecified: `lastFirst` chooses it. */
  function Candidates(common: seq<string>, lastFirst: bool): (r: seq<string>)
    requires common != []
    ensures forall w :: w in r <==> w == common[0] || w == common[|common| - 1]
  {
    var first, last := common[0], common[|common| - 1];
    if first == last then [first] else if lastFirst then [last, first] else [first, last]
  }

  /** The first candidate the `anywhere` catalog-number pattern matches. */
  function MatchedWord(env: Env, cands: seq<string>): (r: Option<string>)
    ensures r.Some? ==> r.value in cands && env.catnumAnywhere(r.value).Some?
    ensures r.None? ==> forall w :: w in cands ==> env.catnumAnywhere(w).None?
    ensures r.Some? ==> forall j :: 0 <= j < |cands| && cands[j] != r.value && env.catnumAnywhere(cands[j]).Some?
                                    ==> IndexOf(cands, r.value) < j
    decreases |cands|
  {
    if cands == [] then None
    else if env.catnumAnywhere(cands[0]).Some? then Some(cands[0])
    else MatchedWord(env, cands[1..])
  }

  /** The word shared by every name that is taken as the release's catalog number. */
  function CatalogWord(env: Env, names: seq<string>, delim: string, lastFirst: bool): (r: Option<string>)
    requires names != []
    ensures r.Some? ==> InEvery(r.value, names) && r.value != delim && env.catnumAnywhere(r.value).Some?
  {
    var common := CommonWords(names, delim);
    if common == [] then None else MatchedWord(env, Candidates(common, lastFirst))
  }

  /** `" ".join(tokens)` after `tokens.remove(word)`, for one name. */
  function WithoutWord(name: string, word: string): string
    requires word in Words(name)
  {
    Join(RemoveFirst(Words(name), word), " ")
  }

  /** `Tracks.common_catalognum`, as a value: the catalog number and the names. */
  function CatalognumSplit(env: Env, names: seq<string>, delim: string, lastFirst: bool): (r: (string, seq<string>))
    requires names != []
    ensures |r.1| == |names|
  {
    SplitWith(env, names, CatalogWord(env, names, delim, lastFirst))
  }

  /** The result of `common_catalognum` once the catalog word, if any, is known. */
  function SplitWith(env: Env, names: seq<string>, found: Option<string>): (r: (string, seq<string>))
    requires found.Some? ==> InEvery(found.value, names) && env.catnumAnywhere(found.value).Some?
    ensures |r.1| == |names|
  {
    match found
    case None => ("", names)
    case Some(w) =>
      (env.catnumAnywhere(w).value, seq(|names|, i requires 0 <= i < |names| => WithoutWord(names[i], w)))
  }

  /** Removing one token from a name: the name's tokens lose that one occurrence, and
      the rejoined name is in the normal form of single spaces. */
  lemma WithoutWordSpec(name: string, w: string)
    requires w in Words(name)
    ensures Words(WithoutWord(name, w)) == RemoveFirst(Words(name), w)
    ensures multiset(Words(WithoutWord(name, w))) == multiset(Words(name)) - multiset{w}
    ensures WithoutWord(name, w) == Join(Words(WithoutWord(name, w)), " ")
  {
    var ws := Words(name);
    var rest := RemoveFirst(ws, w);
    forall j | 0 <= j < |rest|
      ensures rest[j] != [] && forall c :: 0 <= c < |rest[j]| ==> rest[j][c] !in Whitespace
    {
      assert rest[j] in multiset(ws);
      var k :| 0 <= k < |ws| && ws[k] == rest[j];
    }
    WordsOfJoin(rest);
  }

  /** The catalog word is absent exactly when there is no common word or neither the
      first nor the last one matches; when present it is the first or the last. */
  lemma CatalogWordCases(env: Env, names: seq<string>, delim: string, lastFirst: bool)
    requires names != []
    ensures var common := CommonWords(names, delim);
      var w := CatalogWord(env, names, delim, lastFirst);
      && (w.None? <==> common == [] || (env.catnumAnywhere(common[0]).None? && env.catnumAnywhere(common[|common| - 1]).None?))
      && (w.Some? ==> w.value == common[0] || w.value == common[|common| - 1])
  {
    var common := CommonWords(names, delim);
    if common != [] {
      var cands := Candidates(common, lastFirst);
      if env.catnumAnywhere(common[0]).Some? {
        assert common[0] in cands;
      } else if env.catnumAnywhere(common[|common| - 1]).Some? {
        assert common[|common| - 1] in cands;
      }
    }
  }

  /** What `CatalognumSplit` promises. Without a matching common word the names come
      back as they were and the number is empty. With one, the number is the pattern's
      capture group for that word (the first or the last common word), and each name
      loses exactly one occurrence of it, its other tokens rejoined with single spaces. */
  lemma CatalognumSplitSpec(env: Env, names: seq<string>, delim: string, lastFirst: bool)
    requires names != []
    ensures var (catnum, out) := CatalognumSplit(env, names, delim, lastFirst);
      var word := CatalogWord(env, names, delim, lastFirst);
      && |out| == |names|
      && (word.None? ==> catnum == "" && out == names)
      && (word.Some? ==>
            && catnum == env.catnumAnywhere(word.value).value
            && forall i :: 0 <= i < |names| ==>
                 && out[i] == Join(RemoveFirst(Words(names[i]), word.value), " ")
                 && Words(out[i]) == RemoveFirst(Words(names[i]), word.value)
                 && multiset(Words(out[i])) == multiset(Words(names[i])) - multiset{word.value}
                 && out[i] == Join(Words(out[i]), " "))
  {
    match CatalogWord(env, names, delim, lastFirst)
    case None =>
    case Some(w) =>
      var out := CatalognumSplit(env, names, delim, lastFirst).1;
      forall i | 0 <= i < |names|
        ensures out[i] == Join(RemoveFirst(Words(names[i]), w), " ")
        ensures Words(out[i]) == RemoveFirst(Words(names[i]), w)
        ensures multiset(Words(out[i])) == multiset(Words(names[i])) - multiset{w}
        ensures out[i] == Join(Words(out[i]), " ")
      {
        WithoutWordSpec(names[i], w);
      }
  }

  /** When both the first and the last common word are catalog numbers, the iteration
      order decides which one is taken. */
  lemma CatalognumEitherEnd(env: Env, names: seq<string>, delim: string)
    requires names != []
    requires var common := CommonWords(names, delim);
      common != [] && env.catnumAnywhere(common[0]).Some? && env.catnumAnywhere(common[|common| - 1]).Some?
    ensures var common := CommonWords(names, delim);
      && CatalogWord(env, names, delim, false) == Some(common[0])
      && CatalogWord(env, names, delim, true) == Some(common[|common| - 1])
  {
  }

  /** `Tracks.common_catalognum`: the tokens of the names are computed once, the word is
      removed from each token list in place, and the lists are joined back. */
  method CommonCatalognum(env: Env, names: seq<string>, delim: string, lastFirst: bool)
    returns (catnum: string, out: seq<string>)
    requires names != []
    ensures (catnum, out) == CatalognumSplit(env, names, delim, lastFirst)
  {
    var namesTokens := TokenLists(names);
    var common := CommonWords(names, delim);
    var found: Option<string> := None;
    if common != [] {
      found := SearchCandidates(env, Candidates(common, lastFirst));
    }
    assert found == CatalogWord(env, names, delim, lastFirst);
    if found.Some? {
      var word := found.value;
      namesTokens := RemoveFromEach(namesTokens, word);
      catnum := env.catnumAnywhere(word).value;
      out := seq(|namesTokens|, j requires 0 <= j < |namesTokens| => Join(namesTokens[j], " "));
      SplitWhenMatched(env, names, word, out);
    } else {
      catnum, out := "", names;
    }
    assert CatalognumSplit(env, names, delim, lastFirst) == SplitWith(env, names, found);
  }

  /** `for word in ...: m = CATNUM_PAT["anywhere"].search(word); if m: ...`: the first
      candidate the pattern matches. */
  method SearchCandidates(env: Env, cands: seq<string>) returns (found: Option<string>)
    ensures found == MatchedWord(env, cands)
  {
    var k := 0;
    while k < |cands|
      invariant 0 <= k <= |cands|
      invariant MatchedWord(env, cands) == MatchedWord(env, cands[k..])
    {
      if env.catnumAnywhere(cands[k]).Some? {
        return Some(cands[k]);
      }
      assert cands[k..][1..] == cands[k + 1..];
      k := k + 1;
    }
    return None;
  }

  /** Once a catalog word is found, the split is its catalog number and the names without it. */
  lemma SplitWhenMatched(env: Env, names: seq<string>, word: string, out: seq<string>)
    requires InEvery(word, names) && env.catnumAnywhere(word).Some?
    requires |out| == |names| && forall j :: 0 <= j < |names| ==> out[j] == Join(RemoveFirst(Words(names[j]), word), " ")
    ensures SplitWith(env, names, Some(word)) == (env.catnumAnywhere(word).value, out)
  {
    var spec := SplitWith(env, names, Some(word));
    forall j | 0 <= j < |names| ensures spec.1[j] == out[j] {
      assert spec.1[j] == WithoutWord(names[j], word);
    }
    assert spec.1 == out;
  }

  /** `for tokens in names_tokens: tokens.remove(word)` */
  method RemoveFromEach(lists: seq<seq<string>>, word: string) returns (r: seq<seq<string>>)
    requires forall j :: 0 <= j < |lists| ==> word in lists[j]
    ensures |r| == |lists| && forall j :: 0 <= j < |r| ==> r[j] == RemoveFirst(lists[j], word)
  {
    r := lists;
    var i := 0;
    while i < |r|
      invariant 0 <= i <= |r| == |lists|
      invariant forall j :: 0 <= j < i ==> r[j] == RemoveFirst(lists[j], word)
      invariant forall j :: i <= j < |r| ==> r[j] == lists[j]
    {
      r := r[i := RemoveFirst(r[i], word)];
      i := i + 1;
    }
  }

  // ================================================================ Tracks.from_json

  /** One entry of `meta["track"]["itemListElement"]`. */
  datatype ListElement = ListElement(position: Option<int>, item: Option<JsonItem>)

  /** The keys of a release page's JSON that `Tracks.from_json` reads. */
  datatype ReleaseJson = ReleaseJson(
    page: JsonItem,                       // the page's own keys, the only track of a single
    trackList: Option<seq<ListElement>>,  // ["track"]["itemListElement"]
    albumReleaseLabel: Option<string>,    // ["albumRelease"][0]["recordLabel"]["name"]
    publisherName: Option<string>)        // ["publisher"]["name"]

  /** The track list, or, when the page has none, the page itself at position 1. */
  function Elements(meta: ReleaseJson): (r: seq<ListElement>)
    ensures meta.trackList.Some? ==> r == meta.trackList.value
    ensures meta.trackList.None? ==> r == [ListElement(Some(1), Some(meta.page))]
  {
    if meta.trackList.Some? then meta.trackList.value else [ListElement(Some(1), Some(meta.page))]
  }

  /** `track.update(**track["item"])`: the item's keys, over the element's own `position`. */
  function Merge(e: ListElement): (r: Result<JsonItem>)
    ensures r.Err? <==> e.item.None?
    ensures r.Err? ==> r.error == KeyError("item")
    ensures r.Ok? ==> r.value == e.item.value.(position := r.value.position)
    ensures r.Ok? ==> r.value.position == if e.item.value.position.Some? then e.item.value.position else e.position
  {
    if e.item.None? then Err(KeyError("item"))
    else
      var it := e.item.value;
      Ok(it.(position := if it.position.Some? then it.position else e.position))
  }

  /** The merge loop over all elements, failing at the first element without an item. */
  function MergeAll(es: seq<ListElement>): (r: Result<seq<JsonItem>>)
    ensures r.Ok? <==> forall i :: 0 <= i < |es| ==> es[i].item.Some?
    ensures r.Ok? ==> |r.value| == |es| && forall i :: 0 <= i < |es| ==> Merge(es[i]) == Ok(r.value[i])
    ensures r.Err? ==> r.error == KeyError("item")
  {
    if es == [] then Ok([])
    else
      var head :- Merge(es[0]);
      var tail :- MergeAll(es[1..]);
      assert forall i :: 1 <= i < |es| ==> es[i] == es[1..][i - 1];
      Ok([head] + tail)
  }

  /** The record label: the album release's label, else the publisher; otherwise `KeyError`. */
  function ReleaseLabel(meta: ReleaseJson): (r: Result<string>)
    ensures meta.albumReleaseLabel.Some? ==> r == Ok(meta.albumReleaseLabel.value)
    ensures meta.albumReleaseLabel.None? && meta.publisherName.Some? ==> r == Ok(meta.publisherName.value)
    ensures r.Err? <==> meta.albumReleaseLabel.None? && meta.publisherName.None?
  {
    if meta.albumReleaseLabel.Some? then Ok(meta.albumReleaseLabel.value)
    else if meta.publisherName.Some? then Ok(meta.publisherName.value)
    else Err(KeyError("name"))
  }

  /** `[i["name"] for i in tracks]` */
  function NamesOf(items: seq<JsonItem>): (r: Result<seq<string>>)
    ensures r.Ok? <==> forall i :: 0 <= i < |items| ==> items[i].name.Some?
    ensures r.Ok? ==> |r.value| == |items| && forall i :: 0 <= i < |items| ==> r.value[i] == items[i].name.value
    ensures r.Err? ==> r.error == KeyError("name")
  {
    if forall i :: 0 <= i < |items| ==> items[i].name.Some?
    then Ok(seq(|items|, i requires 0 <= i < |items| => items[i].name.value))
    else Err(KeyError("name"))
  }

  /** `[f(t, n) for t, n in zip(xs, ys)]`, raising the first call's error. */
  function ZipResults<A, B, C>(f: (A, B) -> Result<C>, xs: seq<A>, ys: seq<B>): (r: Result<seq<C>>)
    requires |xs| == |ys|
    ensures r.Ok? <==> forall i :: 0 <= i < |xs| ==> f(xs[i], ys[i]).Ok?
    ensures r.Ok? ==> |r.value| == |xs|
    ensures r.Ok? ==> forall i :: 0 <= i < |xs| ==> f(xs[i], ys[i]) == Ok(r.value[i])
    ensures r.Err? ==>
      exists i :: 0 <= i < |xs| && f(xs[i], ys[i]) == Err(r.error) && forall j :: 0 <= j < i ==> f(xs[j], ys[j]).Ok?
  {
    if xs == [] then Ok([])
    else
      var head :- f(xs[0], ys[0]);
      assert forall i :: 1 <= i < |xs| ==> xs[i] == xs[1..][i - 1] && ys[i] == ys[1..][i - 1];
      var tail :- ZipResults(f, xs[1..], ys[1..]);
      Ok([head] + tail)
  }

  /** The tracks of a release whose items and names are known: the delimiter vote, the
      shared catalog number, and one `Track.from_json` per item. */
  function BuildRelease(env: Env, items: seq<JsonItem>, names: seq<string>, recordLabel: string,
                        lastFirst: bool): (r: Result<seq<Track>>)
    requires |items| == |names| > 0
    ensures var delim := TrackDelimiter(names);
      var split := CatalognumSplit(env, names, delim, lastFirst);
      && (r.Ok? <==> forall i :: 0 <= i < |items| ==> TrackFromJson(env, items[i], split.1[i], delim, split.0, recordLabel).Ok?)
      && (r.Ok? ==> |r.value| == |items| && forall i :: 0 <= i < |items| ==>
            TrackFromJson(env, items[i], split.1[i], delim, split.0, recordLabel) == Ok(r.value[i]))
  {
    var delim := TrackDelimiter(names);
    var split := CatalognumSplit(env, names, delim, lastFirst);
    ZipResults((it, n) => TrackFromJson(env, it, n, delim, split.0, recordLabel), items, split.1)
  }

  /** `Tracks.from_json` as a value. `lastFirst` fixes the order in which the catalog
      number candidates are tried. An empty track list makes `ordset.intersection`
      fail for want of an argument. */
  function ReleaseTracks(env: Env, meta: ReleaseJson, lastFirst: bool): (r: Result<seq<Track>>)
    ensures r.Ok? ==> |r.value| == |Elements(meta)| > 0
  {
    var items :- MergeAll(Elements(meta));
    var recordLabel :- ReleaseLabel(meta);
    var names :- NamesOf(items);
    if names == [] then Err(TypeError) else BuildRelease(env, items, names, recordLabel, lastFirst)
  }

  /** A release's tracks exist exactly when its items, label and names do and the
      build from them succeeds. */
  lemma ReleaseTracksOk(env: Env, meta: ReleaseJson, lastFirst: bool)
    requires ReleaseTracks(env, meta, lastFirst).Ok?
    ensures MergeAll(Elements(meta)).Ok? && ReleaseLabel(meta).Ok?
    ensures NamesOf(MergeAll(Elements(meta)).value).Ok? && NamesOf(MergeAll(Elements(meta)).value).value != []
    ensures ReleaseTracks(env, meta, lastFirst) ==
      BuildRelease(env, MergeAll(Elements(meta)).value, NamesOf(MergeAll(Elements(meta)).value).value,
                   ReleaseLabel(meta).value, lastFirst)
  {
  }

  /** Track `i` of a built release comes from item `i`. */
  lemma BuildReleaseItems(env: Env, items: seq<JsonItem>, names: seq<string>, recordLabel: string,
                          lastFirst: bool, i: nat)
    requires |items| == |names| > 0
    requires BuildRelease(env, items, names, recordLabel, lastFirst).Ok?
    requires i < |items|
    ensures var t := BuildRelease(env, items, names, recordLabel, lastFirst).value[i];
      t.item == items[i] && items[i].id == Some(t.trackId) && items[i].position == Some(t.index) && t.single.None?
  {
    var delim := TrackDelimiter(names);
    var split := CatalognumSplit(env, names, delim, lastFirst);
    var f := (it, n) => TrackFromJson(env, it, n, delim, split.0, recordLabel);
    assert f(items[i], split.1[i]) == Ok(BuildRelease(env, items, names, recordLabel, lastFirst).value[i]);
  }

  /** Track `i` of a release is built from element `i`, merged with its item: its id and
      index are that item's `@id` and `position`, and no track is yet marked single. */
  lemma ReleaseTrackItems(env: Env, meta: ReleaseJson, lastFirst: bool, i: nat)
    requires ReleaseTracks(env, meta, lastFirst).Ok?
    requires i < |ReleaseTracks(env, meta, lastFirst).value|
    ensures var t := ReleaseTracks(env, meta, lastFirst).value[i];
      && Merge(Elements(meta)[i]) == Ok(t.item)
      && t.item.id == Some(t.trackId) && t.item.position == Some(t.index)
      && t.single.None?
  {
    ReleaseTracksOk(env, meta, lastFirst);
    var items := MergeAll(Elements(meta)).value;
    BuildReleaseItems(env, items, NamesOf(items).value, ReleaseLabel(meta).value, lastFirst, i);
  }

  /** A catalog number common to all names is given to every track of a built release. */
  lemma BuildReleaseCatalognum(env: Env, items: seq<JsonItem>, names: seq<string>, recordLabel: string,
                               lastFirst: bool, i: nat)
    requires |items| == |names| > 0
    requires BuildRelease(env, items, names, recordLabel, lastFirst).Ok?
    requires i < |items|
    ensures var c := CatalognumSplit(env, names, TrackDelimiter(names), lastFirst).0;
      c != "" ==> BuildRelease(env, items, names, recordLabel, lastFirst).value[i].catalognum == c
  {
    var delim := TrackDelimiter(names);
    var split := CatalognumSplit(env, names, delim, lastFirst);
    var f := (it, n) => TrackFromJson(env, it, n, delim, split.0, recordLabel);
    assert f(items[i], split.1[i]) == Ok(BuildRelease(env, items, names, recordLabel, lastFirst).value[i]);
  }

  /** The names a release's tracks are parsed from, when every element has an item and a name. */
  function ReleaseNames(meta: ReleaseJson): (r: Option<seq<string>>)
    ensures r.Some? ==> MergeAll(Elements(meta)).Ok? && |r.value| == |Elements(meta)|
  {
    var items := MergeAll(Elements(meta));
    if items.Err? then None
    else
      var names := NamesOf(items.value);
      if names.Err? then None else Some(names.value)
  }

  /** When the track names share a catalog number word, every track carries its catalog number. */
  lemma ReleaseCatalognum(env: Env, meta: ReleaseJson, lastFirst: bool, i: nat)
    requires ReleaseTracks(env, meta, lastFirst).Ok?
    requires i < |ReleaseTracks(env, meta, lastFirst).value|
    ensures ReleaseNames(meta).Some? && ReleaseNames(meta).value != []
    ensures var names := ReleaseNames(meta).value;
      var c := CatalognumSplit(env, names, TrackDelimiter(names), lastFirst).0;
      c != "" ==> ReleaseTracks(env, meta, lastFirst).value[i].catalognum == c
  {
    ReleaseTracksOk(env, meta, lastFirst);
    var items := MergeAll(Elements(meta)).value;
    BuildReleaseCatalognum(env, items, NamesOf(items).value, ReleaseLabel(meta).value, lastFirst, i);
  }

  /** A page without a track list is a single: one track, built from the page itself,
      at the page's own position or else position 1. */
  lemma SingleFallback(env: Env, meta: ReleaseJson, lastFirst: bool)
    requires meta.trackList.None?
    requires ReleaseTracks(env, meta, lastFirst).Ok?
    ensures |ReleaseTracks(env, meta, lastFirst).value| == 1
    ensures var t := ReleaseTracks(env, meta, lastFirst).value[0];
      t.item == meta.page.(position := t.item.position)
      && t.index == (if meta.page.position.Some? then meta.page.position.value else 1)
  {
    ReleaseTrackItems(env, meta, lastFirst, 0);
  }

  /** An empty track list fails in `common_catalognum` with a `TypeError`, once the label is found. */
  lemma EmptyTrackList(env: Env, meta: ReleaseJson, lastFirst: bool)
    requires meta.trackList == Some([])
    requires meta.albumReleaseLabel.Some? || meta.publisherName.Some?
    ensures ReleaseTracks(env, meta, lastFirst) == Err(TypeError)
  {
    assert MergeAll(Elements(meta)) == Ok([]);
  }

  /** A list element without an item fails the merge with `KeyError("item")`. */
  lemma MissingItem(env: Env, meta: ReleaseJson, lastFirst: bool, i: nat)
    requires i < |Elements(meta)| && Elements(meta)[i].item.None?
    ensures ReleaseTracks(env, meta, lastFirst) == Err(KeyError("item"))
  {
  }

  /** `Tracks.from_json`: merge every element with its item in turn, find the label,
      strip the shared catalog number from the names and build one track per element. */
  method TracksFromJson(env: Env, meta: ReleaseJson, lastFirst: bool) returns (r: Result<seq<Track>>)
    ensures r == ReleaseTracks(env, meta, lastFirst)
  {
    var elements := Elements(meta);
    var items: seq<JsonItem> := [];
    for i := 0 to |elements|
      invariant |items| == i
      invariant forall j :: 0 <= j < i ==> Merge(elements[j]) == Ok(items[j])
    {
      var merged := Merge(elements[i]);
      if merged.Err? {
        MergeFails(elements, i);
        return Err(merged.error);
      }
      items := items + [merged.value];
    }
    MergeSucceeds(elements, items);
    var recordLabel := ReleaseLabel(meta);
    if recordLabel.Err? {
      return Err(recordLabel.error);
    }
    var names := NamesOf(items);
    if names.Err? {
      return Err(names.error);
    }
    if names.value == [] {
      return Err(TypeError);
    }
    var delim := TrackDelimiter(names.value);
    var catnum, cleaned := CommonCatalognum(env, names.value, delim, lastFirst);
    r := ZipEach((it, n) => TrackFromJson(env, it, n, delim, catnum, recordLabel.value), items, cleaned);
  }

  /** The list comprehension over `zip(xs, ys)`, stopping at the first call that raises. */
  method ZipEach<A, B, C>(f: (A, B) -> Result<C>, xs: seq<A>, ys: seq<B>) returns (r: Result<seq<C>>)
    requires |xs| == |ys|
    ensures r == ZipResults(f, xs, ys)
  {
    var built: seq<C> := [];
    for i := 0 to |xs|
      invariant |built| == i
      invariant forall j :: 0 <= j < i ==> f(xs[j], ys[j]) == Ok(built[j])
    {
      var c := f(xs[i], ys[i]);
      if c.Err? {
        ZipFails(f, xs, ys, i);
        return Err(c.error);
      }
      built := built + [c.value];
    }
    ZipSucceeds(f, xs, ys, built);
    r := Ok(built);
  }

  /** MergeAll fails with the first failing element's error. */
  lemma {:induction false} MergeFails(es: seq<ListElement>, i: nat)
    requires i < |es| && Merge(es[i]).Err?
    ensures MergeAll(es) == Err(Merge(es[i]).error)
  {
  }

  /** MergeAll succeeds with the merged elements when every merge does. */
  lemma MergeSucceeds(es: seq<ListElement>, items: seq<JsonItem>)
    requires |items| == |es| && forall j :: 0 <= j < |es| ==> Merge(es[j]) == Ok(items[j])
    ensures MergeAll(es) == Ok(items)
  {
  }

  /** ZipResults fails with the first failing call's error. */
  lemma {:induction false} ZipFails<A, B, C>(f: (A, B) -> Result<C>, xs: seq<A>, ys: seq<B>, i: nat)
    requires |xs| == |ys| && i < |xs| && f(xs[i], ys[i]).Err?
    requires forall j :: 0 <= j < i ==> f(xs[j], ys[j]).Ok?
    ensures ZipResults(f, xs, ys) == Err(f(xs[i], ys[i]).error)
  {
    if i > 0 {
      ZipFails(f, xs[1..], ys[1..], i - 1);
    }
  }

  /** ZipResults succeeds with the results when every call does. */
  lemma ZipSucceeds<A, B, C>(f: (A, B) -> Result<C>, xs: seq<A>, ys: seq<B>, zs: seq<C>)
    requires |xs| == |ys| == |zs| && forall j :: 0 <= j < |xs| ==> f(xs[j], ys[j]) == Ok(zs[j])
    ensures ZipResults(f, xs, ys) == Ok(zs)
    decreases |xs|
  {
    if xs != [] {
      ZipSucceeds(f, xs[1..], ys[1..], zs[1..]);
      assert zs == [zs[0]] + zs[1..];
    }
  }

  // ================================================================ the Tracks list

  /** `it.chain(*lists)` */
  function Chain(lists: seq<seq<string>>): (r: seq<string>)
    ensures forall a :: a in r <==> exists i :: 0 <= i < |lists| && a in lists[i]
    decreases |lists|
  {
    if lists == [] then []
    else
      var init := lists[..|lists| - 1];
      assert forall i :: 0 <= i < |init| ==> init[i] == lists[i];
      Chain(init) + lists[|lists| - 1]
  }

  /** `len([a for a in xs if a])` */
  function CountNonEmpty(xs: seq<string>): (n: nat)
    ensures n <= |xs|
    decreases |xs|
  {
    if xs == [] then 0
    else CountNonEmpty(xs[..|xs| - 1]) + (if xs[|xs| - 1] != "" then 1 else 0)
  }

  /** One empty string leaves at most `len - 1` non-empty ones. */
  lemma {:induction false} CountOneEmpty(xs: seq<string>, i: nat)
    requires i < |xs| && xs[i] == ""
    ensures CountNonEmpty(xs) <= |xs| - 1
    decreases |xs|
  {
    var init := xs[..|xs| - 1];
    if i < |xs| - 1 {
      assert init[i] == xs[i];
      CountOneEmpty(init, i);
    }
  }

  /** Two empty strings at distinct places leave at most `len - 2` non-empty ones. */
  lemma {:induction false} CountTwoEmpty(xs: seq<string>, i: nat, j: nat)
    requires i < j < |xs| && xs[i] == "" && xs[j] == ""
    ensures CountNonEmpty(xs) <= |xs| - 2
    decreases |xs|
  {
    var init := xs[..|xs| - 1];
    assert init[i] == xs[i];
    if j < |xs| - 1 {
      assert init[j] == xs[j];
      CountTwoEmpty(init, i, j);
    } else {
      CountOneEmpty(init, i);
    }
  }

  /** Exactly one of the artists is empty: `len(artists) == count - 1` in `adjust_artists`. */
  predicate OnlyOneMissing(artists: seq<string>) {
    CountNonEmpty(artists) == |artists| - 1
  }

  /** The exception `adjust_artists` raises at a track whose `artist` property reads
      `artist` and whose `title` splits at `"-"` into `split`. The relaxed split is tried
      only on a track without an artist when it is the only such track (`onlyFailure`);
      two parts unpack and then fail on assigning `title`, which has no setter; three or
      more parts fail to unpack. */
  function AdjustError(artist: string, split: seq<string>, onlyFailure: bool): (e: Option<PyError>)
    ensures e.Some? <==> artist == "" && onlyFailure && |split| > 1
  {
    if artist == "" && onlyFailure && |split| > 1 then Some(if |split| == 2 then AttributeError else ValueError)
    else None
  }

  /** The track after its step of `adjust_artists`: `single` is set; a track without an
      artist takes the first of two split parts as its artist (just before the pass
      raises), or else the album artist unless three or more parts made it raise. */
  function AdjustTrack(t: Track, artist: string, split: seq<string>, aartist: string, single: bool,
                       onlyFailure: bool): (r: Track)
    ensures r == t.(single := Some(single), rawArtist := r.rawArtist)
    ensures artist != "" ==> r.rawArtist == t.rawArtist
    ensures AdjustError(artist, split, onlyFailure).Some? ==>
              r.rawArtist == (if |split| == 2 then split[0] else t.rawArtist)
    ensures artist == "" && AdjustError(artist, split, onlyFailure).None? ==> r.rawArtist == aartist
  {
    var t1 := t.(single := Some(single));
    if artist != "" then t1
    else if onlyFailure && |split| > 1 then (if |split| == 2 then t1.(rawArtist := split[0]) else t1)
    else t1.(rawArtist := aartist)
  }

  /** Setting `single` changes neither the artist nor the title of a track. */
  lemma SingleIrrelevant(env: Env, t: Track, single: Option<bool>)
    ensures Artist(env, t.(single := single)) == Artist(env, t)
    ensures Title(env, t.(single := single)) == Title(env, t)
  {
    var u := t.(single := single);
    assert NoDigiName(env, u) == NoDigiName(env, t);
    assert Name(env, u) == Name(env, t);
  }

  /** The first index from `from` on at which the pass raises. */
  function FirstRaise(artists: seq<string>, splits: seq<seq<string>>, onlyFailure: bool, from: nat): (r: Option<nat>)
    requires |artists| == |splits| && from <= |artists|
    ensures r.None? ==> forall j :: from <= j < |artists| ==> AdjustError(artists[j], splits[j], onlyFailure).None?
    ensures r.Some? ==> from <= r.value < |artists| && AdjustError(artists[r.value], splits[r.value], onlyFailure).Some?
    ensures r.Some? ==> forall j :: from <= j < r.value ==> AdjustError(artists[j], splits[j], onlyFailure).None?
    decreases |artists| - from
  {
    if from == |artists| then None
    else if AdjustError(artists[from], splits[from], onlyFailure).Some? then Some(from)
    else FirstRaise(artists, splits, onlyFailure, from + 1)
  }

  /** How `adjust_artists` ends: normally, or by the exception raised at one track. */
  datatype AdjustOutcome = Adjusted | Raised(at: nat, error: PyError)

  /** The pass of `adjust_artists` over tracks `ts` whose artists and title splits are
      `artists` and `splits`: every track up to and including the first one that raises
      takes its step, the rest are left as they were. */
  function AdjustPass(ts: seq<Track>, artists: seq<string>, splits: seq<seq<string>>, aartist: string,
                      single: bool): (r: (seq<Track>, AdjustOutcome))
    requires |artists| == |splits| == |ts|
    ensures |r.0| == |ts|
    ensures forall j :: 0 <= j < |ts| ==> r.0[j] == ts[j].(single := r.0[j].single, rawArtist := r.0[j].rawArtist)
    ensures r.1.Adjusted? <==> forall j :: 0 <= j < |ts| ==> AdjustError(artists[j], splits[j], OnlyOneMissing(artists)).None?
    ensures r.1.Raised? ==> r.1.at < |ts| && AdjustError(artists[r.1.at], splits[r.1.at], OnlyOneMissing(artists)) == Some(r.1.error)
  {
    var only := OnlyOneMissing(artists);
    var stop := FirstRaise(artists, splits, only, 0);
    var done := if stop.None? then |ts| else stop.value + 1;
    (seq(|ts|, j requires 0 <= j < |ts| =>
       if j < done then AdjustTrack(ts[j], artists[j], splits[j], aartist, single, only) else ts[j]),
     if stop.None? then Adjusted else Raised(stop.value, AdjustError(artists[stop.value], splits[stop.value], only).value))
  }

  /** A pass that raises first at `at` has stepped the tracks up to `at` and no further. */
  lemma AdjustPassRaised(ts: seq<Track>, artists: seq<string>, splits: seq<seq<string>>, aartist: string,
                         single: bool, at: nat, newTracks: seq<Track>)
    requires |artists| == |splits| == |ts| == |newTracks| && at < |ts|
    requires var only := OnlyOneMissing(artists);
      && (forall j :: 0 <= j < at ==> AdjustError(artists[j], splits[j], only).None?)
      && AdjustError(artists[at], splits[at], only).Some?
      && (forall j :: 0 <= j <= at ==> newTracks[j] == AdjustTrack(ts[j], artists[j], splits[j], aartist, single, only))
      && (forall j :: at < j < |ts| ==> newTracks[j] == ts[j])
    ensures AdjustPass(ts, artists, splits, aartist, single) ==
      (newTracks, Raised(at, AdjustError(artists[at], splits[at], OnlyOneMissing(artists)).value))
  {
    var only := OnlyOneMissing(artists);
    assert FirstRaise(artists, splits, only, 0) == Some(at);
    var r := AdjustPass(ts, artists, splits, aartist, single);
    assert forall j :: 0 <= j < |ts| ==> r.0[j] == newTracks[j];
    assert r.0 == newTracks;
  }

  /** A pass in which no track raises has stepped every track. */
  lemma AdjustPassDone(ts: seq<Track>, artists: seq<string>, splits: seq<seq<string>>, aartist: string,
                       single: bool, newTracks: seq<Track>)
    requires |artists| == |splits| == |ts| == |newTracks|
    requires var only := OnlyOneMissing(artists);
      && (forall j :: 0 <= j < |ts| ==> AdjustError(artists[j], splits[j], only).None?)
      && (forall j :: 0 <= j < |ts| ==> newTracks[j] == AdjustTrack(ts[j], artists[j], splits[j], aartist, single, only))
    ensures AdjustPass(ts, artists, splits, aartist, single) == (newTracks, Adjusted)
  {
    var only := OnlyOneMissing(artists);
    assert FirstRaise(artists, splits, only, 0).None?;
    var r := AdjustPass(ts, artists, splits, aartist, single);
    assert forall j :: 0 <= j < |ts| ==> r.0[j] == newTracks[j];
    assert r.0 == newTracks;
  }

  /** Every track the pass reaches gets `single`; when the pass raises at `at`, the
      tracks after it are left as they were. */
  lemma AdjustSetsSingle(ts: seq<Track>, artists: seq<string>, splits: seq<seq<string>>, aartist: string,
                         single: bool, j: nat)
    requires |artists| == |splits| == |ts| && j < |ts|
    ensures var r := AdjustPass(ts, artists, splits, aartist, single);
      if r.1.Raised? && r.1.at < j then r.0[j] == ts[j] else r.0[j].single == Some(single)
  {
  }

  /** A track that already has an artist only gets `single`. */
  lemma AdjustKeepsArtist(ts: seq<Track>, artists: seq<string>, splits: seq<seq<string>>, aartist: string,
                          single: bool, j: nat)
    requires |artists| == |splits| == |ts| && j < |ts| && artists[j] != ""
    ensures var r := AdjustPass(ts, artists, splits, aartist, single);
      r.0[j] == if r.1.Raised? && r.1.at < j then ts[j] else ts[j].(single := Some(single))
  {
  }

  /** When more than one track lacks an artist (or none does), the relaxed split is never
      tried, so the pass never raises. */
  lemma AdjustNeverRaises(ts: seq<Track>, artists: seq<string>, splits: seq<seq<string>>, aartist: string,
                          single: bool)
    requires |artists| == |splits| == |ts| && !OnlyOneMissing(artists)
    ensures AdjustPass(ts, artists, splits, aartist, single).1 == Adjusted
  {
    assert FirstRaise(artists, splits, false, 0).None?;
  }

  /** A pass that ends normally gives every track without an artist the album artist. */
  lemma AdjustFallsBack(ts: seq<Track>, artists: seq<string>, splits: seq<seq<string>>, aartist: string,
                        single: bool, j: nat)
    requires |artists| == |splits| == |ts| && j < |ts| && artists[j] == ""
    requires AdjustPass(ts, artists, splits, aartist, single).1 == Adjusted
    ensures AdjustPass(ts, artists, splits, aartist, single).0[j]
      == ts[j].(single := Some(single), rawArtist := aartist)
  {
    var only := OnlyOneMissing(artists);
    assert AdjustError(artists[j], splits[j], only).None?;
  }

  /** The pass raises only at the one track without an artist, when every other track has
      one and the title splits at `"-"` into more than one part: with two parts the track
      has taken the first as its artist and the error is an `AttributeError`, with more
      it is a `ValueError`. */
  lemma AdjustRaises(ts: seq<Track>, artists: seq<string>, splits: seq<seq<string>>, aartist: string,
                     single: bool)
    requires |artists| == |splits| == |ts|
    requires AdjustPass(ts, artists, splits, aartist, single).1.Raised?
    ensures var r := AdjustPass(ts, artists, splits, aartist, single);
      var at := r.1.at;
      && at < |ts| && artists[at] == "" && |splits[at]| > 1
      && (forall j :: 0 <= j < |ts| && j != at ==> artists[j] != "")
      && (r.1.error == AttributeError <==> |splits[at]| == 2)
      && (r.1.error == ValueError <==> |splits[at]| > 2)
      && (|splits[at]| == 2 ==> r.0[at].rawArtist == splits[at][0])
      && (|splits[at]| > 2 ==> r.0[at].rawArtist == ts[at].rawArtist)
  {
    var only := OnlyOneMissing(artists);
    var at := FirstRaise(artists, splits, only, 0).value;
    assert AdjustError(artists[at], splits[at], only).Some?;
    forall j | 0 <= j < |ts| && j != at
      ensures artists[j] != ""
    {
      if artists[j] == "" {
        if j < at { CountTwoEmpty(artists, j, at); } else { CountTwoEmpty(artists, at, j); }
      }
    }
  }

  /** `[t.artist for t in ts]` */
  function ArtistsOf(env: Env, ts: seq<Track>): (r: seq<string>)
    ensures |r| == |ts|
  {
    seq(|ts|, j requires 0 <= j < |ts| => Artist(env, ts[j]))
  }

  /** `[t.title.split("-") for t in ts]` */
  function TitleSplits(env: Env, ts: seq<Track>): (r: seq<seq<string>>)
    ensures |r| == |ts|
  {
    seq(|ts|, j requires 0 <= j < |ts| => Split(Title(env, ts[j]), "-"))
  }

  /** `(j.artists for j in ts)` */
  function ArtistLists(env: Env, ts: seq<Track>): (r: seq<seq<string>>)
    ensures |r| == |ts|
  {
    seq(|ts|, j requires 0 <= j < |ts| => TrackModel.Artists(env, ts[j]))
  }

  /** `adjust_artists` as a value: the new tracks and how the pass ended. */
  function AdjustAll(env: Env, ts: seq<Track>, aartist: string, single: bool): (r: (seq<Track>, AdjustOutcome))
    ensures |r.0| == |ts|
  {
    AdjustPass(ts, ArtistsOf(env, ts), TitleSplits(env, ts), aartist, single)
  }

  /** The list of tracks of one release, updated in place by `adjust_artists`. */
  class TrackList {
    var tracks: seq<Track>

    constructor (ts: seq<Track>)
      ensures tracks == ts
    {
      tracks := ts;
    }

    /** `Tracks.artists` (and `raw_artists`, which is the same): every track's artists,
        in order, without repetition. */
    function Artists(env: Env): (r: seq<string>)
      reads this
      ensures NoDup(r)
      ensures forall a :: a in r <==> exists i :: 0 <= i < |tracks| && a in ArtistLists(env, tracks)[i]
      ensures OrderedBy(r, Chain(ArtistLists(env, tracks)))
    {
      DedupOrdered(Chain(ArtistLists(env, tracks)));
      Dedup(Chain(ArtistLists(env, tracks)))
    }

    /** `Tracks.raw_names` */
    function RawNames(env: Env): (r: seq<string>)
      reads this
      ensures |r| == |tracks|
      ensures forall i :: 0 <= i < |tracks| ==> r[i] == Name(env, tracks[i])
      ensures forall i :: 0 <= i < |r| ==> r[i] == [] || (r[i][0] !in Whitespace && r[i][|r[i]| - 1] !in Whitespace)
    {
      seq(|tracks|, i requires 0 <= i < |tracks| reads this => Name(env, tracks[i]))
    }

    /** `Tracks.raw_remixers`: the non-empty remixers and featured artists of all tracks. */
    function RawRemixers(): (r: set<string>)
      reads this
      ensures forall x :: x in r <==>
        x != "" && exists i :: 0 <= i < |tracks| && (tracks[i].remixer == x || tracks[i].ft == x)
    {
      (set i | 0 <= i < |tracks| && tracks[i].remixer != "" :: tracks[i].remixer)
      + (set i | 0 <= i < |tracks| && tracks[i].ft != "" :: tracks[i].ft)
    }

    /** `Tracks.adjust_artists`: mark every track single or not, give artist-less tracks
        the album artist, after trying the relaxed split on the one track without an
        artist when it is the only one. */
    method AdjustArtists(env: Env, aartist: string, single: bool) returns (outcome: AdjustOutcome)
      modifies this
      ensures (tracks, outcome) == AdjustAll(env, old(tracks), aartist, single)
    {
      // a track's step touches only that track, so every artist and title the pass
      // reads is the one the track had before the pass (and `single` affects neither)
      var artists := ArtistsOf(env, tracks);
      var splits := TitleSplits(env, tracks);
      outcome := Pass(artists, splits, aartist, single);
    }

    /** The loop of `adjust_artists`, over tracks with the given artists and title splits. */
    method Pass(artists: seq<string>, splits: seq<seq<string>>, aartist: string, single: bool)
      returns (outcome: AdjustOutcome)
      requires |artists| == |splits| == |tracks|
      modifies this
      ensures (tracks, outcome) == AdjustPass(old(tracks), artists, splits, aartist, single)
    {
      ghost var ts := tracks;
      var onlyFailure := OnlyOneMissing(artists);
      var i := 0;
      while i < |tracks|
        invariant 0 <= i <= |tracks| == |ts| == |artists| == |splits|
        invariant forall j :: 0 <= j < i ==>
          tracks[j] == AdjustTrack(ts[j], artists[j], splits[j], aartist, single, onlyFailure)
        invariant forall j :: 0 <= j < i ==> AdjustError(artists[j], splits[j], onlyFailure).None?
        invariant forall j :: i <= j < |tracks| ==> tracks[j] == ts[j]
      {
        var error := AdjustError(artists[i], splits[i], onlyFailure);
        tracks := tracks[i := AdjustTrack(tracks[i], artists[i], splits[i], aartist, single, onlyFailure)];
        if error.Some? {
          outcome := Raised(i, error.value);
          AdjustPassRaised(ts, artists, splits, aartist, single, i, tracks);
          return;
        }
        i := i + 1;
      }
      AdjustPassDone(ts, artists, splits, aartist, single, tracks);
      outcome := Adjusted;
    }
  }
}
