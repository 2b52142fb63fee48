/** One track: `Track.from_json`, `Track.parse_name` and the views derived from a parsed track. */
module TrackModel {
  import opened Outcomes
  import opened Strings
  import opened Patterns

  /** The keys of one track's JSON that the parser reads; `None` when a key on the path is missing. */
  datatype JsonItem = JsonItem(
    id: Option<string>,            // ["@id"]
    position: Option<int>,         // ["position"]
    name: Option<string>,          // ["name"]
    inAlbumArtist: Option<string>, // ["inAlbum"]["byArtist"]["name"]
    byArtist: Option<string>,      // ["byArtist"]["name"]
    duration: Option<string>,      // ["duration"]
    lyrics: Option<string>)        // ["recordingOf"]["lyrics"]["text"]

  /** The fields `parse_name` writes into its `data` dictionary; `name` is `_name` (the working name). */
  datatype Parsed = Parsed(
    name: string, artist: string, ft: string, album: string,
    catalognum: string, remixer: string, trackAlt: Option<string>)

  /** The `Track` dataclass. `rawName` and `rawArtist` are `_name` and `_artist`. */
  datatype Track = Track(
    item: JsonItem, trackId: string, index: int,
    rawName: string, rawArtist: string, ft: string, album: string,
    catalognum: string, remixer: string,
    single: Option<bool>, trackAlt: Option<string>)

  // ================================================================ parse_name, step by step

  /** `name.replace(f" {delim} ", " - ")`: Python's `" - ".join(name.split(f" {delim} "))`,
      which with the usual delimiter `-` changes nothing. */
  function ReplaceDelimiter(name: string, delim: string): (r: string)
    ensures r == Join(Split(name, " " + delim + " "), " - ")
    ensures delim == "-" ==> r == name
  {
    ReplaceIsSplitJoin(name, " " + delim + " ", " - ");
    if delim == "-" then
      assert " " + delim + " " == " - ";
      ReplaceBySelf(name, " - ");
      ReplaceAll(name, " " + delim + " ", " - ")
    else
      ReplaceAll(name, " " + delim + " ", " - ")
  }

  /** `if name.endswith(recordLabel): name = name.replace(recordLabel, "").strip(" -")`.
      Every name ends with the empty label, so an empty label still strips `" -"`. */
  function StripLabel(name: string, recordLabel: string): (r: string)
    ensures !EndsWith(name, recordLabel) ==> r == name
    ensures recordLabel == "" ==> r == Strip(name, " -")
    ensures recordLabel != "" && EndsWith(name, recordLabel) ==>
              r == Strip(Join(Split(name, recordLabel), ""), " -")
  {
    if recordLabel != "" then ReplaceIsSplitJoin(name, recordLabel, ""); StripLabelBody(name, recordLabel)
    else StripLabelBody(name, recordLabel)
  }

  function StripLabelBody(name: string, recordLabel: string): string {
    if EndsWith(name, recordLabel) then Strip(Remove(name, recordLabel), " -") else name
  }

  /** The cleanup rules applied to the name and the artist together, rule by rule. This
      gives the same fields as all rules on the name, then all rules on the artist: the
      rules are pure functions of one string. */
  function CleanLockStep(rules: seq<string -> string>, p: Parsed): (r: Parsed)
    ensures r == p.(name := ApplyRules(rules, p.name), artist := ApplyRules(rules, p.artist))
    decreases |rules|
  {
    if rules == [] then p
    else CleanLockStep(rules[1..], p.(name := rules[0](p.name), artist := rules[0](p.artist)))
  }

  /** `name.strip().lstrip("-")`: a tail of the stripped name, with only dashes cut from
      its front, not starting with `-` and not ending in whitespace. */
  function TrimName(p: Parsed): (r: Parsed)
    ensures r == p.(name := r.name)
    ensures EndsWith(Strip(p.name, Whitespace), r.name)
    ensures var s := Strip(p.name, Whitespace); forall i :: 0 <= i < |s| - |r.name| ==> s[i] == '-'
    ensures r.name == [] || (r.name[0] != '-' && r.name[|r.name| - 1] !in Whitespace)
  {
    p.(name := LStrip(Strip(p.name, Whitespace), "-"))
  }

  /** The track-alt step touches only the name and the track alt. */
  function TrackAltStep(env: Env, p: Parsed): (r: Parsed)
    ensures r == p.(name := r.name, trackAlt := r.trackAlt)
    ensures env.trackAlt(p.name).None? ==> r == p
    ensures env.trackAlt(p.name).Some? ==> r.trackAlt == Some(env.trackAlt(p.name).value.group)
    ensures env.trackAlt(p.name).Some? ==> r.name == Remove(p.name, env.trackAlt(p.name).value.whole)
  {
    match env.trackAlt(p.name)
    case None => p
    case Some(m) => p.(trackAlt := Some(m.group), name := Remove(p.name, m.whole))
  }

  /** The name is searched for a catalog number only when none was given, and the step
      touches only the name and the catalog number. */
  function CatalognumStep(env: Env, p: Parsed): (r: Parsed)
    ensures r == p.(name := r.name, catalognum := r.catalognum)
    ensures p.catalognum != "" ==> r == p
    ensures p.catalognum == "" ==>
      r.catalognum == (if env.catnumDelimited(p.name).Some? then env.catnumDelimited(p.name).value.group else "")
    ensures p.catalognum == "" && env.catnumDelimited(p.name).Some? ==>
      r.name == Remove(p.name, env.catnumDelimited(p.name).value.whole)
  {
    if p.catalognum != "" then p
    else
      match env.catnumDelimited(p.name)
      case None => p
      case Some(m) => p.(catalognum := m.group, name := Remove(p.name, m.whole))
  }

  /** The index step keeps a tail of the name and nothing else changes. */
  function IndexStep(p: Parsed, index: int): (r: Parsed)
    ensures r == p.(name := r.name)
    ensures EndsWith(p.name, r.name)
  {
    p.(name := StripIndex(p.name, index))
  }

  /** The remixer is recorded; the name keeps the annotation. */
  function RemixerStep(env: Env, p: Parsed): (r: Parsed)
    ensures r == p.(remixer := r.remixer)
    ensures env.remixer(p.name).None? ==> r == p
    ensures env.remixer(p.name).Some? ==> r.remixer == env.remixer(p.name).value.group
  {
    match env.remixer(p.name)
    case None => p
    case Some(m) => p.(remixer := m.group)
  }

  /** The album step touches only the name and the album. */
  function AlbumStep(env: Env, p: Parsed): (r: Parsed)
    ensures r == p.(name := r.name, album := r.album)
    ensures env.elpAlbum(p.name).None? ==> r == p
    ensures env.elpAlbum(p.name).Some? ==> r.album == env.elpAlbum(p.name).value.group
    ensures env.elpAlbum(p.name).Some? ==> r.name == Remove(p.name, env.elpAlbum(p.name).value.whole)
  {
    match env.elpAlbum(p.name)
    case None => p
    case Some(m) => p.(album := m.group, name := Remove(p.name, m.whole))
  }

  /** After the matched span was removed from one field: keep the featured artist
      unless the artist field already names them. */
  function TakeFeaturing(p: Parsed, m: Match): Parsed {
    if Contains(p.artist, Strip(m.group, Whitespace)) then p
    else p.(ft := Strip(m.whole, " ([])"))
  }

  /** The featuring search: the name first, then the artist, stopping at the first match. */
  function FeaturingStep(env: Env, p: Parsed): (r: Parsed)
    ensures r == p.(name := r.name, artist := r.artist, ft := r.ft)
  {
    match env.featuring(p.name)
    case Some(m) => TakeFeaturing(p.(name := Remove(p.name, RStrip(m.whole, Whitespace))), m)
    case None =>
      match env.featuring(p.artist)
      case Some(m) => TakeFeaturing(p.(artist := Remove(p.artist, RStrip(m.whole, Whitespace))), m)
      case None => p
  }

  /** The record `parse_name` starts from: the name after the delimiter and recordLabel steps. */
  function Initial(name: string, delim: string, recordLabel: string, artist: string, catalognum: string): Parsed {
    Parsed(StripLabel(ReplaceDelimiter(name, delim), recordLabel), artist, "", "", catalognum, "", None)
  }

  /** The working record when the catalog-number search runs. */
  function BeforeCatalognum(env: Env, name: string, delim: string, recordLabel: string, artist: string, catalognum: string): Parsed {
    TrackAltStep(env, TrimName(CleanLockStep(env.cleanRules, Initial(name, delim, recordLabel, artist, catalognum))))
  }

  /** `parse_name` as a pipeline of steps, in the source's order. A catalog number
      passed in survives parsing; otherwise it is the delimited pattern's capture in the
      name as it stood after the track-alt step, or empty. */
  function ParseNameSteps(env: Env, name: string, delim: string, recordLabel: string,
                          artist: string, catalognum: string, index: int): (r: Parsed)
    ensures catalognum != "" ==> r.catalognum == catalognum
    ensures catalognum == "" ==>
      var m := env.catnumDelimited(BeforeCatalognum(env, name, delim, recordLabel, artist, catalognum).name);
      r.catalognum == (if m.Some? then m.value.group else "")
  {
    var p3 := CatalognumStep(env, BeforeCatalognum(env, name, delim, recordLabel, artist, catalognum));
    var p6 := AlbumStep(env, RemixerStep(env, IndexStep(p3, index)));
    assert p6.catalognum == p3.catalognum;
    FeaturingStep(env, p6)
  }

  /** `Track.parse_name`: the name is reassigned step by step and the fields are
      written one by one; the featuring search loops over `_name`, then `_artist`. */
  method ParseName(env: Env, name0: string, delim: string, recordLabel: string,
                   artist: string, catalognum: string, index: int) returns (data: Parsed)
    ensures data == ParseNameSteps(env, name0, delim, recordLabel, artist, catalognum, index)
  {
    var name := ReplaceDelimiter(name0, delim);
    if EndsWith(name, recordLabel) {
      name := Strip(Remove(name, recordLabel), " -");
    }
    data := Parsed("", artist, "", "", catalognum, "", None);
    ghost var start := data.(name := name);
    assert start == Initial(name0, delim, recordLabel, artist, catalognum);
    name, data := CleanFields(env.cleanRules, name, data);
    name := LStrip(Strip(name, Whitespace), "-");
    assert data.(name := name) == TrimName(CleanLockStep(env.cleanRules, start));
    data := ExtractFields(env, name, data, index);
    data := FindFeaturing(env, data);
  }

  /** The extraction steps between the cleanup and the featuring search: track alt,
      catalog number (only when none is known), leading index, remixer, album. */
  method ExtractFields(env: Env, name0: string, data0: Parsed, index: int) returns (data: Parsed)
    ensures data == AlbumStep(env, RemixerStep(env, IndexStep(CatalognumStep(env,
                      TrackAltStep(env, data0.(name := name0))), index)))
  {
    var name := name0;
    data := data0;
    var m := env.trackAlt(name);
    if m.Some? {
      data := data.(trackAlt := Some(m.value.group));
      name := Remove(name, m.value.whole);
    }
    ghost var p2 := TrackAltStep(env, data0.(name := name0));
    assert data.(name := name) == p2;
    if data.catalognum == "" {
      m := env.catnumDelimited(name);
      if m.Some? {
        data := data.(catalognum := m.value.group);
        name := Remove(name, m.value.whole);
      }
    }
    ghost var p3 := CatalognumStep(env, p2);
    assert data.(name := name) == p3;
    name := StripIndex(name, index);
    m := env.remixer(name);
    if m.Some? {
      data := data.(remixer := m.value.group);
    }
    ghost var p5 := RemixerStep(env, IndexStep(p3, index));
    assert data.(name := name) == p5;
    m := env.elpAlbum(name);
    if m.Some? {
      data := data.(album := m.value.group);
      name := Remove(name, m.value.whole);
    }
    data := data.(name := name);
  }

  /** `for pat, repl in CLEAN_PATTERNS`: each rule rewrites the name, then the artist. */
  method CleanFields(rules: seq<string -> string>, name0: string, data0: Parsed)
    returns (name: string, data: Parsed)
    ensures data.(name := name) == CleanLockStep(rules, data0.(name := name0))
  {
    name, data := name0, data0;
    var i := 0;
    while i < |rules|
      invariant 0 <= i <= |rules|
      invariant CleanLockStep(rules[i..], data.(name := name)) == CleanLockStep(rules, data0.(name := name0))
    {
      var rule := rules[i];
      assert rules[i..][1..] == rules[i + 1..];
      name := rule(name);
      data := data.(artist := rule(data.artist));
      i := i + 1;
    }
  }

  /** `for field in "_name", "_artist"`: the first field the featuring pattern matches
      loses the match, and the loop stops there. */
  method FindFeaturing(env: Env, before: Parsed) returns (data: Parsed)
    ensures data == FeaturingStep(env, before)
  {
    data := before;
    var field := 0;
    while field < 2
      invariant 0 <= field <= 2
      invariant data == before
      invariant field >= 1 ==> env.featuring(before.name).None?
      invariant field == 2 ==> env.featuring(before.artist).None?
    {
      var value := if field == 0 then data.name else data.artist;
      var m := env.featuring(value);
      if m.Some? {
        var cut := Remove(value, RStrip(m.value.whole, Whitespace));
        data := if field == 0 then data.(name := cut) else data.(artist := cut);
        if !Contains(data.artist, Strip(m.value.group, Whitespace)) {
          data := data.(ft := Strip(m.value.whole, " ([])"));
        }
        return;
      }
      field := field + 1;
    }
  }

  /** The match the featuring search acts on: the name's, else the artist's. */
  function FeaturingMatch(env: Env, p: Parsed): Option<Match> {
    if env.featuring(p.name).Some? then env.featuring(p.name) else env.featuring(p.artist)
  }

  /** The featuring search looks at the name first and at the artist only when the name
      has no match; a featured artist is recorded only when the artist field (after the
      removal) does not already contain the captured name. */
  lemma FeaturingOrder(env: Env, p: Parsed)
    ensures var r := FeaturingStep(env, p);
      && (env.featuring(p.name).Some? ==>
            r.artist == p.artist && r.name == Remove(p.name, RStrip(env.featuring(p.name).value.whole, Whitespace)))
      && (env.featuring(p.name).None? && env.featuring(p.artist).Some? ==>
            r.name == p.name && r.artist == Remove(p.artist, RStrip(env.featuring(p.artist).value.whole, Whitespace)))
      && (FeaturingMatch(env, p).None? ==> r == p)
      && (FeaturingMatch(env, p).Some? ==>
            var m := FeaturingMatch(env, p).value;
            if Contains(r.artist, Strip(m.group, Whitespace)) then r.ft == p.ft
            else r.ft == Strip(m.whole, " ([])"))
      && r.album == p.album && r.catalognum == p.catalognum && r.remixer == p.remixer && r.trackAlt == p.trackAlt
  {
  }

  // ================================================================ from_json

  /** The `artist` of `Track.from_json`: the album's artist of the track, else its own `byArtist`. */
  function TrackArtist(json: JsonItem): (r: string)
    ensures json.inAlbumArtist.Some? && json.inAlbumArtist.value != "" ==> r == json.inAlbumArtist.value
    ensures (json.inAlbumArtist.None? || json.inAlbumArtist.value == "") ==>
              r == (if json.byArtist.Some? then json.byArtist.value else "")
  {
    var a := if json.inAlbumArtist.Some? then json.inAlbumArtist.value else "";
    if a != "" then a else if json.byArtist.Some? then json.byArtist.value else ""
  }

  /** `Track.from_json`: `@id` and `position` are required; the other keys fall back to defaults. */
  function TrackFromJson(env: Env, json: JsonItem, name: string, delim: string,
                         catalognum: string, recordLabel: string): (r: Result<Track>)
    ensures r.Err? <==> json.id.None? || json.position.None?
    ensures json.id.None? ==> r == Err(KeyError("@id"))
    ensures r.Ok? ==>
      && r.value.item == json && r.value.trackId == json.id.value && r.value.index == json.position.value
      && r.value.single.None?
      && (catalognum != "" ==> r.value.catalognum == catalognum)
    ensures r.Ok? ==>
      var p := ParseNameSteps(env, name, delim, recordLabel, TrackArtist(json), catalognum, json.position.value);
      && r.value.rawName == p.name && r.value.rawArtist == p.artist && r.value.ft == p.ft
      && r.value.album == p.album && r.value.catalognum == p.catalognum
      && r.value.remixer == p.remixer && r.value.trackAlt == p.trackAlt
  {
    if json.id.None? then Err(KeyError("@id"))
    else if json.position.None? then Err(KeyError("position"))
    else
      var p := ParseNameSteps(env, name, delim, recordLabel, TrackArtist(json), catalognum, json.position.value);
      Ok(Track(json, json.id.value, json.position.value, p.name, p.artist, p.ft, p.album,
               p.catalognum, p.remixer, None, p.trackAlt))
  }

  // ================================================================ derived views

  /** `no_digi_name`: the name with every digital-only marker pattern removed in turn. */
  function NoDigiName(env: Env, t: Track): (r: string)
    ensures (forall i :: 0 <= i < |env.digiOnly| ==> env.digiOnly[i](t.rawName) == t.rawName) ==> r == t.rawName
  {
    ApplyRules(env.digiOnly, t.rawName)
  }

  /** The artist is prefixed exactly when `_artist` is set and the name has no `" - "`. */
  predicate ArtistPrefixed(env: Env, t: Track) {
    t.rawArtist != "" && !Contains(NoDigiName(env, t), " - ")
  }

  /** `Track.name` */
  function Name(env: Env, t: Track): (r: string)
    ensures r == [] || (r[0] !in Whitespace && r[|r| - 1] !in Whitespace)
    ensures !ArtistPrefixed(env, t) ==> r == Strip(NoDigiName(env, t), Whitespace)
    ensures ArtistPrefixed(env, t) ==> r == Strip(t.rawArtist + " - " + NoDigiName(env, t), Whitespace)
  {
    var name := NoDigiName(env, t);
    Strip(if ArtistPrefixed(env, t) then t.rawArtist + " - " + name else name, Whitespace)
  }

  /** `Track.digi_only`. Without an artist prefix, a track is digital-only exactly when
      stripping the marker-free name changes it. */
  function DigiOnly(env: Env, t: Track): (r: bool)
    ensures !ArtistPrefixed(env, t) ==> (r <==> Strip(NoDigiName(env, t), Whitespace) != NoDigiName(env, t))
  {
    Name(env, t) != NoDigiName(env, t)
  }

  /** With an artist prefix, a track counts as digital-only whatever its name says
      (here for an artist and a name that are already stripped). */
  lemma DigiOnlyWhenPrefixed(env: Env, t: Track)
    requires ArtistPrefixed(env, t)
    requires t.rawArtist[0] !in Whitespace
    requires var n := NoDigiName(env, t); n != [] && n[|n| - 1] !in Whitespace
    ensures DigiOnly(env, t)
  {
    var n := NoDigiName(env, t);
    var full := t.rawArtist + " - " + n;
    assert full[0] == t.rawArtist[0] && full[|full| - 1] == n[|n| - 1];
    assert LStrip(full, Whitespace) == full;
    assert RStrip(full, Whitespace) == full;
    assert |Name(env, t)| == |full| > |n|;
  }

  /** Blank after stripping spaces and dashes: `not part.strip(" -")`. */
  predicate Blank(part: string) {
    forall i :: 0 <= i < |part| ==> part[i] in " -"
  }

  /** The two readings of "blank" agree. */
  lemma BlankIsStripEmpty(part: string)
    ensures Blank(part) <==> Strip(part, " -") == []
  {
  }

  /** The position of the last part that is not blank. */
  function LastNonBlank(parts: seq<string>): (r: Option<nat>)
    ensures r.Some? ==> r.value < |parts| && !Blank(parts[r.value])
    ensures forall j :: 0 <= j < |parts| && (r.None? || r.value < j) ==> Blank(parts[j])
    decreases |parts|
  {
    if parts == [] then None
    else if !Blank(parts[|parts| - 1]) then Some(|parts| - 1)
    else
      var front := parts[..|parts| - 1];
      assert forall j :: 0 <= j < |front| ==> front[j] == parts[j];
      LastNonBlank(front)
  }

  /** `Track.title` on a name: the `" - "`-parts from the last non-blank one to the end. */
  function TitleOf(name: string): (r: string)
    ensures EndsWith(name, r)
    ensures var parts := Split(name, " - ");
      || (exists i :: 0 <= i < |parts| && !Blank(parts[i])
            && (forall j :: i < j < |parts| ==> Blank(parts[j]))
            && r == Join(parts[i..], " - "))
      || ((forall j :: 0 <= j < |parts| ==> Blank(parts[j])) && r == name)
  {
    var parts := Split(name, " - ");
    match LastNonBlank(parts)
    case None => name
    case Some(i) =>
      JoinSplit(name, " - ");
      JoinTailIsSuffix(parts, " - ", i);
      Join(parts[i..], " - ")
  }

  /** `Track.title`: a tail of the name, the whole name when it has no `" - "`. */
  function Title(env: Env, t: Track): (r: string)
    ensures EndsWith(Name(env, t), r)
    ensures !Contains(Name(env, t), " - ") ==> r == Name(env, t)
  {
    TitleOf(Name(env, t))
  }

  /** `split.remove(self.remixer)` inside `Track.artist`: drop the remixer from the
      split artists when there are several and the remixer is one of them; the others
      keep their order. */
  function DropRemixer(env: Env, artists: string, remixer: string): (r: string)
    ensures remixer == "" ==> r == artists
    ensures var split := env.splitArtists([artists]);
      if remixer != "" && |split| > 1 && remixer in split
      then var i := IndexOf(split, remixer);
        && r == Join(split[..i] + split[i + 1..], ", ")
        && remixer !in split[..i] + split[i + 1..]
        && multiset(split[..i] + split[i + 1..]) == multiset(split) - multiset{remixer}
      else r == artists
  {
    var split := env.splitArtists([artists]);
    if remixer != "" && |split| > 1 && remixer in split then
      var rest := RemoveFirst(split, remixer);
      StillNoDup(split, remixer);
      Join(rest, ", ")
    else artists
  }

  /** In a duplicate-free list, removing an element removes it entirely. */
  lemma StillNoDup(xs: seq<string>, x: string)
    requires NoDup(xs) && x in xs
    ensures x !in RemoveFirst(xs, x)
  {
  }

  /** `Track.artist`: what precedes the title, without the remix annotation and, when
      a remixer was found, without the remixer among several artists. */
  function Artist(env: Env, t: Track): (r: string)
    ensures r == [] || (r[0] !in " -" && r[|r| - 1] !in " -")
  {
    var name := Name(env, t);
    var s := Strip(RemoveSuffix(name, TitleOf(name)), ", -");
    Strip(DropRemixer(env, env.remixerSub(s), t.remixer), " -")
  }

  /** A name without `" - "` has no artist part: with no remixer, the artist is what the
      remix annotation pattern leaves of an empty string. */
  lemma ArtistWithoutDash(env: Env, t: Track)
    requires !Contains(Name(env, t), " - ") && t.remixer == ""
    ensures Artist(env, t) == Strip(env.remixerSub(""), " -")
    ensures env.remixerSub("") == "" ==> Artist(env, t) == ""
  {
    var name := Name(env, t);
    TitleOfNoDash(name);
    ArtistFromParts(env, t, name, name);
    assert RemoveSuffix(name, name) == [];
  }

  /** A name without `" - "` is its own title. */
  lemma TitleOfNoDash(name: string)
    requires !Contains(name, " - ")
    ensures TitleOf(name) == name
  {
    assert Split(name, " - ") == [name];
    if !Blank(name) {
      assert LastNonBlank([name]) == Some(0);
      assert [name][0..] == [name];
    }
  }

  /** The artist prefix that `Track.name` adds is what `Track.artist` and `Track.title`
      take apart again: for a clean artist with no `" - "` that the remix pattern leaves
      alone, no remixer, and a marker-free name that has no `" - "`, is not blank and
      does not end in whitespace, the title is the name and the artist is the artist. */
  lemma ArtistPrefixRoundTrip(env: Env, t: Track)
    requires ArtistPrefixed(env, t)
    requires CleanEnds(t.rawArtist) && !Contains(t.rawArtist, " - ")
    requires var n := NoDigiName(env, t); !Blank(n) && n[|n| - 1] !in Whitespace
    requires t.remixer == "" && env.remixerSub(t.rawArtist) == t.rawArtist
    ensures Name(env, t) == t.rawArtist + " - " + NoDigiName(env, t)
    ensures Title(env, t) == NoDigiName(env, t)
    ensures Artist(env, t) == t.rawArtist
  {
    NameOfPrefixed(env, t);
    ArtistOfTwoParts(env, t, t.rawArtist, NoDigiName(env, t));
  }

  /** Any name of the form `"<a> - <n>"`, with the prefix added or already in the name
      (`"A - B"` with no `_artist`): the title is `n` and the artist is `a`, for a clean
      `a` without `" - "` that the remix pattern leaves alone, a non-blank title part `n`
      without `" - "`, and no remixer. */
  lemma ArtistOfTwoParts(env: Env, t: Track, a: string, n: string)
    requires Name(env, t) == a + " - " + n
    requires CleanEnds(a) && !Contains(a, " - ") && !Contains(n, " - ") && !Blank(n)
    requires t.remixer == "" && env.remixerSub(a) == a
    ensures Title(env, t) == n
    ensures Artist(env, t) == a
  {
    TitleOfPrefixed(a, n);
    ArtistPartOfPrefixed(a, n);
    ArtistFromParts(env, t, a + " - " + n, n);
  }

  /** `Track.artist` from the name and the title. */
  lemma ArtistFromParts(env: Env, t: Track, name: string, title: string)
    requires Name(env, t) == name && TitleOf(name) == title
    ensures Artist(env, t) == Strip(DropRemixer(env, env.remixerSub(Strip(RemoveSuffix(name, title), ", -")), t.remixer), " -")
  {
  }

  lemma NameOfPrefixed(env: Env, t: Track)
    requires ArtistPrefixed(env, t) && CleanEnds(t.rawArtist)
    requires var n := NoDigiName(env, t); n != [] && n[|n| - 1] !in Whitespace
    ensures Name(env, t) == t.rawArtist + " - " + NoDigiName(env, t)
  {
    var full := t.rawArtist + " - " + NoDigiName(env, t);
    assert full[0] == t.rawArtist[0] && full[|full| - 1] == NoDigiName(env, t)[|NoDigiName(env, t)| - 1];
    StripUntouched(full, Whitespace);
  }

  lemma TitleOfPrefixed(a: string, n: string)
    requires CleanEnds(a) && !Contains(a, " - ") && !Contains(n, " - ") && !Blank(n)
    ensures TitleOf(a + " - " + n) == n
  {
    SplitAfterClean(a, n);
    assert LastNonBlank([a, n]) == Some(1);
    assert [a, n][1..] == [n];
  }

  lemma ArtistPartOfPrefixed(a: string, n: string)
    requires CleanEnds(a) && n != []
    ensures Strip(RemoveSuffix(a + " - " + n, n), ", -") == a
    ensures Strip(a, " -") == a
  {
    var full := a + " - " + n;
    assert full[|full| - |n|..] == n;
    assert RemoveSuffix(full, n) == a + " - ";
    RStripSuffix(a, " - ", ", -");
    assert (a + " - ")[0] == a[0];
    assert a[0] != ' ' && a[0] != '-' && a[|a| - 1] != ' ' && a[|a| - 1] != '-';
    StripUntouched(a, " -");
  }

  /** Neither end is whitespace, a comma, a space or a dash. */
  predicate CleanEnds(a: string) {
    a != [] && a[0] !in Whitespace && a[0] !in ", -" && a[|a| - 1] !in Whitespace && a[|a| - 1] !in ", -"
  }

  /** `f"{a} - {n}".split(" - ")` is `[a, n]` when neither holds `" - "` and `a` is
      empty or does not end in a space or a dash. */
  lemma SplitAfterClean(a: string, n: string)
    requires a == [] || a[|a| - 1] !in " -"
    requires !Contains(a, " - ") && !Contains(n, " - ")
    ensures Split(a + " - " + n, " - ") == [a, n]
  {
    var full := a + " - " + n;
    var k := |a|;
    assert OccursAt(full, " - ", k) by { assert full[k..k + 3] == " - "; }
    FindFirst(a, " - ");
    forall j | 0 <= j < k
      ensures !OccursAt(full, " - ", j)
    {
      if j + 3 <= k {
        assert full[j..j + 3] == a[j..j + 3];
        assert !OccursAt(a, " - ", j);
      } else if j == k - 1 {
        assert full[j] == a[k - 1] && full[j..j + 3][0] == full[j];
      } else {
        assert full[j + 1] == a[k - 1] && full[j..j + 3][1] == full[j + 1];
      }
    }
    assert Find(full, " - ") == Some(k);
    assert full[..k] == a && full[k + 3..] == n;
  }

  /** `Track.artists` */
  function Artists(env: Env, t: Track): (r: seq<string>)
    ensures NoDup(r)
  {
    env.splitArtists(Split(Artist(env, t), ", "))
  }

  /** `Track.duration`: `h * 3600 + m * 60 + s` from the three digit runs; 0 without the
      key; any other number of runs fails to unpack. */
  function Duration(t: Track): (r: Result<int>)
    ensures t.item.duration.None? ==> r == Ok(0)
    ensures t.item.duration.Some? ==> (r.Ok? <==> |Runs(t.item.duration.value, Digit)| == 3)
    ensures r.Ok? ==> r.value >= 0
  {
    match t.item.duration
    case None => Ok(0)
    case Some(d) =>
      var runs := Runs(d, Digit);
      if |runs| != 3 then Err(ValueError)
      else Ok(DecimalValue(runs[0]) * 3600 + DecimalValue(runs[1]) * 60 + DecimalValue(runs[2]))
  }

  /** A number written in decimal after `z` leading zeros, as in the `03` of `P00H03M25S`. */
  function Padded(z: nat, n: nat): (r: string)
    ensures DigitRun(r) && DecimalValue(r) == n
  {
    DecimalValuePadded(z, DecimalString(n));
    DecimalRoundTrip(n);
    Zeros(z) + DecimalString(n)
  }

  /** A non-empty run of ASCII digits. */
  predicate DigitRun(r: string) {
    r != [] && forall i :: 0 <= i < |r| ==> IsDigit(r[i])
  }

  /** The ISO 8601 form Bandcamp uses for a track's length, `P<h>H<m>M<s>S`, each
      number a run of digits (zero-padded or not). */
  function IsoDuration(h: string, m: string, s: string): string {
    "P" + (h + ("H" + (m + ("M" + (s + "S")))))
  }

  /** A length in the ISO 8601 form gives the length in seconds, leading zeros or not. */
  lemma DurationOfIsoForm(t: Track, zh: nat, h: nat, zm: nat, m: nat, zs: nat, s: nat)
    requires t.item.duration == Some(IsoDuration(Padded(zh, h), Padded(zm, m), Padded(zs, s)))
    ensures Duration(t) == Ok(h * 3600 + m * 60 + s)
  {
    IsoDurationRuns(Padded(zh, h), Padded(zm, m), Padded(zs, s));
  }

  /** The digit runs of the ISO form are exactly its three numbers. */
  lemma IsoDurationRuns(dh: string, dm: string, ds: string)
    requires DigitRun(dh) && DigitRun(dm) && DigitRun(ds)
    ensures Runs(IsoDuration(dh, dm, ds), Digit) == [dh, dm, ds]
  {
    var t4 := "S";
    assert Runs(t4, Digit) == [] by { RunsSkip('S', [], Digit); assert t4 == ['S'] + []; }
    var t3 := ds + t4;
    assert Runs(t3, Digit) == [ds] by { RunsPrefix(ds, t4, Digit); }
    var t2 := "M" + t3;
    assert Runs(t2, Digit) == [ds] by { RunsSkip('M', t3, Digit); }
    var t1 := dm + t2;
    assert Runs(t1, Digit) == [dm, ds] by { RunsPrefix(dm, t2, Digit); }
    var t0 := "H" + t1;
    assert Runs(t0, Digit) == [dm, ds] by { RunsSkip('H', t1, Digit); }
    var u := dh + t0;
    assert Runs(u, Digit) == [dh, dm, ds] by { RunsPrefix(dh, t0, Digit); }
    var full := "P" + u;
    assert Runs(full, Digit) == [dh, dm, ds] by { RunsSkip('P', u, Digit); }
    assert IsoDuration(dh, dm, ds) == full;
  }

  /** `Track.lyrics`: the text without carriage returns, or empty. */
  function Lyrics(t: Track): (r: string)
    ensures '\r' !in r
    ensures t.item.lyrics.None? ==> r == ""
    ensures t.item.lyrics.Some? ==> r == Join(Split(t.item.lyrics.value, "\r"), "")
    ensures t.item.lyrics.Some? && '\r' !in t.item.lyrics.value ==> r == t.item.lyrics.value
  {
    match t.item.lyrics
    case None => ""
    case Some(text) =>
      RemoveCharGone(text, '\r');
      ReplaceIsSplitJoin(text, "\r", "");
      FindCharAt(text, '\r');
      Remove(text, "\r")
  }

  /** The record handed to the tag library (`TrackInfo`); `medium` is always `None`. */
  datatype TrackInfo = TrackInfo(
    index: Option<int>, mediumIndex: Option<int>, trackId: string,
    artist: string, title: string, length: int, trackAlt: Option<string>,
    lyrics: string, catalognum: Option<string>)

  /** `Track.info` */
  function Info(env: Env, t: Track): (r: Result<TrackInfo>)
    ensures r.Ok? <==> Duration(t).Ok?
    ensures r.Ok? ==>
      && (r.value.index.None? <==> t.single == Some(true))
      && (r.value.index.Some? ==> r.value.index.value == t.index)
      && r.value.mediumIndex == r.value.index
      && (r.value.catalognum.None? <==> t.catalognum == "")
      && (r.value.catalognum.Some? ==> r.value.catalognum.value == t.catalognum)
      && (r.value.artist == Artist(env, t) <==> t.ft == "")
      && (t.ft != "" ==> r.value.artist == Artist(env, t) + " " + t.ft)
      && r.value.length == Duration(t).value
      && r.value.title == Title(env, t)
      && r.value.trackId == t.trackId
      && r.value.trackAlt == t.trackAlt
      && r.value.lyrics == Lyrics(t)
  {
    match Duration(t)
    case Err(e) => Err(e)
    case Ok(length) =>
      var index := if t.single == Some(true) then None else Some(t.index);
      var artist := Artist(env, t);
      var full := if t.ft != "" then artist + " " + t.ft else artist;
      assert t.ft != "" ==> |full| > |artist|;
      Ok(TrackInfo(index, index, t.trackId, full,
                   Title(env, t), length, t.trackAlt, Lyrics(t),
                   if t.catalognum == "" then None else Some(t.catalognum)))
  }
}
