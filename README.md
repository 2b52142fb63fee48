# beetcamp track parsing, modelled in Dafny

This project models the track-name parsing engine of the beetcamp Bandcamp plugin: the
module `beetsplug/bandcamp/_tracks.py`, which turns the JSON of one release page into a
list of tracks with artist, title, catalog number, remixer, featured artist and so on.

- `outcomes.dfy` (`Outcomes`): `Option`, `Result` and the Python exceptions the code can
  raise (`KeyError`, `TypeError`, `ValueError`, `AttributeError`).
- `strings.dfy` (`Strings`): the Python string and list primitives the module uses
  (`strip`, `find`, `split`, `join`, `replace`, `str.split()`, `removesuffix`,
  `list.remove`, ordered de-duplication, decimal digits), written as functions on
  `seq<char>` with their own lemmas (`Join(Split(s, sep), sep) == s`, `replace` is
  split-then-join).
- `patterns.dfy` (`Patterns`): the regular expressions. `DELIMITER_PAT` and the leading
  track-index pattern `^0*{index}(?!\W\d)\W+` are encoded directly. Every other pattern
  is an opaque function held in the `Env` record, together with `Helpers.split_artists`,
  whose one promised property is a list without duplicates.
- `track.dfy` (`TrackModel`): the `Track` record. `Track.parse_name` is an imperative
  method proved equal to a pipeline of pure steps in the source's order.
  `Track.from_json` is modelled with its `KeyError` fallbacks. The derived views are
  functions with lemmas: `name`, `digi_only`, `title`, `artist`, `artists`, `duration`,
  `lyrics` and `info`.
- `tracks.dfy` (`Release`): the `Tracks` class and the release-level operations.
  - `track_delimiter` is the majority vote.
  - `common_catalognum` follows the ordered-intersection rule. It is proved equal to a
    specification function whose properties are lemmas.
  - `Tracks.from_json` is a method proved equal to a value-level definition.
  - `artists`, `raw_names` and `raw_remixers` are functions.
  - `adjust_artists` is a method on the class `TrackList`, which holds the tracks as a
    `seq<Track>` and reassigns them. It is proved equal to the function `AdjustPass`,
    whose properties are lemmas.

Errors are values: a function that can raise in Python returns a `Result`, and
`adjust_artists` returns how its pass ended (`Adjusted`, or `Raised` at a track with an
exception).

The relaxed split in `adjust_artists` (`_tracks.py:304-306`) is meant, by its comment at
`_tracks.py:302-303`, to relax the rule for the one track whose artist was not parsed by
splitting its title at a bare `"-"`. In the code, `t.artist, t.title = split` assigns
`_artist` and then fails, because `title` is a property without a setter: the result is
an `AttributeError`. Three or more parts fail to unpack: the result is a `ValueError`.
The model follows the code. `AdjustRaises` states the two outcomes exactly, and
`AdjustNeverRaises` states when the branch is not reached.

`digi_only` (`_tracks.py:154-157`) compares `name` with `no_digi_name`. When `name` has the
artist prefix added, the two always differ, so such a track is reported as digital-only
whether or not it had a marker. `DigiOnlyWhenPrefixed` states this, for an artist without leading whitespace and a
non-empty marker-free name without trailing whitespace.

## Model

| member | source | states |
|---|---|---|
| Patterns.FirstDelimiter | beetsplug/bandcamp/_tracks.py:27 | `DELIMITER_PAT.search`: the position found is a space, a character that is not a word character, a space or one of `&()+/[]`, then a space; no earlier position matches, and none matches at all when nothing is found |
| Patterns.ApplyRules | beetsplug/bandcamp/_tracks.py:145 | the rules are applied in turn; a string every rule leaves alone comes out unchanged |
| Patterns.StripIndex | beetsplug/bandcamp/_tracks.py:105 | the result is a suffix of the name; it differs from the name exactly when the name starts with some run of zeros, the track index and a valid tail; when the match with the most zeros is the first, the result is the name after that match |
| Patterns.StripIndexNoIndex | beetsplug/bandcamp/_tracks.py:105 | a name that does not start with zeros followed by the index is left as it is |
| Patterns.StripIndexExample | beetsplug/bandcamp/_tracks.py:105 | `"01 Title"` at index 1 becomes `"Title"` |
| Patterns.StripIndexKeepsNumber | beetsplug/bandcamp/_tracks.py:105 | `"0100 Club"` at index 1 is kept: the index must not be followed by another digit |
| TrackModel.ParseName | beetsplug/bandcamp/_tracks.py:86-124 | the imperative `parse_name` gives exactly the step pipeline `ParseNameSteps`, in the source's order |
| TrackModel.CleanFields | beetsplug/bandcamp/_tracks.py:91-93 | the loop over the cleanup rules rewrites the name and the artist with each rule in turn |
| TrackModel.ExtractFields | beetsplug/bandcamp/_tracks.py:95-114 | the track-alt, catalog-number, index, remixer and album steps, in that order |
| TrackModel.FindFeaturing | beetsplug/bandcamp/_tracks.py:116-123 | the loop over `_name`, `_artist` gives the featuring step, stopping at the first field that matches |
| TrackModel.ReplaceDelimiter | beetsplug/bandcamp/_tracks.py:88 | replacing `" <delim> "` by `" - "` is `" - ".join(name.split(" <delim> "))`; with the delimiter `"-"` the name is unchanged |
| TrackModel.StripLabel | beetsplug/bandcamp/_tracks.py:89-90 | a name that does not end with the label is kept; one that does loses every occurrence of the label (the split-and-join with `""`) and is stripped of spaces and dashes; an empty label, which every name ends with, only strips |
| TrackModel.CleanLockStep | beetsplug/bandcamp/_tracks.py:91-93 | applying each rule to both fields in lock step is the same as running all rules over the name and, separately, over the artist; no other field changes |
| TrackModel.TrimName | beetsplug/bandcamp/_tracks.py:94 | only the name changes; it becomes a tail of the stripped name, with only dashes cut from its front, that does not start with `-` and does not end in whitespace |
| TrackModel.TrackAltStep | beetsplug/bandcamp/_tracks.py:95-98 | only the name and the track alt change; nothing changes without a match; with one the track alt is the capture group and the name loses every copy of the matched text |
| TrackModel.CatalognumStep | beetsplug/bandcamp/_tracks.py:100-104 | only the name and the catalog number change; nothing changes when a catalog number is known; otherwise it becomes the capture group of a match, and the name loses every copy of the matched text, or stays empty |
| TrackModel.IndexStep | beetsplug/bandcamp/_tracks.py:105 | only the name changes, to a tail of itself |
| TrackModel.RemixerStep | beetsplug/bandcamp/_tracks.py:107-109 | only the remixer changes, and only on a match, to the pattern's capture group; the name keeps the annotation |
| TrackModel.AlbumStep | beetsplug/bandcamp/_tracks.py:111-114 | only the name and the album change, and only on a match; the album is the pattern's capture group and the name loses every copy of the matched text |
| TrackModel.FeaturingStep | beetsplug/bandcamp/_tracks.py:116-123 | only the name, the artist and `ft` change |
| TrackModel.ParseNameSteps | beetsplug/bandcamp/_tracks.py:86-124 | a catalog number passed in survives parsing; otherwise it is the delimited pattern's group on the name as it stands after the track-alt step, or empty |
| TrackModel.FeaturingOrder | beetsplug/bandcamp/_tracks.py:116-123 | the name is searched first and the artist only when the name has no match; only the matched field loses the match; on a match `ft` becomes the stripped match exactly when the artist (after the removal) does not contain the captured name, and is kept otherwise; no match changes nothing; no other field changes |
| TrackModel.TrackArtist | beetsplug/bandcamp/_tracks.py:72-76 | the album's artist when present and non-empty, else the track's `byArtist` name, else empty |
| TrackModel.TrackFromJson | beetsplug/bandcamp/_tracks.py:68-84 | fails exactly when `@id` or `position` is missing (`KeyError("@id")` first); otherwise it keeps the JSON, the id and the position, leaves `single` unset, keeps a given catalog number, and every parsed field is the one `ParseNameSteps` gives for the name, the fallback artist, the catalog number and the position |
| TrackModel.NoDigiName | beetsplug/bandcamp/_tracks.py:142-145 | the marker patterns are applied in turn; a name no pattern changes is kept |
| TrackModel.Name | beetsplug/bandcamp/_tracks.py:147-152 | `no_digi_name` stripped, with `"<_artist> - "` in front exactly when `_artist` is set and the name has no `" - "`; the result has no outer whitespace |
| TrackModel.DigiOnly | beetsplug/bandcamp/_tracks.py:154-157 | without an artist prefix, a track is digital-only exactly when stripping changes the marker-free name |
| TrackModel.DigiOnlyWhenPrefixed | beetsplug/bandcamp/_tracks.py:154-157 | a track whose name gets an artist prefix is reported as digital-only, for an artist without leading whitespace and a non-empty marker-free name without trailing whitespace |
| TrackModel.BlankIsStripEmpty | beetsplug/bandcamp/_tracks.py:163 | a part is blank (only spaces and dashes) exactly when `strip(" -")` empties it |
| TrackModel.LastNonBlank | beetsplug/bandcamp/_tracks.py:162-164 | the index of the last non-blank part; every part after it is blank, and all are when there is none |
| TrackModel.TitleOf | beetsplug/bandcamp/_tracks.py:159-165 | the title is a suffix of the name: the `" - "` join of the parts from the last non-blank one to the end, or the whole name when all parts are blank |
| TrackModel.Title | beetsplug/bandcamp/_tracks.py:159-165 | a tail of the track name; the whole name when it has no `" - "` |
| TrackModel.TitleOfNoDash | beetsplug/bandcamp/_tracks.py:161-165 | a name without `" - "` is its own title |
| TrackModel.DropRemixer | beetsplug/bandcamp/_tracks.py:171-179 | with a remixer that is one of several split artists, the result is the other artists, in their order, joined by `", "`: the list without the remixer's first position, without the remixer, one copy fewer; in every other case the artist string is kept |
| TrackModel.Artist | beetsplug/bandcamp/_tracks.py:167-181 | the artist string has no leading or trailing space or dash |
| TrackModel.ArtistWithoutDash | beetsplug/bandcamp/_tracks.py:167-181 | a name without `" - "` leaves no artist part: with no remixer the artist is what the remix pattern leaves of `""`, which is `""` when the pattern leaves it alone |
| TrackModel.ArtistOfTwoParts | beetsplug/bandcamp/_tracks.py:159-181 | a name `"<a> - <n>"`, whether the prefix was added or was already in the name, has title `n` and artist `a`, for a clean `a` without `" - "` that the remix pattern leaves alone, a non-blank `n` without `" - "`, and no remixer |
| TrackModel.ArtistPrefixRoundTrip | beetsplug/bandcamp/_tracks.py:147-181 | the `"<artist> - "` prefix `name` adds is taken apart again by `title` and `artist`: for a clean artist and a marker-free name without `" - "`, the title is the name and the artist is the artist, when the artist is clean, has no `" - "` and is left alone by the remix pattern, the track has no remixer, and the marker-free name is not blank and does not end in whitespace |
| TrackModel.SplitAfterClean | beetsplug/bandcamp/_tracks.py:161 | `f"{a} - {n}".split(" - ")` is `[a, n]` when neither holds `" - "` and `a` is empty or does not end in a space or a dash |
| TrackModel.Artists | beetsplug/bandcamp/_tracks.py:187-190 | the list of artists has no duplicates |
| TrackModel.Duration | beetsplug/bandcamp/_tracks.py:126-133 | 0 when the key is missing; a value exactly when there are three digit runs; never negative |
| TrackModel.DurationOfIsoForm | beetsplug/bandcamp/_tracks.py:126-133 | an ISO 8601 length `P<h>H<m>M<s>S` gives `h*3600 + m*60 + s`, with or without leading zeros on each number (`P00H03M25S`) |
| TrackModel.IsoDurationRuns | beetsplug/bandcamp/_tracks.py:129 | the digit runs of that form are exactly its three numbers |
| TrackModel.Lyrics | beetsplug/bandcamp/_tracks.py:135-140 | empty when the key is missing; otherwise the text split at `"\r"` and joined with nothing, so no carriage return is left and a text without one is kept |
| TrackModel.Info | beetsplug/bandcamp/_tracks.py:196-209 | built exactly when the duration is; index and medium index are unset exactly when `single` is true, otherwise the index; catalog number unset exactly when empty; the artist gains `" <ft>"` exactly when `ft` is set; the length is the duration; the title, track id, track alt and lyrics are the track's |
| Release.GetDelim | beetsplug/bandcamp/_tracks.py:322-324 | the character of the first delimiter match, or `"-"` when there is none |
| Release.Votes | beetsplug/bandcamp/_tracks.py:326 | one vote per name, in order |
| Release.MostCommon | beetsplug/bandcamp/_tracks.py:326 | a vote with the highest count |
| Release.MajorityUnique | beetsplug/bandcamp/_tracks.py:330 | at most one delimiter can have more than half the votes |
| Release.TrackDelimiter | beetsplug/bandcamp/_tracks.py:311-330 | `""` for no names; the only name's vote for one name; otherwise the delimiter with a strict majority, or `"-"` when none has one |
| Release.TokenLists | beetsplug/bandcamp/_tracks.py:252 | each name split on whitespace |
| Release.DedupOrdered | beetsplug/bandcamp/_tracks.py:253 | de-duplication keeps first-seen order |
| Release.Filter | beetsplug/bandcamp/_tracks.py:253 | keeps exactly the elements that pass, and no duplicates are created |
| Release.FilterOrdered | beetsplug/bandcamp/_tracks.py:253 | filtering keeps the order |
| Release.CommonWords | beetsplug/bandcamp/_tracks.py:253 | without duplicates, in the first name's order: exactly the words found in every name, other than the delimiter |
| Release.Candidates | beetsplug/bandcamp/_tracks.py:255 | exactly the first and the last common word |
| Release.MatchedWord | beetsplug/bandcamp/_tracks.py:255-257 | the first candidate the catalog-number pattern matches, or none when no candidate matches |
| Release.CatalogWord | beetsplug/bandcamp/_tracks.py:252-257 | a word found is in every name, is not the delimiter, and matches the pattern |
| Release.CatalogWordCases | beetsplug/bandcamp/_tracks.py:253-257 | nothing is found exactly when there are no common words or neither end matches; a word found is the first or the last common word |
| Release.CatalognumEitherEnd | beetsplug/bandcamp/_tracks.py:255 | when both ends match, either may be chosen depending on the order tried |
| Release.WithoutWordSpec | beetsplug/bandcamp/_tracks.py:259-260 | removing the word from a name takes out its first occurrence among the tokens, one copy, and joins the rest with single spaces |
| Release.CatalognumSplit | beetsplug/bandcamp/_tracks.py:244-261 | as many names out as in |
| Release.CatalognumSplitSpec | beetsplug/bandcamp/_tracks.py:252-261 | no match: `""` and the names unchanged; a match: the pattern's group, and every name is `" ".join` of its tokens after `remove(word)`: it has lost exactly one occurrence of the word and is in single-space form |
| Release.CommonCatalognum | beetsplug/bandcamp/_tracks.py:244-261 | the imperative `common_catalognum` gives exactly `CatalognumSplit` |
| Release.SearchCandidates | beetsplug/bandcamp/_tracks.py:255-257 | the candidate loop returns the first matching candidate |
| Release.RemoveFromEach | beetsplug/bandcamp/_tracks.py:258-259 | each token list loses its first occurrence of the word |
| Release.SplitWhenMatched | beetsplug/bandcamp/_tracks.py:258-260 | the rejoined lists are the names of the specification |
| Release.Elements | beetsplug/bandcamp/_tracks.py:224-227 | the track list, or the page itself at position 1 when there is none |
| Release.Merge | beetsplug/bandcamp/_tracks.py:228-229 | `KeyError("item")` exactly when the item is missing; otherwise the item, with the element's position when the item has none |
| Release.MergeAll | beetsplug/bandcamp/_tracks.py:228-229 | fails exactly when some element lacks its item; otherwise one merged item per element |
| Release.MergeFails | beetsplug/bandcamp/_tracks.py:228-229 | one element without an item makes the whole merge fail |
| Release.MergeSucceeds | beetsplug/bandcamp/_tracks.py:228-229 | elementwise merges give the merged list |
| Release.ReleaseLabel | beetsplug/bandcamp/_tracks.py:230-233 | the album release's label, else the publisher's name, failing exactly when both are missing |
| Release.NamesOf | beetsplug/bandcamp/_tracks.py:234 | every item's name, in order, or `KeyError("name")` when one is missing |
| Release.ZipResults | beetsplug/bandcamp/_tracks.py:237-242 | succeeds exactly when every call does, with the calls' results in order; otherwise the error of the first call that fails |
| Release.ZipEach | beetsplug/bandcamp/_tracks.py:237-242 | the loop over the pairs gives `ZipResults` |
| Release.ZipFails | beetsplug/bandcamp/_tracks.py:237-242 | the first failing call decides the error |
| Release.ZipSucceeds | beetsplug/bandcamp/_tracks.py:237-242 | calls that all succeed give the list of their results |
| Release.BuildRelease | beetsplug/bandcamp/_tracks.py:235-242 | succeeds exactly when `Track.from_json` succeeds for every item with its cleaned name, the voted delimiter and the shared catalog number; then track `i` is that call's result for item `i` |
| Release.ReleaseTracks | beetsplug/bandcamp/_tracks.py:222-242 | a release parsed without error has one track per list element and at least one |
| Release.ReleaseTracksOk | beetsplug/bandcamp/_tracks.py:222-242 | a successful parse has passed the merge, the label and the names, and is the build from them |
| Release.BuildReleaseItems | beetsplug/bandcamp/_tracks.py:237-242 | each track keeps its item, and its id and index are the item's; `single` is unset |
| Release.ReleaseTrackItems | beetsplug/bandcamp/_tracks.py:224-242 | track `i` comes from list element `i` merged, with that element's id and position |
| Release.BuildReleaseCatalognum | beetsplug/bandcamp/_tracks.py:235-241 | a shared catalog number found in the names is given to every track |
| Release.ReleaseNames | beetsplug/bandcamp/_tracks.py:234 | names exist only for a merge that succeeded, one per element |
| Release.ReleaseCatalognum | beetsplug/bandcamp/_tracks.py:234-241 | every track of a parsed release carries the release's shared catalog number when there is one |
| Release.SingleFallback | beetsplug/bandcamp/_tracks.py:224-227 | a page without a track list parses as one track from the page itself, at its own position or else 1 |
| Release.EmptyTrackList | beetsplug/bandcamp/_tracks.py:234-236 | once the label is found, an empty track list raises `TypeError` from the intersection of no token lists |
| Release.MissingItem | beetsplug/bandcamp/_tracks.py:228-229 | any element without an item makes the parse raise `KeyError("item")` |
| Release.TracksFromJson | beetsplug/bandcamp/_tracks.py:222-242 | the imperative `from_json`, with its merge loop, gives exactly `ReleaseTracks` |
| Release.Chain | beetsplug/bandcamp/_tracks.py:265 | the chained lists contain exactly the elements of the lists |
| Release.TrackList.constructor | beetsplug/bandcamp/_tracks.py:212-214 | the list holds the given tracks |
| Release.TrackList.Artists | beetsplug/bandcamp/_tracks.py:263-265 | no duplicates, exactly the artists of some track, in the order they are first seen along the tracks |
| Release.TrackList.RawNames | beetsplug/bandcamp/_tracks.py:266-268 | one name per track, in order, each `Track.name` and without outer whitespace |
| Release.TrackList.RawRemixers | beetsplug/bandcamp/_tracks.py:276-280 | exactly the non-empty remixers and featured artists of the tracks |
| Release.CountTwoEmpty | beetsplug/bandcamp/_tracks.py:284 | two tracks without an artist leave at most `count - 2` with one |
| Release.AdjustError | beetsplug/bandcamp/_tracks.py:300-306 | the pass raises at a track exactly when its artist is empty, it is the only such track, and its title splits at `"-"` into more than one part |
| Release.AdjustTrack | beetsplug/bandcamp/_tracks.py:286-309 | only `single` and the artist change; a track with an artist keeps it; at a raising track the artist is the first of two parts, or unchanged for more; otherwise an artist-less track takes the album artist |
| Release.SingleIrrelevant | beetsplug/bandcamp/_tracks.py:287 | setting `single` first changes neither the artist nor the title the pass reads |
| Release.FirstRaise | beetsplug/bandcamp/_tracks.py:286-306 | the first track at which the pass raises, with none before it, or none at all |
| Release.AdjustPass | beetsplug/bandcamp/_tracks.py:286-309 | as many tracks as given, each changed at most in `single` and the artist; it ends normally exactly when no track raises, and otherwise at a track that raises, with that track's error |
| Release.AdjustPassRaised | beetsplug/bandcamp/_tracks.py:286-309 | a pass that raises first at a track has stepped the tracks up to it and left the rest |
| Release.AdjustPassDone | beetsplug/bandcamp/_tracks.py:286-309 | a pass that never raises has stepped every track |
| Release.AdjustSetsSingle | beetsplug/bandcamp/_tracks.py:287 | every track the loop reaches gets `single`; tracks after the one that raised are unchanged |
| Release.AdjustKeepsArtist | beetsplug/bandcamp/_tracks.py:300 | a track with an artist changes only in `single` |
| Release.AdjustNeverRaises | beetsplug/bandcamp/_tracks.py:301 | unless exactly `count - 1` tracks have an artist, the relaxed split is never tried and the pass ends normally |
| Release.AdjustFallsBack | beetsplug/bandcamp/_tracks.py:307-309 | in a pass that ends normally, each track without an artist gets the album artist |
| Release.AdjustRaises | beetsplug/bandcamp/_tracks.py:300-306 | a pass raises only at the single track without an artist, whose title has at least two parts: two give `AttributeError` after the artist is set to the first part, three or more give `ValueError` with the artist untouched |
| Release.ArtistsOf | beetsplug/bandcamp/_tracks.py:284 | one artist per track |
| Release.TitleSplits | beetsplug/bandcamp/_tracks.py:304 | one title split per track |
| Release.AdjustAll | beetsplug/bandcamp/_tracks.py:282-309 | the pass leaves as many tracks as it was given |
| Release.TrackList.AdjustArtists | beetsplug/bandcamp/_tracks.py:282-309 | the new track list and the way the pass ends are exactly `AdjustAll` of the old tracks |
| Release.TrackList.Pass | beetsplug/bandcamp/_tracks.py:286-309 | the loop, stopping at the first exception, gives exactly `AdjustPass` |

## Left out

- Regular expressions other than `DELIMITER_PAT` and the leading-index pattern are opaque functions in `Env`: the cleanup rules, track-alt, both catalog-number patterns, remixer, album, featuring, digital-only markers. Their internals are a regex engine's business. `Helpers.split_artists` and the patterns of `_helpers` are not part of this model; only their result shapes are.
- `\w` and `\d` are the ASCII classes, while Python's are Unicode. The visible effect is on non-ASCII letters: the leading-index step strips `"01 Élan"` at index 1 to `"lan"` where Python keeps `"Élan"` (a title in a non-Latin script loses everything up to its first ASCII letter), and `" à "` counts as a delimiter vote in the model but not in Python. Whitespace for `strip()` and `split()` is the set of characters for which `str.isspace()` holds.
- `cached_property` memoisation is left out: the model recomputes every value. In the source `digi_only` and `raw_names` are cached and depend on `_artist`, which `adjust_artists` changes, so a value read before the pass stays stale after it; in the model it reflects the new artist.
- The commented-out track-alt reversal and the commented-out remix rewrite are left out, because they are not active code.
- `adjust_artists(self, aartist, single=bool)` defaults `single` to the class `bool`, which is truthy. The model takes `single` as an explicit `bool`.
- The `TrackInfo` constructor of beets, `rich.print` and the `ordered_set` library are left out. `TrackInfo` is a record of the fields `info` fills. An ordered set is a de-duplicated sequence in first-seen order.
- JSON is a record of the keys the module reads. `track.update(**track["item"])` keeps every key of the item and takes `position` from the element when the item has none. The model takes only `position` from the element, and assumes the element has no other key the module reads (`@id`, `name`, `inAlbum`, `byArtist`, `duration`, `recordingOf`).
- Release.ReleaseLabel: a missing `publisher` or a missing `name` under it are one error, `KeyError("name")`.
- Tracks are values in a sequence, so aliasing of `Track` objects shared elsewhere is not modelled.
- `adjust_artists` reads each track's artist and title before the loop. This is equivalent because a track's step changes only that track, and `single` affects neither reading (`SingleIrrelevant`).
- The iteration order of `set([first, last])` in `common_catalognum` is unspecified in Python. It is the parameter `lastFirst`.
- `Track.main_title` is left out: it is not used by the modelled operations and depends only on an opaque pattern.
- Release.AdjustAll: its contract states the length only; its properties are the lemmas about `AdjustPass`.
- TrackModel.Artist: its own contract states only that the result is stripped of spaces and dashes; what it takes from the name and the title is stated by `ArtistWithoutDash` and `ArtistPrefixRoundTrip` for those shapes of name, and the remixer rule by `DropRemixer`.
