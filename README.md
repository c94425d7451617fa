# snap-python: channel-map to track-map conversion, in Dafny

This project models two pieces of snap-python, a client library for the snapd daemon and the Snap Store API.

The first is the conversion of a snap's store **channel map** into a **track map** (`src/snap_python/schemas/store/track.py`). The channel map is a flat list of items, one per track/risk/architecture release. The track map is a nested map `track -> risk -> TrackRiskMap`. A `TrackRiskMap` has one slot per architecture (amd64, arm64, armhf, i386, powerpc, ppc64el, s390x, riscv64). Each filled slot holds the `TrackRevisionDetails` of the revision released there. The architecture validator, the `architectures` property and the standalone single-item converter are modelled with it.

The second is the pure logic of the scraper (`src/snap_python/scrape.py`):
- choosing the channel-map item with the highest revision;
- the file name a revision's download is saved under;
- the range of revisions the scraper visits.

Files:
- `wrappers.dfy`: `Option` and `Result`.
- `store_schema.dfy`: the fields of a channel-map item that the code reads, and the Python exceptions it raises (`Error`). A field is an `Option` exactly where the code tests it for `None` or for falsiness.
- `track.dfy` (module `Track`): the data model, the per-item conversions, and the specification function `CurrentTrackMap`. The method `ChannelMapToCurrentTrackMap` is proved to compute that function. The source's three loops are three methods: `NewRiskTable`, `FillRiskTable` and `Revalidate`.
- `track_properties.dfy` (module `TrackProperties`): what the conversion promises, proved of `CurrentTrackMap`.
- `scrape.dfy` (module `Scrape`): highest revision, `split("/")[-1]`, `range`, and the finding below.

The set of allowed architecture names (`VALID_SNAP_ARCHITECTURES`) is defined in a module that is not part of this model. It is a parameter `valid` throughout.

Exceptions are `Err` values, in the order Python raises them:
1. `item.channel.track` on an item without a channel raises `AttributeError` while the tracks are collected (line 72). This happens before anything else.
2. Joining the track names for the log line raises `TypeError` if a track is `None` (line 73).
3. Then the items are processed in list order. The first kept item that fails decides the error:
   - a failed `assert` gives `AssertionError(field)`;
   - a pydantic rejection gives `ValidationError(fields)`: a disallowed architecture, a `None` risk, or, in the standalone converter, a missing date.

The code asserts `item.channel is not None` at line 91, but that assertion can never fail: line 72 has already dereferenced every channel. The model therefore has no error for it.

## Model

| member | source | states |
|---|---|---|
| `Track.ValidateArch` | src/snap_python/schemas/store/track.py:35-42 | the name is returned unchanged exactly when it is in the allowed set; otherwise the error is `InvalidArchitecture` carrying that name |
| `Track.NewTrackRevisionDetails` | src/snap_python/schemas/store/track.py:16-42 | building details succeeds exactly when the architecture is allowed and the risk and both dates are present; the fields are the given values; a failure names exactly the rejected fields |
| `Track.Architectures` | src/snap_python/schemas/store/track.py:57-62 | a name is listed exactly when it is a slot name and that slot is filled, and the list is a subsequence of the slot declaration order |
| `Track.ToRiskMap` | src/snap_python/schemas/store/track.py:122-124 | each slot of the re-validated risk map holds the dict's entry under its own name, or nothing; keys that are not slot names are dropped |
| `Track.ChannelMapItemToTrackRevisionDetails` | src/snap_python/schemas/store/track.py:129-157 | a missing revision, channel, track or risk is an assertion failure, checked in that order; success exactly when those are present, the architecture is allowed and both dates are present; name, architecture, track, risk, revision and dates are copied; a falsy base, confinement or version becomes "unset"; when the four assertions pass, a failure is a `ValidationError` that names "architecture" exactly when it is disallowed and "created_at" or "released_at" exactly when that date is missing |
| `Track.KeptItemDetails` | src/snap_python/schemas/store/track.py:88-118 | for a kept item, a missing revision, confinement, created_at or released_at is an assertion failure, checked in that order; success exactly when those and the risk are present and the architecture is allowed; the channel's architecture, track and risk are copied; base and version default to "unset"; confinement is copied as is; when the four assertions pass, a failure is a `ValidationError` that names "architecture" exactly when it is disallowed and "risk" exactly when the risk is `None` |
| `Track.CurrentTrackMap` | src/snap_python/schemas/store/track.py:65-126 | the specification of the conversion: on success every item has a channel and a track, and the result's tracks are the tracks of all items; its error order and contents are the `TrackProperties` lemmas |
| `Track.Fill` | src/snap_python/schemas/store/track.py:78-119 | the filling loop never adds or removes a track |
| `Track.NewRiskTable` | src/snap_python/schemas/store/track.py:75-76 | after the first loop every collected track maps to an empty risk dict |
| `Track.FillRiskTable` | src/snap_python/schemas/store/track.py:78-119 | the second loop computes exactly `Fill`: items in order, with skips, assertion and validation failures, and overwriting stores |
| `Track.Revalidate` | src/snap_python/schemas/store/track.py:121-124 | the third loop turns every risk's dict into its `TrackRiskMap` and keeps all tracks and risks |
| `Track.ChannelMapToCurrentTrackMap` | src/snap_python/schemas/store/track.py:65-126 | the method returns exactly `CurrentTrackMap` (its result or its error), whose properties are the `TrackProperties` lemmas |
| `TrackProperties.LastSlotIndex` | src/snap_python/schemas/store/track.py:78-106 | the index is -1 or names a kept item released to the slot, and no later item is released to that slot: the item whose store at line 106 is not overwritten |
| `TrackProperties.FillContents` | src/snap_python/schemas/store/track.py:78-119 | from empty risk dicts, the filling loop keeps the tracks; it succeeds only if every kept item passed its checks; a risk appears exactly for a kept item of that track and risk; an entry appears exactly for a kept item of that slot and holds the details of the last such item |
| `TrackProperties.CurrentTrackMapSucceeds` | src/snap_python/schemas/store/track.py:72-107 | a missing channel is `AttributeError`; otherwise a missing track is `TypeError`; the conversion succeeds exactly when all tracks are present and every kept item passes its checks |
| `TrackProperties.FirstFailingItemDecidesError` | src/snap_python/schemas/store/track.py:78-107 | when the first kept item that fails its checks is item j, the conversion raises exactly item j's error |
| `TrackProperties.TrackKeysAreAllTracks` | src/snap_python/schemas/store/track.py:72-76 | the result's tracks are the tracks of all items, including skipped items |
| `TrackProperties.RiskKeysComeFromKeptItems` | src/snap_python/schemas/store/track.py:82-104 | a risk exists under a track exactly when some item with a non-empty architectures list was released to that track and risk |
| `TrackProperties.SlotHoldsLastItem` | src/snap_python/schemas/store/track.py:106-124 | a slot is filled exactly when some kept item's channel architecture names it; it holds that item's details, and no later item has the same track, risk and architecture |
| `TrackProperties.StoredDetailsDescribeTheirSlot` | src/snap_python/schemas/store/track.py:106-118 | details stored at track t, risk r, slot a have track t, risk r and architecture a; a is allowed; revision, confinement, dates and name come from an item released there; base and version are that item's values, or "unset" when falsy |
| `TrackProperties.ArchitecturesListsOccupiedSlots` | src/snap_python/schemas/store/track.py:57-62 | `architectures` of a risk in the result lists exactly the slot names that some kept item was released to, in declaration order |
| `TrackProperties.ConverterAgreesWithKeptItemDetails` | src/snap_python/schemas/store/track.py:146-157 | for a kept item that the conversion accepts, the standalone converter gives the same details when the confinement is non-empty; for an empty confinement it gives "unset" where the conversion keeps "" |
| `Scrape.HighestRevisionIndex` | src/snap_python/scrape.py:10 | the index is in range, holds a revision no smaller than any other, and no earlier index holds an equal revision (the first maximum, as `max` returns) |
| `Scrape.GetHighestRevision` | src/snap_python/scrape.py:8-10 | an empty list is a `ValueError`; with two or more items a `None` revision is a `TypeError`; otherwise the result is an element of the list whose revision is the largest, and it is the first such element |
| `Scrape.Split` | src/snap_python/scrape.py:53 | `split` gives at least one part, no part contains the separator, and joining the parts with the separator gives back the string |
| `Scrape.DownloadFileName` | src/snap_python/scrape.py:52-54 | the download file name contains no "/", ends the URL, and has a "/" right before it unless it is the whole URL; a URL without "/" is its own file name |
| `Scrape.Range` | src/snap_python/scrape.py:34 | `range(lo, hi)` has max(hi - lo, 0) elements and element i is lo + i |
| `Scrape.RevisionsVisited` | src/snap_python/scrape.py:28-34 | as written: a `None` highest revision is a `TypeError` (`None + 1`); otherwise as many revisions as the highest revision, none if it is below 1 |
| `Scrape.RevisionsIntended` | src/snap_python/scrape.py:17-34 | corrected: a `None` highest revision is a `TypeError`; otherwise one revision for each value from the start revision to the highest, none if the start is above the highest |
| `Scrape.SingleItemWithoutRevisionFailsInRange` | src/snap_python/scrape.py:10-34 | a one-item channel map whose item has no revision is returned by `get_highest_revision` unchanged, and the range then raises `TypeError` |
| `Scrape.RevisionsVisitedAreOneToHighest` | src/snap_python/scrape.py:34 | as written, the scraper visits exactly the revisions 1 to the highest revision, in strictly ascending order, whatever the start revision |
| `Scrape.StartRevisionIsIgnored` | src/snap_python/scrape.py:17-34 | for 1 < start <= highest, revision 1 is visited although it lies before the start, so the visited range differs from the intended one |
| `Scrape.RevisionsIntendedAreStartToHighest` | src/snap_python/scrape.py:30-34 | the corrected range visits exactly the revisions from the start revision to the highest, in strictly ascending order |

## Findings

| source | as written | input that shows it | evidently intended | confidence | as-written member | corrected member |
|---|---|---|---|---|---|---|
| src/snap_python/scrape.py:34 | `range(1, current_snap_channel.revision + 1)`: the `start_revision` parameter (line 17) is never used | `start_revision=5` with highest revision 7: revisions 1 to 7 are fetched and downloaded, but the log line at 30-32 announces "from revision 5 to 7" | `range(start_revision, current_snap_channel.revision + 1)` | medium; not executed | `Scrape.RevisionsVisited`, `Scrape.StartRevisionIsIgnored` | `Scrape.RevisionsIntended`, `Scrape.RevisionsIntendedAreStartToHighest` |

## Left out

- `src/snap_python/client.py` is not part of this model. It contains the HTTP transport, the third-party `retry` decorator and the unbounded async change-polling loop with `asyncio.sleep`. All of that is network I/O, and its retry semantics are not visible in the source.
- The `src/pysnap` package (thin HTTP wrappers) is not modelled.
- The declarative pydantic schemas for search and categories are not modelled.
- The `ChannelMapItem` schema (`schemas/store/info.py`) is not part of this model. The channel's `name` and `architecture` are taken to be plain strings. Every other field the code tests for `None` is an `Option`.
- `VALID_SNAP_ARCHITECTURES` is defined in a module that is not part of this model. It is the parameter `valid`.
- Aware datetimes are opaque values that are only copied. pydantic's rejection of naive datetimes and its type coercions are not modelled.
- A pydantic `ValidationError` is modelled only by the set of rejected field names, not by its messages.
- The log output is not modelled: `print`, `logger.debug` and the `logger.error` for a skipped item. The one exception is the `TypeError` that building the debug message raises on a `None` track, which is modelled.
- Dict and set iteration order is not modelled, because Dafny maps are unordered. The order of tracks and risks in the result is therefore not captured. The order of slots in `architectures` is captured.
- `Track.Revalidate` builds a new map instead of overwriting `risk_map[risk]` in place. The dict is local to the call, so the difference cannot be observed.
- `Track.FillRiskTable` validates an item's details before it creates the risk key (lines 102-104 come first in the source). A failed validation aborts the whole call, so the order cannot be observed.
- `get_all_snap_content` is not modelled beyond its revision range and its download file name. The store requests, directory creation, JSON writes and the streamed download are I/O.
- The path joined from the revision directory and the file name (pathlib semantics) is not modelled.
