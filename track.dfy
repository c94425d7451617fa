/**
 * The conversion of a snap's channel map into a map track -> risk -> per-architecture
 * revision details (`snap_python.schemas.store.track`).
 * The set of allowed architecture names is a parameter `valid`.
 */
module Track {
  import opened Wrappers
  import opened StoreSchema

  /** The details of the revision released to one track/risk/architecture. */
  datatype TrackRevisionDetails = TrackRevisionDetails(
    name: string,
    architecture: string,
    base: string,
    confinement: string,
    createdAt: Timestamp,
    releasedAt: Timestamp,
    revision: int,
    risk: string,
    track: string,
    version: string)

  /** The default of `base` and `version`, and the converter's default of `confinement`. */
  const Unset: string := "unset"

  /** The architecture validator: the name is accepted unchanged exactly when it is allowed. */
  function ValidateArch(value: string, valid: set<string>): (r: Result<string, Error>)
    ensures r.Ok? <==> value in valid
    ensures r.Ok? ==> r.value == value
    ensures r.Err? ==> r.error == InvalidArchitecture(value)
  {
    if value !in valid then Err(InvalidArchitecture(value)) else Ok(value)
  }

  /** Python's `value or "unset"`: `None` and the empty string are falsy. */
  function OrUnset(value: Option<string>): (r: string)
    ensures r != ""
    ensures value.Some? && value.value != "" ==> r == value.value
    ensures value.None? || value.value == "" ==> r == Unset
  {
    if value.Some? && value.value != "" then value.value else Unset
  }

  /**
   * Building a `TrackRevisionDetails`: pydantic rejects a disallowed architecture and a
   * `None` for a required field, reporting every rejected field at once.
   */
  function NewTrackRevisionDetails(
    valid: set<string>, name: string, architecture: string, base: string, confinement: string,
    createdAt: Option<Timestamp>, releasedAt: Option<Timestamp>, revision: int,
    risk: Option<string>, track: string, version: string): (r: Result<TrackRevisionDetails, Error>)
    ensures r.Ok? <==> architecture in valid && createdAt.Some? && releasedAt.Some? && risk.Some?
    ensures r.Ok? ==> r.value == TrackRevisionDetails(
      name, architecture, base, confinement, createdAt.value, releasedAt.value,
      revision, risk.value, track, version)
    ensures r.Err? ==> && r.error.ValidationError?
                       && ("architecture" in r.error.fields <==> architecture !in valid)
                       && ("created_at" in r.error.fields <==> createdAt.None?)
                       && ("released_at" in r.error.fields <==> releasedAt.None?)
                       && ("risk" in r.error.fields <==> risk.None?)
  {
    var rejected :=
      (if ValidateArch(architecture, valid).Err? then {"architecture"} else {})
      + (if createdAt.None? then {"created_at"} else {})
      + (if releasedAt.None? then {"released_at"} else {})
      + (if risk.None? then {"risk"} else {});
    if rejected != {} then Err(ValidationError(rejected))
    else Ok(TrackRevisionDetails(
      name, architecture, base, confinement, createdAt.value, releasedAt.value,
      revision, risk.value, track, version))
  }

  /** The per-architecture slots of one risk. */
  datatype TrackRiskMap = TrackRiskMap(
    amd64: Option<TrackRevisionDetails>,
    arm64: Option<TrackRevisionDetails>,
    armhf: Option<TrackRevisionDetails>,
    i386: Option<TrackRevisionDetails>,
    powerpc: Option<TrackRevisionDetails>,
    ppc64el: Option<TrackRevisionDetails>,
    s390x: Option<TrackRevisionDetails>,
    riscv64: Option<TrackRevisionDetails>)

  /** The slot names of `TrackRiskMap`, in declaration order. */
  const SlotNames: seq<string> := ["amd64", "arm64", "armhf", "i386", "powerpc", "ppc64el", "s390x", "riscv64"]

  /** The slot called `arch`; `None` for a name that is not a slot. */
  function Slot(rm: TrackRiskMap, arch: string): Option<TrackRevisionDetails>
  {
    if arch == "amd64" then rm.amd64
    else if arch == "arm64" then rm.arm64
    else if arch == "armhf" then rm.armhf
    else if arch == "i386" then rm.i386
    else if arch == "powerpc" then rm.powerpc
    else if arch == "ppc64el" then rm.ppc64el
    else if arch == "s390x" then rm.s390x
    else if arch == "riscv64" then rm.riscv64
    else None
  }

  /** `xs` is `ys` with some elements deleted, the rest kept in order. */
  predicate Subsequence(xs: seq<string>, ys: seq<string>)
    decreases |ys|
  {
    xs == [] || (ys != [] && ((xs[0] == ys[0] && Subsequence(xs[1..], ys[1..])) || Subsequence(xs, ys[1..])))
  }

  /** The names in `names` whose slot is filled, in the order of `names`. */
  function Occupied(rm: TrackRiskMap, names: seq<string>): (archs: seq<string>)
    ensures forall a :: a in archs <==> a in names && Slot(rm, a).Some?
    ensures Subsequence(archs, names)
    decreases |names|
  {
    if names == [] then []
    else if Slot(rm, names[0]).Some? then [names[0]] + Occupied(rm, names[1..])
    else Occupied(rm, names[1..])
  }

  /** The `architectures` property: the names of the filled slots, in declaration order. */
  function Architectures(rm: TrackRiskMap): (archs: seq<string>)
    ensures forall a :: a in archs <==> a in SlotNames && Slot(rm, a).Some?
    ensures Subsequence(archs, SlotNames)
  {
    Occupied(rm, SlotNames)
  }

  function Lookup(am: map<string, TrackRevisionDetails>, arch: string): Option<TrackRevisionDetails>
  {
    if arch in am then Some(am[arch]) else None
  }

  /**
   * `TrackRiskMap.model_validate` of a dict keyed by architecture: each slot takes the entry
   * of its name; entries whose key is not a slot name are dropped.
   */
  function ToRiskMap(am: map<string, TrackRevisionDetails>): (rm: TrackRiskMap)
    ensures forall a :: Slot(rm, a) == if a in SlotNames then Lookup(am, a) else None
  {
    TrackRiskMap(
      Lookup(am, "amd64"), Lookup(am, "arm64"), Lookup(am, "armhf"), Lookup(am, "i386"),
      Lookup(am, "powerpc"), Lookup(am, "ppc64el"), Lookup(am, "s390x"), Lookup(am, "riscv64"))
  }

  /**
   * The standalone converter of one channel-map item: it asserts that the revision, the channel,
   * its track and its risk are present, and defaults a falsy base, confinement or version.
   */
  function ChannelMapItemToTrackRevisionDetails(item: ChannelMapItem, valid: set<string>): (r: Result<TrackRevisionDetails, Error>)
    ensures item.revision.None? ==> r == Err(AssertionError("revision"))
    ensures item.revision.Some? && item.channel.None? ==> r == Err(AssertionError("channel"))
    ensures item.revision.Some? && item.channel.Some? && item.channel.value.track.None? ==> r == Err(AssertionError("track"))
    ensures item.revision.Some? && item.channel.Some? && item.channel.value.track.Some? && item.channel.value.risk.None?
            ==> r == Err(AssertionError("risk"))
    ensures r.Ok? <==> && item.revision.Some? && item.channel.Some?
                       && item.channel.value.track.Some? && item.channel.value.risk.Some?
                       && item.channel.value.architecture in valid
                       && item.createdAt.Some? && item.channel.value.releasedAt.Some?
    ensures && item.revision.Some? && item.channel.Some?
            && item.channel.value.track.Some? && item.channel.value.risk.Some? && r.Err?
            ==> && r.error.ValidationError?
                && ("architecture" in r.error.fields <==> item.channel.value.architecture !in valid)
                && ("created_at" in r.error.fields <==> item.createdAt.None?)
                && ("released_at" in r.error.fields <==> item.channel.value.releasedAt.None?)
                && "risk" !in r.error.fields
    ensures r.Ok? ==> && r.value.name == item.channel.value.name
                      && r.value.architecture == item.channel.value.architecture
                      && r.value.track == item.channel.value.track.value
                      && r.value.risk == item.channel.value.risk.value
                      && r.value.revision == item.revision.value
                      && r.value.createdAt == item.createdAt.value
                      && r.value.releasedAt == item.channel.value.releasedAt.value
                      && r.value.base == OrUnset(item.base)
                      && r.value.confinement == OrUnset(item.confinement)
                      && r.value.version == OrUnset(item.version)
  {
    if item.revision.None? then Err(AssertionError("revision"))
    else if item.channel.None? then Err(AssertionError("channel"))
    else if item.channel.value.track.None? then Err(AssertionError("track"))
    else if item.channel.value.risk.None? then Err(AssertionError("risk"))
    else
      var channel := item.channel.value;
      NewTrackRevisionDetails(
        valid, channel.name, channel.architecture, OrUnset(item.base), OrUnset(item.confinement),
        item.createdAt, channel.releasedAt, item.revision.value, channel.risk,
        channel.track.value, OrUnset(item.version))
  }

  /** An item is kept by the track-map conversion when its `architectures` list is truthy. */
  predicate Kept(item: ChannelMapItem)
  {
    item.architectures.Some? && item.architectures.value != []
  }

  /** The item has a channel whose track is one of `tracks`. */
  predicate HasTrackIn(item: ChannelMapItem, tracks: set<string>)
  {
    item.channel.Some? && item.channel.value.track.Some? && item.channel.value.track.value in tracks
  }

  /** The item is kept and released to track `t`, risk `r`. */
  predicate HasTrackRisk(item: ChannelMapItem, t: string, r: string)
  {
    Kept(item) && item.channel.Some? && item.channel.value.track == Some(t) && item.channel.value.risk == Some(r)
  }

  /** The item is kept and released to track `t`, risk `r`, architecture `a` (of its channel). */
  predicate HasSlot(item: ChannelMapItem, t: string, r: string, a: string)
  {
    HasTrackRisk(item, t, r) && item.channel.value.architecture == a
  }

  /**
   * What the track-map conversion makes of one kept item: four assertions, then the details
   * built from the channel, with `base` and `version` defaulted; the confinement is not defaulted.
   */
  function KeptItemDetails(item: ChannelMapItem, valid: set<string>): (r: Result<TrackRevisionDetails, Error>)
    requires item.channel.Some? && item.channel.value.track.Some?
    ensures item.revision.None? ==> r == Err(AssertionError("revision"))
    ensures item.revision.Some? && item.confinement.None? ==> r == Err(AssertionError("confinement"))
    ensures item.revision.Some? && item.confinement.Some? && item.createdAt.None? ==> r == Err(AssertionError("created_at"))
    ensures item.revision.Some? && item.confinement.Some? && item.createdAt.Some? && item.channel.value.releasedAt.None?
            ==> r == Err(AssertionError("released_at"))
    ensures r.Ok? <==> && item.revision.Some? && item.confinement.Some? && item.createdAt.Some?
                       && item.channel.value.releasedAt.Some? && item.channel.value.risk.Some?
                       && item.channel.value.architecture in valid
    ensures && item.revision.Some? && item.confinement.Some? && item.createdAt.Some?
            && item.channel.value.releasedAt.Some? && r.Err?
            ==> && r.error.ValidationError?
                && ("architecture" in r.error.fields <==> item.channel.value.architecture !in valid)
                && ("risk" in r.error.fields <==> item.channel.value.risk.None?)
                && "created_at" !in r.error.fields && "released_at" !in r.error.fields
    ensures r.Ok? ==> && r.value.name == item.channel.value.name
                      && r.value.architecture == item.channel.value.architecture
                      && r.value.track == item.channel.value.track.value
                      && r.value.risk == item.channel.value.risk.value
                      && r.value.revision == item.revision.value
                      && r.value.confinement == item.confinement.value
                      && r.value.createdAt == item.createdAt.value
                      && r.value.releasedAt == item.channel.value.releasedAt.value
                      && r.value.base == OrUnset(item.base)
                      && r.value.version == OrUnset(item.version)
  {
    var channel := item.channel.value;
    if item.revision.None? then Err(AssertionError("revision"))
    else if item.confinement.None? then Err(AssertionError("confinement"))
    else if item.createdAt.None? then Err(AssertionError("created_at"))
    else if channel.releasedAt.None? then Err(AssertionError("released_at"))
    else NewTrackRevisionDetails(
      valid, channel.name, channel.architecture, OrUnset(item.base), item.confinement.value,
      item.createdAt, channel.releasedAt, item.revision.value, channel.risk,
      channel.track.value, OrUnset(item.version))
  }

  /** The nested dict while it is being filled: track -> risk -> architecture -> details. */
  type RiskTable = map<string, map<string, map<string, TrackRevisionDetails>>>

  /** The result: track -> risk -> slots. */
  type TrackMap = map<string, map<string, TrackRiskMap>>

  /** One iteration of the filling loop: skip, fail, or store the item's details under its slot. */
  function FillStep(m: RiskTable, item: ChannelMapItem, valid: set<string>): (r: Result<RiskTable, Error>)
    requires HasTrackIn(item, m.Keys)
    ensures r.Ok? ==> r.value.Keys == m.Keys
  {
    if !Kept(item) then Ok(m)
    else match KeptItemDetails(item, valid)
      case Err(e) => Err(e)
      case Ok(d) =>
        var t := item.channel.value.track.value;
        var risk := item.channel.value.risk.value;
        var archs := if risk in m[t] then m[t][risk] else map[];
        Ok(m[t := m[t][risk := archs[item.channel.value.architecture := d]]])
  }

  /** The filling loop run over `items` in order, from `init`; the first failure ends it. */
  function Fill(items: seq<ChannelMapItem>, valid: set<string>, init: RiskTable): (r: Result<RiskTable, Error>)
    requires forall i :: 0 <= i < |items| ==> HasTrackIn(items[i], init.Keys)
    ensures r.Ok? ==> r.value.Keys == init.Keys
    decreases |items|
  {
    if items == [] then Ok(init)
    else
      var front := items[..|items| - 1];
      assert forall i :: 0 <= i < |front| ==> front[i] == items[i];
      match Fill(front, valid, init)
      case Err(e) => Err(e)
      case Ok(m) => FillStep(m, items[|items| - 1], valid)
  }

  predicate ChannelsPresent(items: seq<ChannelMapItem>)
  {
    forall i :: 0 <= i < |items| ==> items[i].channel.Some?
  }

  predicate TracksPresent(items: seq<ChannelMapItem>)
  {
    forall i :: 0 <= i < |items| ==> items[i].channel.Some? && items[i].channel.value.track.Some?
  }

  /** The track names of all items, skipped ones included. */
  function TracksOf(items: seq<ChannelMapItem>): set<string>
    requires TracksPresent(items)
  {
    set i | 0 <= i < |items| :: items[i].channel.value.track.value
  }

  /** Every track mapped to an empty risk dict. */
  function EmptyRisks(tracks: set<string>): RiskTable
  {
    map t | t in tracks :: map[]
  }

  function FinalizeRisks(risks: map<string, map<string, TrackRevisionDetails>>): map<string, TrackRiskMap>
  {
    map r | r in risks :: ToRiskMap(risks[r])
  }

  /** The closing re-validation: every risk's dict becomes a `TrackRiskMap`. */
  function Finalize(m: RiskTable): TrackMap
  {
    map t | t in m :: FinalizeRisks(m[t])
  }

  /**
   * What `channel_map_to_current_track_map` returns or raises. On success every item has a
   * channel and a track, and the tracks of the result are those of all items, skipped ones included.
   */
  function CurrentTrackMap(items: seq<ChannelMapItem>, valid: set<string>): (r: Result<TrackMap, Error>)
    ensures r.Ok? ==> ChannelsPresent(items) && TracksPresent(items) && r.value.Keys == TracksOf(items)
  {
    if !ChannelsPresent(items) then Err(AttributeError)
    else if !TracksPresent(items) then Err(TypeError)
    else match Fill(items, valid, EmptyRisks(TracksOf(items)))
      case Err(e) => Err(e)
      case Ok(m) => Ok(Finalize(m))
  }

  /** Once the filling loop has failed on a prefix, it fails the same way on the whole list. */
  lemma {:induction false} FillFailurePersists(items: seq<ChannelMapItem>, n: nat, valid: set<string>, init: RiskTable, e: Error)
    requires n <= |items|
    requires forall i :: 0 <= i < |items| ==> HasTrackIn(items[i], init.Keys)
    requires Fill(items[..n], valid, init) == Err(e)
    ensures Fill(items, valid, init) == Err(e)
    decreases |items| - n
  {
    if n < |items| {
      var front := items[..|items| - 1];
      assert items[..n] == front[..n];
      FillFailurePersists(front, n, valid, init, e);
    } else {
      assert items[..n] == items;
    }
  }

  /** The first loop: every track starts with an empty risk dict. */
  method NewRiskTable(tracks: set<string>) returns (table: RiskTable)
    ensures table == EmptyRisks(tracks)
  {
    table := map[];
    var tracksLeft := tracks;
    while tracksLeft != {}
      invariant tracksLeft <= tracks
      invariant table == EmptyRisks(tracks - tracksLeft)
      decreases tracksLeft
    {
      var t :| t in tracksLeft;
      table := table[t := map[]];
      tracksLeft := tracksLeft - {t};
    }
    assert tracks - tracksLeft == tracks;
  }

  /** The second loop: each kept item's details overwrite its track/risk/architecture entry. */
  method FillRiskTable(channelMap: seq<ChannelMapItem>, valid: set<string>, init: RiskTable) returns (r: Result<RiskTable, Error>)
    requires forall k :: 0 <= k < |channelMap| ==> HasTrackIn(channelMap[k], init.Keys)
    ensures r == Fill(channelMap, valid, init)
  {
    var current := init;
    var i := 0;
    while i < |channelMap|
      invariant 0 <= i <= |channelMap|
      invariant Fill(channelMap[..i], valid, init) == Ok(current)
    {
      var item := channelMap[i];
      assert channelMap[..i + 1][..i] == channelMap[..i];
      assert channelMap[..i + 1][i] == item;
      assert Fill(channelMap[..i + 1], valid, init) == FillStep(current, item, valid);
      if Kept(item) {
        var details := KeptItemDetails(item, valid);
        if details.Err? {
          FillFailurePersists(channelMap, i + 1, valid, init, details.error);
          return Err(details.error);
        }
        var channel := item.channel.value;
        var track := channel.track.value;
        var risk := channel.risk.value;
        ghost var expected := FillStep(current, item, valid).value;
        var risks := current[track];
        ghost var archs := if risk in risks then risks[risk] else map[];
        if risk !in risks {
          risks := risks[risk := map[]];
        }
        assert risks[risk] == archs;
        risks := risks[risk := risks[risk][channel.architecture := details.value]];
        assert risks == current[track][risk := archs[channel.architecture := details.value]];
        current := current[track := risks];
        assert current == expected;
      }
      i := i + 1;
    }
    assert channelMap[..i] == channelMap;
    r := Ok(current);
  }

  /** The third loop: every risk's dict is re-validated as a `TrackRiskMap`. */
  method Revalidate(current: RiskTable) returns (trackMap: TrackMap)
    ensures trackMap == Finalize(current)
  {
    trackMap := map[];
    var remaining := current.Keys;
    while remaining != {}
      invariant remaining <= current.Keys
      invariant trackMap.Keys == current.Keys - remaining
      invariant forall t :: t in trackMap ==> trackMap[t] == FinalizeRisks(current[t])
      decreases remaining
    {
      var t :| t in remaining;
      var riskDict := current[t];
      var riskMap: map<string, TrackRiskMap> := map[];
      var risksLeft := riskDict.Keys;
      while risksLeft != {}
        invariant risksLeft <= riskDict.Keys
        invariant riskMap.Keys == riskDict.Keys - risksLeft
        invariant forall k :: k in riskMap ==> riskMap[k] == ToRiskMap(riskDict[k])
        decreases risksLeft
      {
        var k :| k in risksLeft;
        riskMap := riskMap[k := ToRiskMap(riskDict[k])];
        risksLeft := risksLeft - {k};
      }
      assert riskMap == FinalizeRisks(riskDict);
      trackMap := trackMap[t := riskMap];
      remaining := remaining - {t};
    }
    assert trackMap == Finalize(current);
  }

  /** `channel_map_to_current_track_map`: collect the tracks, then run the three loops. */
  method ChannelMapToCurrentTrackMap(channelMap: seq<ChannelMapItem>, valid: set<string>) returns (r: Result<TrackMap, Error>)
    ensures r == CurrentTrackMap(channelMap, valid)
  {
    // Collecting the tracks reads `item.channel.track` of every item; logging them joins the names.
    if exists k :: 0 <= k < |channelMap| && channelMap[k].channel.None? {
      return Err(AttributeError);
    }
    if exists k :: 0 <= k < |channelMap| && channelMap[k].channel.value.track.None? {
      return Err(TypeError);
    }
    var allTracks := TracksOf(channelMap);
    var init := NewRiskTable(allTracks);
    assert forall k :: 0 <= k < |channelMap| ==> HasTrackIn(channelMap[k], init.Keys);
    var filled := FillRiskTable(channelMap, valid, init);
    if filled.Err? {
      return Err(filled.error);
    }
    var trackMap := Revalidate(filled.value);
    r := Ok(trackMap);
  }
}
