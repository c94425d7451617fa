/**
 * What `channel_map_to_current_track_map` promises about its result, proved of its
 * specification `Track.CurrentTrackMap` (which the method `Track.ChannelMapToCurrentTrackMap`
 * is proved to compute).
 */
module TrackProperties {
  import opened Wrappers
  import opened StoreSchema
  import opened Track

  /** Every track of the starting table has an empty risk dict. */
  predicate EmptyInner(init: RiskTable)
  {
    forall t :: t in init ==> init[t] == map[]
  }

  /** A risk appears under a track exactly for a kept item released to that track and risk. */
  ghost predicate RisksFrom(items: seq<ChannelMapItem>, m: RiskTable)
  {
    forall t, r :: t in m ==> (r in m[t] <==> exists i :: 0 <= i < |items| && HasTrackRisk(items[i], t, r))
  }

  /** An architecture entry appears exactly for a kept item released to that slot. */
  ghost predicate SlotsFrom(items: seq<ChannelMapItem>, m: RiskTable)
  {
    forall t, r, a :: t in m && r in m[t] ==>
      (a in m[t][r] <==> exists i :: 0 <= i < |items| && HasSlot(items[i], t, r, a))
  }

  /** The index of the last kept item released to slot (t, r, a), or -1 when there is none. */
  function LastSlotIndex(items: seq<ChannelMapItem>, t: string, r: string, a: string): (j: int)
    ensures -1 <= j < |items|
    ensures j >= 0 ==> HasSlot(items[j], t, r, a)
    ensures forall k :: j < k < |items| ==> !HasSlot(items[k], t, r, a)
    decreases |items|
  {
    if items == [] then -1
    else if HasSlot(items[|items| - 1], t, r, a) then |items| - 1
    else LastSlotIndex(items[..|items| - 1], t, r, a)
  }

  /** Every entry holds the details of the last kept item released to its slot. */
  ghost predicate LastWins(items: seq<ChannelMapItem>, valid: set<string>, m: RiskTable)
  {
    forall t, r, a :: t in m && r in m[t] && a in m[t][r] ==>
      && LastSlotIndex(items, t, r, a) >= 0
      && KeptItemDetails(items[LastSlotIndex(items, t, r, a)], valid) == Ok(m[t][r][a])
  }

  /** One more item keeps `RisksFrom`. */
  lemma RisksFromStep(front: seq<ChannelMapItem>, last: ChannelMapItem, valid: set<string>, m': RiskTable, m: RiskTable)
    requires HasTrackIn(last, m'.Keys)
    requires RisksFrom(front, m')
    requires FillStep(m', last, valid) == Ok(m)
    ensures RisksFrom(front + [last], m)
  {
    var items := front + [last];
    var n := |front|;
    assert forall i :: 0 <= i < n ==> items[i] == front[i];
    forall t, r | t in m
      ensures r in m[t] <==> exists i :: 0 <= i < |items| && HasTrackRisk(items[i], t, r)
    {
      if r in m[t] {
        if HasTrackRisk(last, t, r) {
          assert HasTrackRisk(items[n], t, r);
        } else {
          assert r in m'[t];
          var i :| 0 <= i < |front| && HasTrackRisk(front[i], t, r);
          assert HasTrackRisk(items[i], t, r);
        }
      }
      if exists i :: 0 <= i < |items| && HasTrackRisk(items[i], t, r) {
        var i :| 0 <= i < |items| && HasTrackRisk(items[i], t, r);
        if i < n {
          assert HasTrackRisk(front[i], t, r);
          assert r in m'[t];
        }
      }
    }
  }

  /** One more item keeps `SlotsFrom`. */
  lemma SlotsFromStep(front: seq<ChannelMapItem>, last: ChannelMapItem, valid: set<string>, m': RiskTable, m: RiskTable)
    requires HasTrackIn(last, m'.Keys)
    requires RisksFrom(front, m') && SlotsFrom(front, m')
    requires FillStep(m', last, valid) == Ok(m)
    ensures SlotsFrom(front + [last], m)
  {
    var items := front + [last];
    var n := |front|;
    assert forall i :: 0 <= i < n ==> items[i] == front[i];
    forall t, r, a | t in m && r in m[t]
      ensures a in m[t][r] <==> exists i :: 0 <= i < |items| && HasSlot(items[i], t, r, a)
    {
      if a in m[t][r] {
        if HasSlot(last, t, r, a) {
          assert HasSlot(items[n], t, r, a);
        } else {
          assert r in m'[t] && a in m'[t][r];
          var i :| 0 <= i < |front| && HasSlot(front[i], t, r, a);
          assert HasSlot(items[i], t, r, a);
        }
      }
      if exists i :: 0 <= i < |items| && HasSlot(items[i], t, r, a) {
        var i :| 0 <= i < |items| && HasSlot(items[i], t, r, a);
        if i < n {
          assert HasSlot(front[i], t, r, a) && HasTrackRisk(front[i], t, r);
          assert r in m'[t] && a in m'[t][r];
        }
      }
    }
  }

  /** One more item keeps `LastWins`: it overwrites its own slot and no other. */
  lemma LastWinsStep(front: seq<ChannelMapItem>, last: ChannelMapItem, valid: set<string>, m': RiskTable, m: RiskTable)
    requires HasTrackIn(last, m'.Keys)
    requires LastWins(front, valid, m')
    requires FillStep(m', last, valid) == Ok(m)
    ensures LastWins(front + [last], valid, m)
  {
    var items := front + [last];
    var n := |front|;
    assert items[..n] == front && items[n] == last;
    forall t, r, a | t in m && r in m[t] && a in m[t][r]
      ensures && LastSlotIndex(items, t, r, a) >= 0
              && KeptItemDetails(items[LastSlotIndex(items, t, r, a)], valid) == Ok(m[t][r][a])
    {
      if HasSlot(last, t, r, a) {
        assert LastSlotIndex(items, t, r, a) == n;
      } else {
        assert LastSlotIndex(items, t, r, a) == LastSlotIndex(front, t, r, a);
        assert r in m'[t] && a in m'[t][r] && m[t][r][a] == m'[t][r][a];
      }
    }
  }

  /**
   * The filling loop, from a table of empty risk dicts: tracks are unchanged, every kept item
   * passed its checks, a risk appears exactly for a kept item of that track and risk, an
   * architecture entry exactly for a kept item of that slot, and the entry holds the details
   * of the LAST such item.
   */
  lemma {:induction false} FillContents(items: seq<ChannelMapItem>, valid: set<string>, init: RiskTable, m: RiskTable)
    requires forall i :: 0 <= i < |items| ==> HasTrackIn(items[i], init.Keys)
    requires EmptyInner(init)
    requires Fill(items, valid, init) == Ok(m)
    ensures m.Keys == init.Keys
    ensures forall i :: 0 <= i < |items| && HasTrackIn(items[i], init.Keys) && Kept(items[i]) ==>
              KeptItemDetails(items[i], valid).Ok?
    ensures RisksFrom(items, m) && SlotsFrom(items, m) && LastWins(items, valid, m)
    decreases |items|
  {
    if items == [] {
      return;
    }
    var n := |items| - 1;
    var front := items[..n];
    var last := items[n];
    assert items == front + [last];
    assert forall i :: 0 <= i < |front| ==> front[i] == items[i];
    var before := Fill(front, valid, init);
    assert before.Ok?;
    var m' := before.value;
    FillContents(front, valid, init, m');
    assert Fill(items, valid, init) == FillStep(m', last, valid);
    RisksFromStep(front, last, valid, m', m);
    SlotsFromStep(front, last, valid, m', m);
    LastWinsStep(front, last, valid, m', m);
  }

  /** The filling loop succeeds when every kept item passes its checks. */
  lemma {:induction false} FillSucceeds(items: seq<ChannelMapItem>, valid: set<string>, init: RiskTable)
    requires forall i :: 0 <= i < |items| ==> HasTrackIn(items[i], init.Keys)
    requires forall i :: 0 <= i < |items| && HasTrackIn(items[i], init.Keys) && Kept(items[i]) ==>
               KeptItemDetails(items[i], valid).Ok?
    ensures Fill(items, valid, init).Ok?
    decreases |items|
  {
    if items != [] {
      var front := items[..|items| - 1];
      assert forall i :: 0 <= i < |front| ==> front[i] == items[i];
      FillSucceeds(front, valid, init);
    }
  }

  /** A successful conversion is the re-validated result of a successful filling loop. */
  lemma CurrentTrackMapIsFilled(items: seq<ChannelMapItem>, valid: set<string>, tm: TrackMap) returns (m: RiskTable)
    requires CurrentTrackMap(items, valid) == Ok(tm)
    ensures TracksPresent(items)
    ensures Fill(items, valid, EmptyRisks(TracksOf(items))) == Ok(m)
    ensures tm == Finalize(m)
    ensures forall i :: 0 <= i < |items| ==> HasTrackIn(items[i], EmptyRisks(TracksOf(items)).Keys)
  {
    m := Fill(items, valid, EmptyRisks(TracksOf(items))).value;
  }

  /**
   * The conversion succeeds exactly when every item has a channel and a track and every kept
   * item passes its checks; a missing channel fails first, then a missing track.
   */
  lemma CurrentTrackMapSucceeds(items: seq<ChannelMapItem>, valid: set<string>)
    ensures !ChannelsPresent(items) ==> CurrentTrackMap(items, valid) == Err(AttributeError)
    ensures ChannelsPresent(items) && !TracksPresent(items) ==> CurrentTrackMap(items, valid) == Err(TypeError)
    ensures CurrentTrackMap(items, valid).Ok? <==>
              && TracksPresent(items)
              && forall i :: 0 <= i < |items| && Kept(items[i]) ==> KeptItemDetails(items[i], valid).Ok?
  {
    if TracksPresent(items) {
      var init := EmptyRisks(TracksOf(items));
      assert forall i :: 0 <= i < |items| ==> HasTrackIn(items[i], init.Keys);
      if forall i :: 0 <= i < |items| && Kept(items[i]) ==> KeptItemDetails(items[i], valid).Ok? {
        FillSucceeds(items, valid, init);
      }
      if CurrentTrackMap(items, valid).Ok? {
        var m := CurrentTrackMapIsFilled(items, valid, CurrentTrackMap(items, valid).value);
        FillContents(items, valid, init, m);
      }
    }
  }

  /** When the conversion fails on the items, the first kept item that fails its checks decides the error. */
  lemma FirstFailingItemDecidesError(items: seq<ChannelMapItem>, valid: set<string>, j: nat)
    requires TracksPresent(items)
    requires j < |items| && Kept(items[j]) && KeptItemDetails(items[j], valid).Err?
    requires forall i :: 0 <= i < j && Kept(items[i]) ==> KeptItemDetails(items[i], valid).Ok?
    ensures CurrentTrackMap(items, valid) == Err(KeptItemDetails(items[j], valid).error)
  {
    var init := EmptyRisks(TracksOf(items));
    assert forall i :: 0 <= i < |items| ==> HasTrackIn(items[i], init.Keys);
    var front := items[..j];
    assert forall i :: 0 <= i < |front| ==> front[i] == items[i];
    FillSucceeds(front, valid, init);
    var upTo := items[..j + 1];
    assert upTo[..j] == front && upTo[j] == items[j];
    assert Fill(upTo, valid, init) == Err(KeptItemDetails(items[j], valid).error);
    FillFailurePersists(items, j + 1, valid, init, KeptItemDetails(items[j], valid).error);
  }

  /** The tracks of the result are the tracks of ALL items, skipped ones included. */
  lemma TrackKeysAreAllTracks(items: seq<ChannelMapItem>, valid: set<string>, tm: TrackMap)
    requires CurrentTrackMap(items, valid) == Ok(tm)
    ensures forall t :: t in tm <==> exists i :: 0 <= i < |items| && items[i].channel.Some? && items[i].channel.value.track == Some(t)
  {
    var m := CurrentTrackMapIsFilled(items, valid, tm);
    FillContents(items, valid, EmptyRisks(TracksOf(items)), m);
    forall t | exists i :: 0 <= i < |items| && items[i].channel.Some? && items[i].channel.value.track == Some(t)
      ensures t in tm
    {
      var i :| 0 <= i < |items| && items[i].channel.Some? && items[i].channel.value.track == Some(t);
      assert t in TracksOf(items);
    }
  }

  /** A risk exists under a track exactly when some kept item was released to that track and risk. */
  lemma RiskKeysComeFromKeptItems(items: seq<ChannelMapItem>, valid: set<string>, tm: TrackMap)
    requires CurrentTrackMap(items, valid) == Ok(tm)
    ensures forall t, r :: t in tm ==> (r in tm[t] <==> exists i :: 0 <= i < |items| && HasTrackRisk(items[i], t, r))
  {
    var m := CurrentTrackMapIsFilled(items, valid, tm);
    FillContents(items, valid, EmptyRisks(TracksOf(items)), m);
  }

  /**
   * A slot is filled exactly when some kept item was released to it (by its channel's
   * architecture), and it holds the details of the last such item in list order.
   */
  lemma SlotHoldsLastItem(items: seq<ChannelMapItem>, valid: set<string>, tm: TrackMap, t: string, r: string)
    requires CurrentTrackMap(items, valid) == Ok(tm)
    ensures t in tm && r in tm[t] ==> forall a :: a in SlotNames ==>
              (Slot(tm[t][r], a).Some? <==> exists i :: 0 <= i < |items| && HasSlot(items[i], t, r, a))
    ensures t in tm && r in tm[t] ==> forall a :: Slot(tm[t][r], a).Some? ==>
              exists j :: && 0 <= j < |items| && HasSlot(items[j], t, r, a)
                          && KeptItemDetails(items[j], valid) == Ok(Slot(tm[t][r], a).value)
                          && forall k :: j < k < |items| ==> !HasSlot(items[k], t, r, a)
  {
    if t in tm && r in tm[t] {
      var m := CurrentTrackMapIsFilled(items, valid, tm);
      FillContents(items, valid, EmptyRisks(TracksOf(items)), m);
      assert tm[t][r] == ToRiskMap(m[t][r]);
      SlotsOfFilledRisk(items, valid, m, t, r);
    }
  }

  /** The slots of one re-validated risk dict, given what the filling loop put in it. */
  lemma SlotsOfFilledRisk(items: seq<ChannelMapItem>, valid: set<string>, m: RiskTable, t: string, r: string)
    requires SlotsFrom(items, m) && LastWins(items, valid, m)
    requires t in m && r in m[t]
    ensures forall a :: a in SlotNames ==>
              (Slot(ToRiskMap(m[t][r]), a).Some? <==> exists i :: 0 <= i < |items| && HasSlot(items[i], t, r, a))
    ensures forall a :: Slot(ToRiskMap(m[t][r]), a).Some? ==>
              exists j :: && 0 <= j < |items| && HasSlot(items[j], t, r, a)
                          && KeptItemDetails(items[j], valid) == Ok(Slot(ToRiskMap(m[t][r]), a).value)
                          && forall k :: j < k < |items| ==> !HasSlot(items[k], t, r, a)
  {
    var am := m[t][r];
    var rm := ToRiskMap(am);
    forall a | Slot(rm, a).Some?
      ensures exists j :: && 0 <= j < |items| && HasSlot(items[j], t, r, a)
                          && KeptItemDetails(items[j], valid) == Ok(Slot(rm, a).value)
                          && forall k :: j < k < |items| ==> !HasSlot(items[k], t, r, a)
    {
      assert a in am && Slot(rm, a).value == am[a];
      var j := LastSlotIndex(items, t, r, a);
      assert HasSlot(items[j], t, r, a);
    }
  }

  /**
   * Every stored detail describes the slot it is stored under (its architecture is allowed and
   * comes from the channel), and carries the revision, confinement and dates of an item
   * released there, with a falsy base or version replaced by "unset".
   */
  lemma StoredDetailsDescribeTheirSlot(items: seq<ChannelMapItem>, valid: set<string>, tm: TrackMap,
                                       t: string, r: string, a: string, d: TrackRevisionDetails)
    requires CurrentTrackMap(items, valid) == Ok(tm)
    ensures t in tm && r in tm[t] && Slot(tm[t][r], a) == Some(d) ==>
              && a in SlotNames && a in valid
              && d.track == t && d.risk == r && d.architecture == a
              && d.base != "" && d.version != ""
              && exists j :: && 0 <= j < |items| && HasSlot(items[j], t, r, a)
                                 && items[j].revision == Some(d.revision)
                                 && items[j].confinement == Some(d.confinement)
                                 && items[j].createdAt == Some(d.createdAt)
                                 && items[j].channel.value.releasedAt == Some(d.releasedAt)
                                 && d.name == items[j].channel.value.name
                                 && d.base == OrUnset(items[j].base)
                                 && d.version == OrUnset(items[j].version)
  {
    if t in tm && r in tm[t] && Slot(tm[t][r], a) == Some(d) {
      SlotHoldsLastItem(items, valid, tm, t, r);
      var j :| && 0 <= j < |items| && HasSlot(items[j], t, r, a)
               && KeptItemDetails(items[j], valid) == Ok(d)
               && forall k :: j < k < |items| ==> !HasSlot(items[k], t, r, a);
    }
  }

  /** `architectures` of a risk lists exactly the slots some kept item was released to, in declaration order. */
  lemma ArchitecturesListsOccupiedSlots(items: seq<ChannelMapItem>, valid: set<string>, tm: TrackMap, t: string, r: string)
    requires CurrentTrackMap(items, valid) == Ok(tm)
    ensures t in tm && r in tm[t] ==> forall a :: a in Architectures(tm[t][r]) <==>
              a in SlotNames && exists i :: 0 <= i < |items| && HasSlot(items[i], t, r, a)
    ensures t in tm && r in tm[t] ==> Subsequence(Architectures(tm[t][r]), SlotNames)
  {
    SlotHoldsLastItem(items, valid, tm, t, r);
  }

  /**
   * The standalone converter agrees with what the conversion stores for a kept item, except
   * that it replaces an empty confinement by "unset" where the conversion keeps it.
   */
  lemma ConverterAgreesWithKeptItemDetails(item: ChannelMapItem, valid: set<string>)
    requires item.channel.Some? && item.channel.value.track.Some?
    requires KeptItemDetails(item, valid).Ok?
    ensures item.confinement.value != "" ==>
              ChannelMapItemToTrackRevisionDetails(item, valid) == KeptItemDetails(item, valid)
    ensures item.confinement.value == "" ==>
              && ChannelMapItemToTrackRevisionDetails(item, valid).Ok?
              && ChannelMapItemToTrackRevisionDetails(item, valid).value
                 == KeptItemDetails(item, valid).value.(confinement := Unset)
  {
  }
}
