/**
 * The computations of `snap_python.scrape`: choosing the channel-map item with the highest
 * revision, the file name a revision is downloaded to, and the revisions the scraper visits.
 * The store requests, directory creation and file writes are not modelled.
 */
module Scrape {
  import opened Wrappers
  import opened StoreSchema

  /**
   * The index `max` settles on when it scans `revisions` left to right, replacing its
   * candidate only by a strictly greater value: the first maximal position.
   */
  function HighestRevisionIndex(revisions: seq<int>): (k: nat)
    requires revisions != []
    ensures k < |revisions|
    ensures forall i :: 0 <= i < |revisions| ==> revisions[i] <= revisions[k]
    ensures forall i :: 0 <= i < k ==> revisions[i] < revisions[k]
    decreases |revisions|
  {
    if |revisions| == 1 then 0
    else
      var k := HighestRevisionIndex(revisions[..|revisions| - 1]);
      if revisions[|revisions| - 1] > revisions[k] then |revisions| - 1 else k
  }

  predicate RevisionsPresent(channelMap: seq<ChannelMapItem>)
  {
    forall i :: 0 <= i < |channelMap| ==> channelMap[i].revision.Some?
  }

  function Revisions(channelMap: seq<ChannelMapItem>): (revisions: seq<int>)
    requires RevisionsPresent(channelMap)
    ensures |revisions| == |channelMap|
    ensures forall i :: 0 <= i < |channelMap| ==> channelMap[i].revision == Some(revisions[i])
  {
    seq(|channelMap|, i requires 0 <= i < |channelMap| && RevisionsPresent(channelMap) => channelMap[i].revision.value)
  }

  /**
   * `get_highest_revision`: `max` by revision. An empty list is a `ValueError`; a `None`
   * revision is a `TypeError` as soon as there is a comparison, that is with two items or more.
   */
  function GetHighestRevision(channelMap: seq<ChannelMapItem>): (r: Result<ChannelMapItem, Error>)
    ensures channelMap == [] ==> r == Err(EmptyMaxArgument)
    ensures channelMap != [] && !(|channelMap| == 1 || RevisionsPresent(channelMap)) ==> r == Err(TypeError)
    ensures r.Ok? <==> channelMap != [] && (|channelMap| == 1 || RevisionsPresent(channelMap))
    ensures r.Ok? ==> r.value in channelMap
    ensures r.Ok? && RevisionsPresent(channelMap) ==>
              exists k :: && 0 <= k < |channelMap| && channelMap[k] == r.value
                          && (forall i :: 0 <= i < |channelMap| ==> channelMap[i].revision.value <= r.value.revision.value)
                          && (forall i :: 0 <= i < k ==> channelMap[i].revision.value < r.value.revision.value)
  {
    if channelMap == [] then Err(EmptyMaxArgument)
    else if |channelMap| == 1 then Ok(channelMap[0])
    else if !RevisionsPresent(channelMap) then Err(TypeError)
    else Ok(channelMap[HighestRevisionIndex(Revisions(channelMap))])
  }

  /** `"/".join(parts)`. */
  function Join(parts: seq<string>, sep: char): string
    requires parts != []
    decreases |parts|
  {
    if |parts| == 1 then parts[0]
    else Join(parts[..|parts| - 1], sep) + [sep] + parts[|parts| - 1]
  }

  /** `s.split(sep)`: the pieces between separators; joining them back gives `s`. */
  function Split(s: string, sep: char): (parts: seq<string>)
    ensures parts != []
    ensures Join(parts, sep) == s
    ensures forall i :: 0 <= i < |parts| ==> sep !in parts[i]
    decreases |s|
  {
    if s == [] then [[]]
    else
      var front := Split(s[..|s| - 1], sep);
      var c := s[|s| - 1];
      assert s == s[..|s| - 1] + [c];
      if c == sep then front + [[]]
      else
        var parts := front[..|front| - 1] + [front[|front| - 1] + [c]];
        assert parts[..|parts| - 1] == front[..|front| - 1];
        parts
  }

  /**
   * The name a revision's download is stored under, `url.split("/")[-1]`: the part of the URL
   * after its last "/". It holds no "/", it ends the URL, a "/" stands right before it unless it
   * is the whole URL, and a URL without "/" is its own file name.
   */
  function DownloadFileName(url: string): (name: string)
    ensures '/' !in name
    ensures |name| <= |url| && url[|url| - |name|..] == name
    ensures |name| < |url| ==> url[|url| - |name| - 1] == '/'
    ensures '/' !in url ==> name == url
  {
    var parts := Split(url, '/');
    JoinEndsWithLastPart(parts, '/');
    parts[|parts| - 1]
  }

  /** Joining parts puts the last one at the end, with the separator right before it if there are two or more. */
  lemma JoinEndsWithLastPart(parts: seq<string>, sep: char)
    requires parts != []
    ensures var s := Join(parts, sep);
            var last := parts[|parts| - 1];
            && |last| <= |s| && s[|s| - |last|..] == last
            && (|parts| >= 2 ==> |last| < |s| && s[|s| - |last| - 1] == sep)
            && (|parts| == 1 ==> s == last)
  {
  }

  /** Python's `range(lo, hi)`: the integers from `lo` up to, not including, `hi`. */
  function Range(lo: int, hi: int): (r: seq<int>)
    ensures |r| == if lo < hi then hi - lo else 0
    ensures forall i :: 0 <= i < |r| ==> r[i] == lo + i
    decreases hi - lo
  {
    if lo >= hi then [] else [lo] + Range(lo + 1, hi)
  }

  /**
   * The revisions `get_all_snap_content` visits, in order, as written: `range(1, highest + 1)`.
   * `startRevision` is accepted (and logged as the first revision) but not used. The highest
   * revision comes from the item `get_highest_revision` picked; a single-item channel map is
   * returned unchecked, so it may be `None`, and `None + 1` is a `TypeError`.
   */
  function RevisionsVisited(startRevision: int, highestRevision: Option<int>): (r: Result<seq<int>, Error>)
    ensures r.Err? <==> highestRevision.None?
    ensures r.Err? ==> r.error == TypeError
    ensures r.Ok? ==> |r.value| == if highestRevision.value >= 1 then highestRevision.value else 0
  {
    if highestRevision.None? then Err(TypeError)
    else Ok(Range(1, highestRevision.value + 1))
  }

  /** The revisions the scraper is evidently meant to visit: from `startRevision` to the highest. */
  function RevisionsIntended(startRevision: int, highestRevision: Option<int>): (r: Result<seq<int>, Error>)
    ensures r.Err? <==> highestRevision.None?
    ensures r.Err? ==> r.error == TypeError
    ensures r.Ok? ==> |r.value| == if startRevision <= highestRevision.value then highestRevision.value - startRevision + 1 else 0
  {
    if highestRevision.None? then Err(TypeError)
    else Ok(Range(startRevision, highestRevision.value + 1))
  }

  /**
   * A single-item channel map whose item has no revision passes `get_highest_revision` and
   * then fails in the range, as written and as corrected.
   */
  lemma SingleItemWithoutRevisionFailsInRange(item: ChannelMapItem, startRevision: int)
    requires item.revision.None?
    ensures GetHighestRevision([item]) == Ok(item)
    ensures RevisionsVisited(startRevision, GetHighestRevision([item]).value.revision) == Err(TypeError)
    ensures RevisionsIntended(startRevision, GetHighestRevision([item]).value.revision) == Err(TypeError)
  {
  }

  /** As written, every revision from 1 to the highest is visited once, in ascending order. */
  lemma RevisionsVisitedAreOneToHighest(startRevision: int, highestRevision: int)
    ensures RevisionsVisited(startRevision, Some(highestRevision)).Ok?
    ensures forall v :: v in RevisionsVisited(startRevision, Some(highestRevision)).value <==> 1 <= v <= highestRevision
    ensures var visited := RevisionsVisited(startRevision, Some(highestRevision)).value;
            forall i, j :: 0 <= i < j < |visited| ==> visited[i] < visited[j]
  {
    var visited := RevisionsVisited(startRevision, Some(highestRevision)).value;
    forall v | 1 <= v <= highestRevision
      ensures v in visited
    {
      assert visited[v - 1] == v;
    }
  }

  /**
   * The discrepancy: for any start revision above 1 and at most the highest, revision 1 is
   * still visited although it lies before the start.
   */
  lemma StartRevisionIsIgnored(startRevision: int, highestRevision: int)
    requires 1 < startRevision <= highestRevision
    ensures 1 in RevisionsVisited(startRevision, Some(highestRevision)).value
    ensures 1 !in RevisionsIntended(startRevision, Some(highestRevision)).value
    ensures RevisionsVisited(startRevision, Some(highestRevision)) != RevisionsIntended(startRevision, Some(highestRevision))
  {
    assert RevisionsVisited(startRevision, Some(highestRevision)).value[0] == 1;
  }

  /** The corrected range visits exactly the revisions from the start to the highest, ascending. */
  lemma RevisionsIntendedAreStartToHighest(startRevision: int, highestRevision: int)
    ensures RevisionsIntended(startRevision, Some(highestRevision)).Ok?
    ensures forall v :: v in RevisionsIntended(startRevision, Some(highestRevision)).value <==> startRevision <= v <= highestRevision
    ensures var intended := RevisionsIntended(startRevision, Some(highestRevision)).value;
            forall i, j :: 0 <= i < j < |intended| ==> intended[i] < intended[j]
  {
    var intended := RevisionsIntended(startRevision, Some(highestRevision)).value;
    forall v | startRevision <= v <= highestRevision
      ensures v in intended
    {
      assert intended[v - startRevision] == v;
    }
  }
}
