/**
 * The EPG (programme guide) fetching hook
 * (qp-discovery-ui/src/hooks/useFetchEpgQuery.ts): a reducer over the
 * guide's channels and per-channel schedules, the processing of one grid
 * response, the time bar kept at module level, and the paging rule.
 */
module EpgQuery {
  import opened Wrappers
  import Js
  import Keyed
  import opened Strings
  import Paging

  /** A channel of a grid response: its id, call sign, logo and airings (kept opaque). */
  datatype ChannelData = ChannelData(cId: string, cs: string, logo: string, airings: seq<Js.Value>)

  /** The view model of a channel (`epgChannelAdapter`; id and key are both the channel id). */
  datatype ChannelVm = ChannelVm(id: string, name: string, colorLogo: string)

  function ChannelAdapter(c: ChannelData): ChannelVm
  {
    ChannelVm(c.cId, c.cs, c.logo)
  }

  /** Schedules by channel id. */
  type Containers = map<string, seq<Js.Value>>

  // ---------------------------------------------------------------------
  // The reducer

  datatype EpgState = EpgState(
    loading: bool,
    error: bool,
    errorObject: Js.Value,
    containers: Containers,
    channels: seq<ChannelVm>,
    timeSlotData: seq<string>,
    hasMore: bool)

  const InitialState: EpgState := EpgState(true, false, Js.Undefined, map[], [], [], false)

  datatype EpgAction =
    | ResetState
    | SetLoading
    | SetError(errorObject: Js.Value)
    | AddChannels(newContainers: Option<Containers>, newChannels: Option<seq<ChannelVm>>, moreFlag: Option<bool>)
    | OtherAction(name: string)

  /**
   * `responseReducer` with the containers treated as a value: ADD_CHANNELS
   * merges the new schedules over the current ones, and RESET returns the
   * initial state with no schedules. `timeBar` is the module's time bar array
   * at the moment of the dispatch.
   */
  function ResponseReducer(s: EpgState, a: EpgAction, timeBar: seq<string>): (r: EpgState)
    ensures a.ResetState? ==> r == InitialState && r.containers == map[]
    ensures a.SetLoading? ==> r == s.(loading := true)
    ensures a.SetError? ==> r == s.(loading := false, error := true, errorObject := a.errorObject)
    ensures a.AddChannels? ==>
              !r.loading && r.error == s.error && r.errorObject == s.errorObject &&
              r.hasMore == (a.moreFlag == Some(true)) && r.timeSlotData == timeBar &&
              r.channels == s.channels + (if a.newChannels.Some? then a.newChannels.value else [])
    ensures a.AddChannels? ==> r.containers.Keys == s.containers.Keys + (if a.newContainers.Some? then a.newContainers.value.Keys else {})
    ensures a.AddChannels? && a.newContainers.Some? ==> forall k :: k in a.newContainers.value ==> r.containers[k] == a.newContainers.value[k]
    ensures a.AddChannels? ==> forall k :: k in s.containers && (a.newContainers.None? || k !in a.newContainers.value) ==> r.containers[k] == s.containers[k]
    ensures a.OtherAction? ==> r == s
  {
    match a
    case ResetState => InitialState
    case SetError(e) => s.(loading := false, error := true, errorObject := e)
    case AddChannels(cs, chs, more) =>
      var merged := if cs.Some? then s.containers + cs.value else s.containers;
      s.(loading := false,
         hasMore := more == Some(true),
         channels := s.channels + (if chs.Some? then chs.value else []),
         timeSlotData := timeBar,
         containers := merged)
    case SetLoading => s.(loading := true)
    case OtherAction(_) => s
  }

  /**
   * `responseReducer` as written: every state's containers is the one Map
   * object of the module-level initial state, which ADD_CHANNELS updates in
   * place. The pair holds the new state and the new contents of that shared
   * Map; the state's own `containers` field is unused and left as it was.
   */
  function ResponseReducerAsWritten(s: EpgState, shared: Containers, a: EpgAction, timeBar: seq<string>): (r: (EpgState, Containers))
    ensures !a.AddChannels? ==> r.1 == shared
    ensures a.AddChannels? ==> r.1 == if a.newContainers.Some? then shared + a.newContainers.value else shared
  {
    match a
    case ResetState => (InitialState, shared)
    case SetError(e) => (s.(loading := false, error := true, errorObject := e), shared)
    case AddChannels(cs, chs, more) =>
      var merged := if cs.Some? then shared + cs.value else shared;
      (s.(loading := false,
          hasMore := more == Some(true),
          channels := s.channels + (if chs.Some? then chs.value else []),
          timeSlotData := timeBar), merged)
    case SetLoading => (s.(loading := true), shared)
    case OtherAction(_) => (s, shared)
  }

  /**
   * As written, the schedules of an earlier day survive RESET: after
   * ADD_CHANNELS brings a channel's schedule, RESET leaves it in the shared
   * Map, so the reset state is not the empty initial state.
   */
  lemma ResetKeepsStaleSchedulesAsWritten(s: EpgState, shared: Containers, channelId: string, airings: seq<Js.Value>, timeBar: seq<string>)
    ensures var added := ResponseReducerAsWritten(s, shared, AddChannels(Some(map[channelId := airings]), None, None), timeBar);
            var reset := ResponseReducerAsWritten(added.0, added.1, ResetState, timeBar);
            channelId in reset.1 && reset.1[channelId] == airings
  {
  }

  /** With the containers as a value, RESET forgets every schedule added before it. */
  lemma ResetClearsSchedules(s: EpgState, channelId: string, airings: seq<Js.Value>, timeBar: seq<string>)
    ensures var added := ResponseReducer(s, AddChannels(Some(map[channelId := airings]), None, None), timeBar);
            ResponseReducer(added, ResetState, timeBar).containers == map[]
  {
  }

  /**
   * Outside RESET the two agree: when the state's containers are the shared
   * Map's contents, every other action yields the same fields and the same
   * schedules.
   */
  lemma AsWrittenAgreesOutsideReset(s: EpgState, a: EpgAction, timeBar: seq<string>)
    requires !a.ResetState?
    ensures var w := ResponseReducerAsWritten(s, s.containers, a, timeBar);
            ResponseReducer(s, a, timeBar) == w.0.(containers := w.1)
  {
  }

  // ---------------------------------------------------------------------
  // Processing a grid response

  /** The channels whose id has not been seen, each id kept at its first occurrence (the `uniq` filter). */
  function DedupFrom(cs: seq<ChannelVm>, seen: set<string>): seq<ChannelVm>
    decreases |cs|
  {
    if |cs| == 0 then []
    else if cs[0].id in seen then DedupFrom(cs[1..], seen)
    else [cs[0]] + DedupFrom(cs[1..], seen + {cs[0].id})
  }

  function Ids(cs: seq<ChannelVm>): set<string>
  {
    set i | 0 <= i < |cs| :: cs[i].id
  }

  predicate DistinctIds(cs: seq<ChannelVm>)
  {
    forall j, k :: 0 <= j < k < |cs| ==> cs[j].id != cs[k].id
  }

  /** No two channels that remain share an id, and none has an id already seen. */
  lemma {:induction false} DedupFromDistinct(cs: seq<ChannelVm>, seen: set<string>)
    ensures Ids(DedupFrom(cs, seen)) !! seen
    ensures DistinctIds(DedupFrom(cs, seen))
    decreases |cs|
  {
    if |cs| > 0 {
      var rest := cs[1..];
      if cs[0].id in seen {
        DedupFromDistinct(rest, seen);
      } else {
        var seen' := seen + {cs[0].id};
        DedupFromDistinct(rest, seen');
        var tail := DedupFrom(rest, seen');
        var r := [cs[0]] + tail;
        assert r == DedupFrom(cs, seen);
        forall j | 0 <= j < |r|
          ensures r[j].id !in seen
        {
          if j > 0 {
            assert r[j] == tail[j - 1];
            assert tail[j - 1].id in Ids(tail);
          }
        }
        forall j, k | 0 <= j < k < |r|
          ensures r[j].id != r[k].id
        {
          assert r[k] == tail[k - 1];
          assert tail[k - 1].id in Ids(tail);
          if j > 0 {
            assert r[j] == tail[j - 1];
          }
        }
      }
    }
  }

  /** Every id not seen before survives: the dedup drops no channel id. */
  lemma {:induction false} DedupFromKeepsIds(cs: seq<ChannelVm>, seen: set<string>)
    ensures Ids(DedupFrom(cs, seen)) == Ids(cs) - seen
    decreases |cs|
  {
    if |cs| > 0 {
      var rest := cs[1..];
      assert Ids(cs) == {cs[0].id} + Ids(rest) by {
        forall x | x in Ids(cs)
          ensures x in {cs[0].id} + Ids(rest)
        {
          var i :| 0 <= i < |cs| && cs[i].id == x;
          if i > 0 {
            assert rest[i - 1] == cs[i];
          }
        }
        forall x | x in Ids(rest)
          ensures x in Ids(cs)
        {
          var i :| 0 <= i < |rest| && rest[i].id == x;
          assert cs[i + 1] == rest[i];
        }
      }
      if cs[0].id in seen {
        DedupFromKeepsIds(rest, seen);
      } else {
        var seen' := seen + {cs[0].id};
        DedupFromKeepsIds(rest, seen');
        var tail := DedupFrom(rest, seen');
        var r := [cs[0]] + tail;
        assert Ids(r) == {cs[0].id} + Ids(tail) by {
          forall x | x in Ids(r)
            ensures x in {cs[0].id} + Ids(tail)
          {
            var i :| 0 <= i < |r| && r[i].id == x;
            if i > 0 {
              assert tail[i - 1] == r[i];
            }
          }
          forall x | x in Ids(tail)
            ensures x in Ids(r)
          {
            var i :| 0 <= i < |tail| && tail[i].id == x;
            assert r[i + 1] == tail[i];
          }
          assert r[0].id in Ids(r);
        }
      }
    }
  }

  /** The first channel with an unseen id is the one kept for that id. */
  lemma {:induction false} DedupFromKeepsFirst(cs: seq<ChannelVm>, seen: set<string>, i: nat)
    requires i < |cs| && cs[i].id !in seen
    requires forall j :: 0 <= j < i ==> cs[j].id != cs[i].id
    ensures cs[i] in DedupFrom(cs, seen)
    decreases |cs|
  {
    if i > 0 {
      var seen' := if cs[0].id in seen then seen else seen + {cs[0].id};
      assert cs[1..][i - 1] == cs[i];
      forall j | 0 <= j < i - 1
        ensures cs[1..][j].id != cs[1..][i - 1].id
      {
        assert cs[1..][j] == cs[j + 1];
      }
      DedupFromKeepsFirst(cs[1..], seen', i - 1);
    }
  }

  /** Order is kept: deduplicating a concatenation handles the first part, then the rest with its ids seen. */
  lemma {:induction false} DedupFromAppend(a: seq<ChannelVm>, b: seq<ChannelVm>, seen: set<string>)
    ensures DedupFrom(a + b, seen) == DedupFrom(a, seen) + DedupFrom(b, seen + Ids(a))
    decreases |a|
  {
    if |a| == 0 {
      assert a + b == b;
      assert Ids(a) == {};
      assert seen + Ids(a) == seen;
    } else {
      var rest := a[1..];
      assert (a + b)[0] == a[0];
      assert (a + b)[1..] == rest + b;
      var seen' := if a[0].id in seen then seen else seen + {a[0].id};
      DedupFromAppend(rest, b, seen');
      IdsCons(a);
      assert seen' + Ids(rest) == seen + Ids(a);
      var head := if a[0].id in seen then [] else [a[0]];
      assert DedupFrom(a + b, seen) == head + DedupFrom(rest + b, seen');
      assert DedupFrom(a, seen) == head + DedupFrom(rest, seen');
    }
  }

  /** The ids of a non-empty list are its head's id and the ids of its tail. */
  lemma IdsCons(a: seq<ChannelVm>)
    requires |a| > 0
    ensures Ids(a) == {a[0].id} + Ids(a[1..])
  {
    var rest := a[1..];
    forall x | x in Ids(a)
      ensures x in {a[0].id} + Ids(rest)
    {
      var i :| 0 <= i < |a| && a[i].id == x;
      if i > 0 {
        assert rest[i - 1] == a[i];
      }
    }
    forall x | x in Ids(rest)
      ensures x in Ids(a)
    {
      var i :| 0 <= i < |rest| && rest[i].id == x;
      assert a[i + 1] == rest[i];
    }
    assert a[0].id in Ids(a);
  }

  /** The dedup of `processEpgResponse`, starting from an empty `uniq` table. */
  function UniqueChannels(cs: seq<ChannelVm>): seq<ChannelVm>
  {
    DedupFrom(cs, {})
  }

  /** The result of one grid response: the channels and the schedules by channel id. */
  datatype EpgGrid = EpgGrid(channels: seq<ChannelVm>, schedules: Containers)

  function ChannelId(c: ChannelData): string { c.cId }
  function ChannelAirings(c: ChannelData): seq<Js.Value> { c.airings }

  /**
   * `processEpgResponse`: no data gives no channels and no schedules;
   * otherwise the adapted channels without duplicate ids, and the airings
   * indexed by channel id (airing adaptation is left opaque).
   */
  function ProcessEpgResponse(data: Option<seq<ChannelData>>): (r: EpgGrid)
    ensures data.None? ==> r == EpgGrid([], map[])
    ensures data.Some? ==> r.schedules == Keyed.IndexBy(data.value, ChannelId, ChannelAirings)
    ensures data.Some? ==> r.channels == UniqueChannels(seq(|data.value|, i requires 0 <= i < |data.value| => ChannelAdapter(data.value[i])))
  {
    match data
    case None => EpgGrid([], map[])
    case Some(d) =>
      var channels := seq(|d|, i requires 0 <= i < |d| => ChannelAdapter(d[i]));
      EpgGrid(UniqueChannels(channels), Keyed.IndexBy(d, ChannelId, ChannelAirings))
  }

  /** The channels of a response have distinct ids, and every channel id of the response is among them. */
  lemma ProcessedChannelsDistinct(d: seq<ChannelData>)
    ensures DistinctIds(ProcessEpgResponse(Some(d)).channels)
    ensures Ids(ProcessEpgResponse(Some(d)).channels) == set i | 0 <= i < |d| :: d[i].cId
  {
    var channels := seq(|d|, i requires 0 <= i < |d| => ChannelAdapter(d[i]));
    DedupFromDistinct(channels, {});
    DedupFromKeepsIds(channels, {});
    assert Ids(channels) == set i | 0 <= i < |d| :: d[i].cId by {
      forall x | x in Ids(channels)
        ensures exists i :: 0 <= i < |d| && d[i].cId == x
      {
        var i :| 0 <= i < |channels| && channels[i].id == x;
        assert d[i].cId == x;
      }
      forall i | 0 <= i < |d|
        ensures d[i].cId in Ids(channels)
      {
        assert channels[i].id == d[i].cId;
      }
    }
  }

  /** The schedules are keyed by channel id, and a later channel with the same id overwrites an earlier one. */
  lemma ProcessedSchedulesLastWins(d: seq<ChannelData>, i: nat)
    requires i < |d|
    requires forall j :: i < j < |d| ==> d[j].cId != d[i].cId
    ensures d[i].cId in ProcessEpgResponse(Some(d)).schedules
    ensures ProcessEpgResponse(Some(d)).schedules[d[i].cId] == d[i].airings
  {
    Keyed.IndexByLastWins(d, ChannelId, ChannelAirings, i);
  }

  /** Exactly the channel ids of the response have a schedule. */
  lemma ProcessedSchedulesKeys(d: seq<ChannelData>, k: string)
    ensures k in ProcessEpgResponse(Some(d)).schedules <==> exists i :: 0 <= i < |d| && d[i].cId == k
  {
    Keyed.IndexByKeys(d, ChannelId, ChannelAirings, k);
  }

  // ---------------------------------------------------------------------
  // Paging

  /** The reported number of channels, 0 when the header or its count is missing. */
  function TotalResults(count: Option<int>): int
  {
    if count.Some? then count.value else 0
  }

  /** The `hasMore` rule: more channels exist beyond the pages fetched so far. */
  function HasMore(count: Option<int>, pageSize: int, pageNumber: int): (r: bool)
    ensures r <==> TotalResults(count) > pageSize * pageNumber
  {
    TotalResults(count) > pageSize * pageNumber
  }

  /** A response without a count never has more pages; the last full page of a known total has none either. */
  lemma HasMoreBounds(count: Option<int>, pageSize: nat, pageNumber: nat)
    ensures count.None? ==> !HasMore(count, pageSize, pageNumber)
    ensures count.Some? && count.value == pageSize * pageNumber ==> !HasMore(count, pageSize, pageNumber)
    ensures count.Some? && pageSize > 0 && count.value > pageSize * pageNumber ==> HasMore(count, pageSize, pageNumber)
  {
  }

  /**
   * Paging through a guide of a known total: pages 1, 2, ... report more
   * channels until, and not after, the page that completes the total.
   */
  lemma HasMoreUntilLastPage(count: Option<int>, pageSize: int, pageNumber: nat)
    requires pageSize > 0
    ensures HasMore(count, pageSize, pageNumber) <==> pageNumber < Paging.PageCount(TotalResults(count), pageSize)
  {
    Paging.MoreIffBeforeLastPage(TotalResults(count), pageSize, pageNumber);
  }

  // ---------------------------------------------------------------------
  // The time bar

  /** The 24-hour 'hh:mm' label, both parts padded to two digits, of the slot `minutes` after midnight. */
  function TimeLabel(minutes: nat): string
  {
    Pad2((minutes / 60) % 24) + ":" + Pad2(minutes % 60)
  }

  const TimelineHours: nat := 24
  const TimelineGapInterval: nat := 30
  const TimelineStartMinutes: nat := 6 * 60

  /**
   * The module-level state of the hook's file: the minute counter
   * `EpgTimelineStartHrs` and the array `timeBarSlotListArr`, shared by
   * every use of the hook.
   */
  class EpgTimeline {
    var startMinutes: nat
    var timeBarSlots: seq<string>

    ghost predicate Valid()
      reads this
    {
      startMinutes == TimelineStartMinutes + TimelineGapInterval * |timeBarSlots| &&
      startMinutes <= (TimelineHours + 6) * 60 &&
      forall k :: 0 <= k < |timeBarSlots| ==> timeBarSlots[k] == TimeLabel(360 + 30 * k)
    }

    constructor ()
      ensures Valid() && startMinutes == 360 && timeBarSlots == []
    {
      startMinutes := 360;
      timeBarSlots := [];
    }

    /**
     * `calculateEpgTimeBarSlots`: pushes a label every 30 minutes until the
     * counter reaches 06:00 of the next day. The counter is never reset, so
     * after the first call the bar holds its 48 labels and later calls add none.
     */
    method CalculateEpgTimeBarSlots()
      requires Valid()
      modifies this
      ensures Valid() && startMinutes == 1800 && |timeBarSlots| == 48
      ensures old(startMinutes) == 1800 ==> timeBarSlots == old(timeBarSlots)
      ensures timeBarSlots[..|old(timeBarSlots)|] == old(timeBarSlots)
    {
      while startMinutes < (TimelineHours + 6) * 60
        invariant Valid()
        invariant |old(timeBarSlots)| <= |timeBarSlots| && timeBarSlots[..|old(timeBarSlots)|] == old(timeBarSlots)
        decreases (TimelineHours + 6) * 60 - startMinutes
      {
        var time := TimeLabel(startMinutes);
        startMinutes := startMinutes + TimelineGapInterval;
        timeBarSlots := timeBarSlots + [time];
      }
    }
  }

  /** The bar's first label is '06:00'. */
  lemma FirstTimeLabel()
    ensures TimeLabel(TimelineStartMinutes) == "06:00"
  {
    assert Pad2(6) == "06" && Pad2(0) == "00";
  }

  /** The bar's 48th label, 23.5 hours later, is '05:30' of the next day. */
  lemma LastTimeLabel()
    ensures TimeLabel(TimelineStartMinutes + 30 * 47) == "05:30"
  {
    assert (1770 / 60) % 24 == 5 && 1770 % 60 == 30;
    assert Pad2(5) == "05" && Pad2(30) == "30";
  }
}
