/**
 * The downloads list of the "My content" screen
 * (screens/MyContent/DownloadsScreen.tsx): downloaded episodes are grouped
 * under one entry per series, placed where the series' first episode is,
 * and every other download is listed as it is.
 *
 * The source pushes each series object into the list and also keeps it in
 * a dictionary by series id, then appends later episodes to that same
 * object. The model makes the sharing explicit: the list holds a slot
 * naming the series, and the dictionary holds the series itself.
 */
module DownloadsGrouping {
  import opened Wrappers
  import Js

  const TVEpisodeCategory: string := "tvepisode"
  const TVSeriesCategory: string := "tvseries"

  /** A download merged with its metadata: the fields the grouping reads. */
  datatype Download = Download(id: string, category: string, seriesId: Option<string>, seriesTitle: Option<string>, contentGenre: Js.Value)

  /** An entry of the list: a download as it is, or a series made from its first episode. */
  datatype Entry =
    | Single(download: Download)
    | Series(name: string, category: string, contentGenre: Js.Value, id: string, key: string, state: string, episodes: seq<Download>)

  /** Only episodes with a series id are grouped. */
  predicate IsSeriesEpisode(d: Download)
  {
    d.category == TVEpisodeCategory && d.seriesId.Some?
  }

  function OrEmpty(s: Option<string>): string
  {
    if s.Some? then s.value else ""
  }

  /** `createSeriesMetadata`: a completed series entry named after the episode's series, holding that episode. */
  function CreateSeriesMetadata(episode: Download): (r: Entry)
    ensures r.Series? && r.state == "COMPLETED" && r.episodes == [episode] && r.category == TVSeriesCategory
    ensures r.id == OrEmpty(episode.seriesId) && r.key == r.id && r.name == OrEmpty(episode.seriesTitle)
  {
    Series(OrEmpty(episode.seriesTitle), TVSeriesCategory, episode.contentGenre, OrEmpty(episode.seriesId), OrEmpty(episode.seriesId), "COMPLETED", [episode])
  }

  datatype EpisodeCountLabel = EpisodeSingle(count: nat) | EpisodeMany(count: nat)

  /** The series subtitle: the plural form for more than one episode. */
  function SeriesSubtitle(e: Entry): (r: Option<EpisodeCountLabel>)
    ensures e.Single? <==> r.None?
    ensures e.Series? ==> r.value.count == |e.episodes| && (r.value.EpisodeMany? <==> |e.episodes| > 1)
  {
    if e.Single? then None
    else if |e.episodes| > 1 then Some(EpisodeMany(|e.episodes|))
    else Some(EpisodeSingle(|e.episodes|))
  }

  // ---------------------------------------------------------------------
  // The specification: the layout of first occurrences, and each series'
  // episodes in download order.

  datatype Slot = ItemSlot(download: Download) | SeriesSlot(seriesId: string)

  function SeriesIds(ds: seq<Download>): set<string>
  {
    if |ds| == 0 then {}
    else (if IsSeriesEpisode(ds[0]) then {ds[0].seriesId.value} else {}) + SeriesIds(ds[1..])
  }

  /** The list layout: each other download in place, and a series at its first episode not in `seen`. */
  function Slots(ds: seq<Download>, seen: set<string>): seq<Slot>
  {
    if |ds| == 0 then []
    else if !IsSeriesEpisode(ds[0]) then [ItemSlot(ds[0])] + Slots(ds[1..], seen)
    else if ds[0].seriesId.value in seen then Slots(ds[1..], seen)
    else [SeriesSlot(ds[0].seriesId.value)] + Slots(ds[1..], seen + {ds[0].seriesId.value})
  }

  function EpisodesOf(ds: seq<Download>, seriesId: string): seq<Download>
  {
    if |ds| == 0 then []
    else (if IsSeriesEpisode(ds[0]) && ds[0].seriesId.value == seriesId then [ds[0]] else []) + EpisodesOf(ds[1..], seriesId)
  }

  function FirstEpisode(ds: seq<Download>, seriesId: string): Download
    requires seriesId in SeriesIds(ds)
  {
    if IsSeriesEpisode(ds[0]) && ds[0].seriesId.value == seriesId then ds[0] else FirstEpisode(ds[1..], seriesId)
  }

  /** The entry of a series: made from its first episode, holding all its episodes. */
  function SeriesOf(ds: seq<Download>, seriesId: string): Entry
    requires seriesId in SeriesIds(ds)
  {
    var created := CreateSeriesMetadata(FirstEpisode(ds, seriesId));
    created.(episodes := EpisodesOf(ds, seriesId))
  }

  function SeriesTable(ds: seq<Download>): map<string, Entry>
  {
    map s | s in SeriesIds(ds) :: SeriesOf(ds, s)
  }

  predicate SlotsIn(slots: seq<Slot>, table: map<string, Entry>)
  {
    forall k :: 0 <= k < |slots| && slots[k].SeriesSlot? ==> slots[k].seriesId in table
  }

  /** The list that a layout shows once each series slot is read from the table. */
  function Resolve(slots: seq<Slot>, table: map<string, Entry>): (r: seq<Entry>)
    requires SlotsIn(slots, table)
    ensures |r| == |slots|
  {
    if |slots| == 0 then []
    else
      [if slots[0].ItemSlot? then Single(slots[0].download) else table[slots[0].seriesId]] + Resolve(slots[1..], table)
  }

  /** The slot sids of a layout are the series of the downloads not yet seen. */
  lemma {:induction false} SlotsSeries(ds: seq<Download>, seen: set<string>)
    ensures forall k :: 0 <= k < |Slots(ds, seen)| && Slots(ds, seen)[k].SeriesSlot? ==>
              Slots(ds, seen)[k].seriesId in SeriesIds(ds) && Slots(ds, seen)[k].seriesId !in seen
    decreases |ds|
  {
    if |ds| > 0 {
      if !IsSeriesEpisode(ds[0]) || ds[0].seriesId.value in seen {
        SlotsSeries(ds[1..], seen);
      } else {
        SlotsSeries(ds[1..], seen + {ds[0].seriesId.value});
      }
    }
  }

  /** The grouped list. */
  function GroupedDownloads(ds: seq<Download>): (r: seq<Entry>)
  {
    SlotsSeries(ds, {});
    Resolve(Slots(ds, {}), SeriesTable(ds))
  }

  // ---------------------------------------------------------------------
  // Appending one download: how each part of the specification grows.

  lemma {:induction false} SeriesIdsAppend(ds: seq<Download>, d: Download)
    ensures SeriesIds(ds + [d]) == SeriesIds(ds) + (if IsSeriesEpisode(d) then {d.seriesId.value} else {})
    decreases |ds|
  {
    if |ds| == 0 {
      assert ds + [d] == [d];
    } else {
      assert (ds + [d])[1..] == ds[1..] + [d];
      SeriesIdsAppend(ds[1..], d);
    }
  }

  lemma {:induction false} EpisodesOfAppend(ds: seq<Download>, d: Download, s: string)
    ensures EpisodesOf(ds + [d], s) == EpisodesOf(ds, s) + (if IsSeriesEpisode(d) && d.seriesId.value == s then [d] else [])
    decreases |ds|
  {
    if |ds| == 0 {
      assert ds + [d] == [d];
    } else {
      assert (ds + [d])[1..] == ds[1..] + [d];
      EpisodesOfAppend(ds[1..], d, s);
    }
  }

  lemma {:induction false} EpisodesOfAbsent(ds: seq<Download>, s: string)
    requires s !in SeriesIds(ds)
    ensures EpisodesOf(ds, s) == []
    decreases |ds|
  {
    if |ds| > 0 {
      EpisodesOfAbsent(ds[1..], s);
    }
  }

  lemma {:induction false} FirstEpisodeAppend(ds: seq<Download>, d: Download, s: string)
    requires s in SeriesIds(ds + [d])
    ensures s in SeriesIds(ds) ==> FirstEpisode(ds + [d], s) == FirstEpisode(ds, s)
    ensures s !in SeriesIds(ds) ==> FirstEpisode(ds + [d], s) == d
    decreases |ds|
  {
    SeriesIdsAppend(ds, d);
    if |ds| == 0 {
      assert ds + [d] == [d];
    } else {
      assert (ds + [d])[1..] == ds[1..] + [d];
      if !(IsSeriesEpisode(ds[0]) && ds[0].seriesId.value == s) {
        FirstEpisodeAppend(ds[1..], d, s);
      }
    }
  }

  lemma {:induction false} SlotsAppend(ds: seq<Download>, d: Download, seen: set<string>)
    ensures Slots(ds + [d], seen) == Slots(ds, seen) +
      (if !IsSeriesEpisode(d) then [ItemSlot(d)]
       else if d.seriesId.value in seen + SeriesIds(ds) then []
       else [SeriesSlot(d.seriesId.value)])
    decreases |ds|
  {
    if |ds| == 0 {
      assert ds + [d] == [d];
    } else {
      assert (ds + [d])[1..] == ds[1..] + [d];
      if !IsSeriesEpisode(ds[0]) || ds[0].seriesId.value in seen {
        SlotsAppend(ds[1..], d, seen);
      } else {
        SlotsAppend(ds[1..], d, seen + {ds[0].seriesId.value});
      }
    }
  }

  lemma {:induction false} ResolveAppend(slots: seq<Slot>, x: Slot, table: map<string, Entry>)
    requires SlotsIn(slots + [x], table)
    ensures SlotsIn(slots, table) && SlotsIn([x], table)
    ensures Resolve(slots + [x], table) == Resolve(slots, table) + Resolve([x], table)
    decreases |slots|
  {
    assert forall k :: 0 <= k < |slots| ==> (slots + [x])[k] == slots[k];
    assert (slots + [x])[|slots|] == x;
    if |slots| > 0 {
      assert (slots + [x])[1..] == slots[1..] + [x];
      ResolveAppend(slots[1..], x, table);
    }
  }

  /** Changing the table where no slot looks leaves the list as it was. */
  lemma {:induction false} ResolveUnreferenced(slots: seq<Slot>, table: map<string, Entry>, s: string, e: Entry)
    requires SlotsIn(slots, table)
    requires forall k :: 0 <= k < |slots| && slots[k].SeriesSlot? ==> slots[k].seriesId != s
    ensures SlotsIn(slots, table[s := e])
    ensures Resolve(slots, table[s := e]) == Resolve(slots, table)
    decreases |slots|
  {
    if |slots| > 0 {
      ResolveUnreferenced(slots[1..], table, s, e);
    }
  }

  // ---------------------------------------------------------------------
  // The loop of the source.

  /** The table of the series seen so far, as the loop keeps it. */
  predicate TableOf(ds: seq<Download>, table: map<string, Entry>)
  {
    table.Keys == SeriesIds(ds) && forall s :: s in table ==> table[s] == SeriesOf(ds, s)
  }

  lemma TableOfIsSeriesTable(ds: seq<Download>, table: map<string, Entry>)
    requires TableOf(ds, table)
    ensures table == SeriesTable(ds)
  {
  }

  /** A download that is not a series episode leaves the series as they were. */
  lemma ItemStep(done: seq<Download>, meta: Download, table: map<string, Entry>)
    requires TableOf(done, table) && !IsSeriesEpisode(meta)
    ensures TableOf(done + [meta], table)
  {
    SeriesIdsAppend(done, meta);
    forall s | s in table
      ensures table[s] == SeriesOf(done + [meta], s)
    {
      FirstEpisodeAppend(done, meta, s);
      EpisodesOfAppend(done, meta, s);
    }
  }

  /** A later episode of a known series is appended to that series only. */
  lemma ExistingSeriesStep(done: seq<Download>, meta: Download, table: map<string, Entry>)
    requires TableOf(done, table) && IsSeriesEpisode(meta) && meta.seriesId.value in table
    ensures table[meta.seriesId.value].Series?
    ensures TableOf(done + [meta], table[meta.seriesId.value := table[meta.seriesId.value].(episodes := table[meta.seriesId.value].episodes + [meta])])
  {
    var sid := meta.seriesId.value;
    SeriesIdsAppend(done, meta);
    var t := table[sid := table[sid].(episodes := table[sid].episodes + [meta])];
    forall s | s in t
      ensures t[s] == SeriesOf(done + [meta], s)
    {
      FirstEpisodeAppend(done, meta, s);
      EpisodesOfAppend(done, meta, s);
    }
  }

  /** The first episode of a series creates its entry. */
  lemma NewSeriesStep(done: seq<Download>, meta: Download, table: map<string, Entry>)
    requires TableOf(done, table) && IsSeriesEpisode(meta) && meta.seriesId.value !in table
    ensures TableOf(done + [meta], table[meta.seriesId.value := CreateSeriesMetadata(meta)])
  {
    var sid := meta.seriesId.value;
    SeriesIdsAppend(done, meta);
    EpisodesOfAbsent(done, sid);
    var t := table[sid := CreateSeriesMetadata(meta)];
    forall s | s in t
      ensures t[s] == SeriesOf(done + [meta], s)
    {
      FirstEpisodeAppend(done, meta, s);
      EpisodesOfAppend(done, meta, s);
    }
  }

  /**
   * The grouping effect: one pass over the downloads that appends to the
   * list and updates the series dictionary in place.
   */
  method GroupDownloads(downloadMetadata: seq<Download>) returns (listData: seq<Entry>)
    ensures listData == GroupedDownloads(downloadMetadata)
  {
    var mainList: seq<Slot> := [];
    var seriesMap: map<string, Entry> := map[];
    for i := 0 to |downloadMetadata|
      invariant mainList == Slots(downloadMetadata[..i], {})
      invariant TableOf(downloadMetadata[..i], seriesMap)
    {
      var meta := downloadMetadata[i];
      var done := downloadMetadata[..i];
      assert downloadMetadata[..i + 1] == done + [meta];
      SlotsAppend(done, meta, {});
      if meta.category == TVEpisodeCategory && meta.seriesId.Some? {
        var sid := meta.seriesId.value;
        if sid in seriesMap && seriesMap[sid].Series? {
          ExistingSeriesStep(done, meta, seriesMap);
          var series := seriesMap[sid];
          series := series.(episodes := series.episodes + [meta]);
          seriesMap := seriesMap[sid := series];
        } else {
          NewSeriesStep(done, meta, seriesMap);
          var newSeries := CreateSeriesMetadata(meta);
          mainList := mainList + [SeriesSlot(sid)];
          seriesMap := seriesMap[sid := newSeries];
        }
      } else {
        ItemStep(done, meta, seriesMap);
        mainList := mainList + [ItemSlot(meta)];
      }
    }
    assert downloadMetadata[..|downloadMetadata|] == downloadMetadata;
    TableOfIsSeriesTable(downloadMetadata, seriesMap);
    SlotsSeries(downloadMetadata, {});
    listData := Resolve(mainList, seriesMap);
  }

  // ---------------------------------------------------------------------
  // What the grouped list promises.

  /** One series slot per series: no two series slots name the same series, and each series not yet seen has one. */
  lemma {:induction false} SlotsUnique(ds: seq<Download>, seen: set<string>)
    ensures forall k, l :: 0 <= k < l < |Slots(ds, seen)| && Slots(ds, seen)[k].SeriesSlot? && Slots(ds, seen)[l].SeriesSlot? ==>
              Slots(ds, seen)[k].seriesId != Slots(ds, seen)[l].seriesId
    ensures forall s :: s in SeriesIds(ds) && s !in seen ==> SeriesSlot(s) in Slots(ds, seen)
    decreases |ds|
  {
    if |ds| > 0 {
      if !IsSeriesEpisode(ds[0]) || ds[0].seriesId.value in seen {
        SlotsUnique(ds[1..], seen);
      } else {
        var sid := ds[0].seriesId.value;
        SlotsUnique(ds[1..], seen + {sid});
        SlotsSeries(ds[1..], seen + {sid});
        var rest := Slots(ds[1..], seen + {sid});
        assert Slots(ds, seen) == [SeriesSlot(sid)] + rest;
        forall k, l | 0 <= k < l < |Slots(ds, seen)| && Slots(ds, seen)[k].SeriesSlot? && Slots(ds, seen)[l].SeriesSlot?
          ensures Slots(ds, seen)[k].seriesId != Slots(ds, seen)[l].seriesId
        {
          if k == 0 {
            assert Slots(ds, seen)[l] == rest[l - 1];
          } else {
            assert Slots(ds, seen)[k] == rest[k - 1] && Slots(ds, seen)[l] == rest[l - 1];
          }
        }
      }
    }
  }

  lemma {:induction false} ResolveAt(slots: seq<Slot>, table: map<string, Entry>, k: nat)
    requires SlotsIn(slots, table) && k < |slots|
    ensures Resolve(slots, table)[k] == if slots[k].ItemSlot? then Single(slots[k].download) else table[slots[k].seriesId]
    decreases k
  {
    if k > 0 {
      ResolveAt(slots[1..], table, k - 1);
    }
  }

  /** The k-th entry of the grouped list, read off the layout. */
  lemma GroupedAt(ds: seq<Download>, k: nat)
    requires k < |Slots(ds, {})|
    ensures |GroupedDownloads(ds)| == |Slots(ds, {})|
    ensures Slots(ds, {})[k].ItemSlot? ==> GroupedDownloads(ds)[k] == Single(Slots(ds, {})[k].download)
    ensures Slots(ds, {})[k].SeriesSlot? ==> (Slots(ds, {})[k].seriesId in SeriesIds(ds) &&
              GroupedDownloads(ds)[k] == SeriesOf(ds, Slots(ds, {})[k].seriesId) &&
              GroupedDownloads(ds)[k].Series? && GroupedDownloads(ds)[k].id == Slots(ds, {})[k].seriesId)
  {
    var slots := Slots(ds, {});
    SlotsSeries(ds, {});
    assert GroupedDownloads(ds) == Resolve(slots, SeriesTable(ds));
    ResolveAt(slots, SeriesTable(ds), k);
    if slots[k].SeriesSlot? {
      FirstEpisodeIsFirst(ds, slots[k].seriesId);
    }
  }

  /** Each series of the downloads has exactly one entry in the grouped list, holding all its episodes. */
  lemma OneEntryPerSeries(ds: seq<Download>, sid: string)
    requires sid in SeriesIds(ds)
    ensures exists k :: 0 <= k < |GroupedDownloads(ds)| && GroupedDownloads(ds)[k] == SeriesOf(ds, sid)
    ensures forall k, l :: 0 <= k < l < |GroupedDownloads(ds)| && GroupedDownloads(ds)[k].Series? && GroupedDownloads(ds)[l].Series? ==>
              GroupedDownloads(ds)[k].id != GroupedDownloads(ds)[l].id
  {
    var slots := Slots(ds, {});
    SlotsUnique(ds, {});
    var k :| 0 <= k < |slots| && slots[k] == SeriesSlot(sid);
    GroupedAt(ds, k);
    var list := GroupedDownloads(ds);
    forall k, l | 0 <= k < l < |list| && list[k].Series? && list[l].Series?
      ensures list[k].id != list[l].id
    {
      GroupedAt(ds, k);
      GroupedAt(ds, l);
    }
  }

  /** A series entry is a completed series named after its series id, built from its first episode. */
  lemma SeriesEntryShape(ds: seq<Download>, sid: string)
    requires sid in SeriesIds(ds)
    ensures SeriesOf(ds, sid).Series? && SeriesOf(ds, sid).id == sid && SeriesOf(ds, sid).state == "COMPLETED"
    ensures |SeriesOf(ds, sid).episodes| > 0 && SeriesOf(ds, sid).episodes[0] == FirstEpisode(ds, sid)
    ensures forall e :: e in SeriesOf(ds, sid).episodes ==> IsSeriesEpisode(e) && e.seriesId == Some(sid)
  {
    FirstEpisodeIsFirst(ds, sid);
    EpisodesOfMembers(ds, sid);
  }

  lemma {:induction false} FirstEpisodeIsFirst(ds: seq<Download>, sid: string)
    requires sid in SeriesIds(ds)
    ensures |EpisodesOf(ds, sid)| > 0 && EpisodesOf(ds, sid)[0] == FirstEpisode(ds, sid)
    ensures IsSeriesEpisode(FirstEpisode(ds, sid)) && FirstEpisode(ds, sid).seriesId == Some(sid)
    decreases |ds|
  {
    if !(IsSeriesEpisode(ds[0]) && ds[0].seriesId.value == sid) {
      FirstEpisodeIsFirst(ds[1..], sid);
    }
  }

  lemma {:induction false} EpisodesOfMembers(ds: seq<Download>, sid: string)
    ensures forall e :: e in EpisodesOf(ds, sid) ==> e in ds && IsSeriesEpisode(e) && e.seriesId == Some(sid)
    decreases |ds|
  {
    if |ds| > 0 {
      EpisodesOfMembers(ds[1..], sid);
    }
  }

  function ItemsOf(slots: seq<Slot>): seq<Download>
  {
    if |slots| == 0 then [] else (if slots[0].ItemSlot? then [slots[0].download] else []) + ItemsOf(slots[1..])
  }

  function Singles(entries: seq<Entry>): seq<Download>
  {
    if |entries| == 0 then [] else (if entries[0].Single? then [entries[0].download] else []) + Singles(entries[1..])
  }

  function OtherDownloads(ds: seq<Download>): seq<Download>
  {
    if |ds| == 0 then [] else (if !IsSeriesEpisode(ds[0]) then [ds[0]] else []) + OtherDownloads(ds[1..])
  }

  lemma {:induction false} SlotsItems(ds: seq<Download>, seen: set<string>)
    ensures ItemsOf(Slots(ds, seen)) == OtherDownloads(ds)
    decreases |ds|
  {
    if |ds| > 0 {
      var next := if IsSeriesEpisode(ds[0]) && ds[0].seriesId.value !in seen then seen + {ds[0].seriesId.value} else seen;
      SlotsItems(ds[1..], next);
      if IsSeriesEpisode(ds[0]) && ds[0].seriesId.value !in seen {
        assert Slots(ds, seen)[1..] == Slots(ds[1..], next);
      } else if !IsSeriesEpisode(ds[0]) {
        assert Slots(ds, seen)[1..] == Slots(ds[1..], next);
      }
    }
  }

  lemma {:induction false} ResolveSingles(slots: seq<Slot>, table: map<string, Entry>)
    requires SlotsIn(slots, table)
    requires forall s :: s in table ==> table[s].Series?
    ensures Singles(Resolve(slots, table)) == ItemsOf(slots)
    decreases |slots|
  {
    if |slots| > 0 {
      ResolveSingles(slots[1..], table);
    }
  }

  /** The downloads that are not series episodes are listed as they are, in their order. */
  lemma OtherDownloadsPassThrough(ds: seq<Download>)
    ensures Singles(GroupedDownloads(ds)) == OtherDownloads(ds)
    ensures forall d :: d in Singles(GroupedDownloads(ds)) ==> !IsSeriesEpisode(d)
  {
    SlotsSeries(ds, {});
    ResolveSingles(Slots(ds, {}), SeriesTable(ds));
    SlotsItems(ds, {});
    OtherDownloadsMembers(ds);
  }

  lemma {:induction false} OtherDownloadsMembers(ds: seq<Download>)
    ensures forall d :: d in OtherDownloads(ds) ==> !IsSeriesEpisode(d)
    decreases |ds|
  {
    if |ds| > 0 {
      OtherDownloadsMembers(ds[1..]);
    }
  }

  /** The number of downloads an entry stands for. */
  function Count(e: Entry): nat
  {
    if e.Single? then 1 else |e.episodes|
  }

  function Total(entries: seq<Entry>): nat
  {
    if |entries| == 0 then 0 else Count(entries[0]) + Total(entries[1..])
  }

  lemma {:induction false} TotalAppend(a: seq<Entry>, b: seq<Entry>)
    ensures Total(a + b) == Total(a) + Total(b)
    decreases |a|
  {
    if |a| == 0 {
      assert a + b == b;
    } else {
      assert (a + b)[1..] == a[1..] + b;
      TotalAppend(a[1..], b);
    }
  }

  /** Growing the one series a layout names once grows the total by the same amount. */
  lemma {:induction false} ResolveGrowOnce(slots: seq<Slot>, table: map<string, Entry>, s: string, e: Entry)
    requires SlotsIn(slots, table) && s in table && table[s].Series? && e.Series?
    requires SeriesSlot(s) in slots
    requires forall k, l :: 0 <= k < l < |slots| && slots[k].SeriesSlot? && slots[l].SeriesSlot? ==> slots[k].seriesId != slots[l].seriesId
    ensures SlotsIn(slots, table[s := e])
    ensures Total(Resolve(slots, table[s := e])) + |table[s].episodes| == Total(Resolve(slots, table)) + |e.episodes|
    decreases |slots|
  {
    var rest := slots[1..];
    if slots[0] == SeriesSlot(s) {
      forall k | 0 <= k < |rest| && rest[k].SeriesSlot?
        ensures rest[k].seriesId != s
      {
        assert slots[k + 1] == rest[k];
      }
      ResolveUnreferenced(rest, table, s, e);
    } else {
      assert SeriesSlot(s) in rest;
      forall k, l | 0 <= k < l < |rest| && rest[k].SeriesSlot? && rest[l].SeriesSlot?
        ensures rest[k].seriesId != rest[l].seriesId
      {
        assert slots[k + 1] == rest[k] && slots[l + 1] == rest[l];
      }
      ResolveGrowOnce(rest, table, s, e);
    }
  }

  lemma CountItemStep(done: seq<Download>, d: Download)
    requires !IsSeriesEpisode(d)
    ensures Total(GroupedDownloads(done + [d])) == Total(GroupedDownloads(done)) + 1
  {
    var slots := Slots(done, {});
    var table := SeriesTable(done);
    assert TableOf(done, table);
    SlotsSeries(done, {});
    SlotsAppend(done, d, {});
    ItemStep(done, d, table);
    TableOfIsSeriesTable(done + [d], table);
    ResolveAppend(slots, ItemSlot(d), table);
    TotalAppend(Resolve(slots, table), Resolve([ItemSlot(d)], table));
  }

  /** The table after a later episode of a known series. */
  lemma SeriesTableGrows(done: seq<Download>, d: Download)
    requires IsSeriesEpisode(d) && d.seriesId.value in SeriesIds(done)
    ensures d.seriesId.value in SeriesTable(done) && SeriesTable(done)[d.seriesId.value].Series?
    ensures SeriesTable(done + [d]) == SeriesTable(done)[d.seriesId.value :=
              SeriesTable(done)[d.seriesId.value].(episodes := SeriesTable(done)[d.seriesId.value].episodes + [d])]
  {
    var table := SeriesTable(done);
    assert TableOf(done, table);
    ExistingSeriesStep(done, d, table);
    var sid := d.seriesId.value;
    TableOfIsSeriesTable(done + [d], table[sid := table[sid].(episodes := table[sid].episodes + [d])]);
  }

  lemma CountExistingSeriesStep(done: seq<Download>, d: Download)
    requires IsSeriesEpisode(d) && d.seriesId.value in SeriesIds(done)
    ensures Total(GroupedDownloads(done + [d])) == Total(GroupedDownloads(done)) + 1
  {
    var sid := d.seriesId.value;
    var slots := Slots(done, {});
    SeriesTableGrows(done, d);
    var table := SeriesTable(done);
    var e := table[sid].(episodes := table[sid].episodes + [d]);
    SlotsSeries(done, {});
    SlotsAppend(done, d, {});
    assert Slots(done + [d], {}) == slots;
    SlotsUnique(done, {});
    ResolveGrowOnce(slots, table, sid, e);
  }

  lemma CountNewSeriesStep(done: seq<Download>, d: Download)
    requires IsSeriesEpisode(d) && d.seriesId.value !in SeriesIds(done)
    ensures Total(GroupedDownloads(done + [d])) == Total(GroupedDownloads(done)) + 1
  {
    var sid := d.seriesId.value;
    var slots := Slots(done, {});
    var table := SeriesTable(done);
    assert TableOf(done, table);
    SlotsSeries(done, {});
    SlotsAppend(done, d, {});
    NewSeriesStep(done, d, table);
    var grown := table[sid := CreateSeriesMetadata(d)];
    TableOfIsSeriesTable(done + [d], grown);
    ResolveUnreferenced(slots, table, sid, CreateSeriesMetadata(d));
    ResolveAppend(slots, SeriesSlot(sid), grown);
    TotalAppend(Resolve(slots, grown), Resolve([SeriesSlot(sid)], grown));
  }

  /** The grouped list accounts for every download exactly once. */
  lemma {:induction false} GroupedCountsEveryDownload(ds: seq<Download>)
    ensures Total(GroupedDownloads(ds)) == |ds|
    decreases |ds|
  {
    if |ds| > 0 {
      var done := ds[..|ds| - 1];
      var d := ds[|ds| - 1];
      assert ds == done + [d];
      GroupedCountsEveryDownload(done);
      if !IsSeriesEpisode(d) {
        CountItemStep(done, d);
      } else if d.seriesId.value in SeriesIds(done) {
        CountExistingSeriesStep(done, d);
      } else {
        CountNewSeriesStep(done, d);
      }
    }
  }

  lemma {:induction false} SlotsPrefix(ds: seq<Download>, i: nat)
    requires i <= |ds|
    ensures Slots(ds[..i], {}) <= Slots(ds, {})
    decreases |ds| - i
  {
    if i == |ds| {
      assert ds[..i] == ds;
    } else {
      SlotsPrefix(ds, i + 1);
      assert ds[..i + 1] == ds[..i] + [ds[i]];
      SlotsAppend(ds[..i], ds[i], {});
    }
  }

  /** A series entry stands where its first episode was: after the entries of the downloads before that episode. */
  lemma SeriesAtFirstEpisode(ds: seq<Download>, j: nat)
    requires j < |ds| && IsSeriesEpisode(ds[j]) && ds[j].seriesId.value !in SeriesIds(ds[..j])
    ensures |GroupedDownloads(ds[..j])| < |GroupedDownloads(ds)| && ds[j].seriesId.value in SeriesIds(ds)
    ensures GroupedDownloads(ds)[|GroupedDownloads(ds[..j])|] == SeriesOf(ds, ds[j].seriesId.value)
  {
    var sid := ds[j].seriesId.value;
    assert ds[..j + 1] == ds[..j] + [ds[j]];
    SlotsAppend(ds[..j], ds[j], {});
    SlotsPrefix(ds, j + 1);
    var k := |Slots(ds[..j], {})|;
    assert Slots(ds, {})[k] == SeriesSlot(sid);
    SlotsSeries(ds[..j], {});
    assert |GroupedDownloads(ds[..j])| == k;
    GroupedAt(ds, k);
  }
}
