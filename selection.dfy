/**
 * The scene selection chain: merge the Landsat 8 and Landsat 9 Level 2
 * collections, keep the study period and the study area, sort by
 * acquisition time, and keep the scenes under the cloud-cover threshold.
 */
module Selection {
  import opened Scenes

  /** `cloudFilter`: the maximum cloud cover, in percent (exclusive). */
  const CloudFilter: real := 10.0

  /** `startDate`, 2023-01-01T00:00:00Z, in milliseconds since the epoch. */
  const StartDate: int := 1672531200000

  /** `endDate`, 2024-01-01T00:00:00Z, in milliseconds since the epoch (exclusive). */
  const EndDate: int := 1704067200000

  /** Milliseconds in one day. */
  const MsPerDay: int := 24 * 60 * 60 * 1000

  /**
   * The study period is the calendar year 2023 in UTC. It starts after the
   * 53 years 1970..2022, of which the 13 years 1972, 1976, ..., 2020 are
   * leap years, and it lasts the 365 days of 2023.
   */
  lemma StudyPeriodIsYear2023()
    ensures StartDate == ((2023 - 1970) * 365 + 13) * MsPerDay
    ensures EndDate == StartDate + 365 * MsPerDay
  {
  }

  /** The selection parameters, threaded explicitly instead of as globals. */
  datatype Config = Config(startDate: int, endDate: int, cloudMax: real)

  /** The parameters the script uses. */
  const StudyPeriod: Config := Config(StartDate, EndDate, CloudFilter)

  /** `filterDate(startDate, endDate)`: the half-open range [startDate, endDate). */
  predicate InDateRange(cfg: Config, s: Scene): (b: bool)
    ensures s.timeStart == cfg.endDate ==> !b
  {
    cfg.startDate <= s.timeStart < cfg.endDate
  }

  /** `Filter.lt('CLOUD_COVER', cloudFilter)`: strictly below the threshold. */
  predicate ClearEnough(cfg: Config, s: Scene): (b: bool)
    ensures s.cloudCover == cfg.cloudMax ==> !b
  {
    s.cloudCover < cfg.cloudMax
  }

  /** The three criteria a scene must meet to be selected. */
  predicate Wanted(cfg: Config, s: Scene) {
    InDateRange(cfg, s) && s.intersectsStudyArea && ClearEnough(cfg, s)
  }

  /** `a` is obtained from `b` by deleting elements, keeping the order of the rest. */
  predicate IsSubsequence(a: seq<Scene>, b: seq<Scene>)
    decreases |b|
  {
    if b == [] then a == []
    else (a != [] && a[0] == b[0] && IsSubsequence(a[1..], b[1..])) || IsSubsequence(a, b[1..])
  }

  /** Ascending by `system:time_start`. */
  predicate SortedByTime(col: seq<Scene>) {
    forall i, j :: 0 <= i < j < |col| ==> col[i].timeStart <= col[j].timeStart
  }

  /** Every scene in `col` was acquired at `t` or later. */
  predicate AllFrom(t: int, col: seq<Scene>) {
    forall k :: 0 <= k < |col| ==> t <= col[k].timeStart
  }

  /** A collection with a head is sorted when its tail is and nothing in the tail precedes the head. */
  lemma SortedCons(h: Scene, tail: seq<Scene>)
    ensures SortedByTime([h] + tail) <==> AllFrom(h.timeStart, tail) && SortedByTime(tail)
  {
    var c := [h] + tail;
    assert c[0] == h;
    assert forall k :: 0 <= k < |tail| ==> c[k + 1] == tail[k];
    if SortedByTime(c) {
      forall i, j | 0 <= i < j < |tail| ensures tail[i].timeStart <= tail[j].timeStart {
        assert c[i + 1].timeStart <= c[j + 1].timeStart;
      }
    }
    if AllFrom(h.timeStart, tail) && SortedByTime(tail) {
      forall i, j | 0 <= i < j < |c| ensures c[i].timeStart <= c[j].timeStart {
        if i > 0 {
          assert c[i] == tail[i - 1] && c[j] == tail[j - 1];
        } else {
          assert c[j] == tail[j - 1];
        }
      }
    }
  }

  /** A collection filter: keeps exactly the scenes satisfying `p`, in their original order. */
  function Filter(p: Scene -> bool, col: seq<Scene>): (r: seq<Scene>)
    ensures forall i :: 0 <= i < |r| ==> p(r[i])
    ensures forall s :: s in r <==> s in col && p(s)
    ensures IsSubsequence(r, col)
  {
    if col == [] then []
    else if p(col[0]) then [col[0]] + Filter(p, col[1..])
    else Filter(p, col[1..])
  }

  /** Filtering keeps a lower bound on the acquisition times. */
  lemma FilterFrom(p: Scene -> bool, t: int, col: seq<Scene>)
    requires AllFrom(t, col)
    ensures AllFrom(t, Filter(p, col))
  {
  }

  /** Filtering a sorted collection leaves it sorted. */
  lemma {:induction false} FilterSorted(p: Scene -> bool, col: seq<Scene>)
    requires SortedByTime(col)
    ensures SortedByTime(Filter(p, col))
  {
    if col != [] {
      SortedCons(col[0], col[1..]);
      assert col == [col[0]] + col[1..];
      FilterSorted(p, col[1..]);
      if p(col[0]) {
        FilterFrom(p, col[0].timeStart, col[1..]);
        SortedCons(col[0], Filter(p, col[1..]));
      }
    }
  }

  /** Filtering keeps every occurrence of a wanted scene and drops every other one. */
  lemma {:induction false} FilterCount(p: Scene -> bool, col: seq<Scene>, s: Scene)
    ensures multiset(Filter(p, col))[s] == if p(s) then multiset(col)[s] else 0
  {
    if col != [] {
      FilterCount(p, col[1..], s);
      assert col == [col[0]] + col[1..];
    }
  }

  /** Two filters in a row are one filter by the conjunction. */
  lemma {:induction false} FilterFilter(p: Scene -> bool, q: Scene -> bool, pq: Scene -> bool, col: seq<Scene>)
    requires forall s :: pq(s) == (p(s) && q(s))
    ensures Filter(q, Filter(p, col)) == Filter(pq, col)
  {
    if col != [] {
      FilterFilter(p, q, pq, col[1..]);
    }
  }

  /** Inserts `x` before the first scene that is not earlier than it. */
  function Insert(x: Scene, col: seq<Scene>): (r: seq<Scene>)
    ensures multiset(r) == multiset(col) + multiset{x}
  {
    if col == [] || x.timeStart <= col[0].timeStart then [x] + col
    else
      assert col == [col[0]] + col[1..];
      [col[0]] + Insert(x, col[1..])
  }

  /** Inserting a scene no earlier than `t` keeps `t` a lower bound. */
  lemma {:induction false} InsertFrom(x: Scene, t: int, col: seq<Scene>)
    requires t <= x.timeStart && AllFrom(t, col)
    ensures AllFrom(t, Insert(x, col))
  {
    if col != [] && x.timeStart > col[0].timeStart {
      InsertFrom(x, t, col[1..]);
    }
  }

  /** Inserting into a sorted collection keeps it sorted. */
  lemma {:induction false} InsertSorted(x: Scene, col: seq<Scene>)
    requires SortedByTime(col)
    ensures SortedByTime(Insert(x, col))
  {
    if col == [] || x.timeStart <= col[0].timeStart {
      SortedCons(x, col);
    } else {
      assert col == [col[0]] + col[1..];
      SortedCons(col[0], col[1..]);
      InsertSorted(x, col[1..]);
      InsertFrom(x, col[0].timeStart, col[1..]);
      SortedCons(col[0], Insert(x, col[1..]));
    }
  }

  /** Sorting neither adds nor loses scenes. */
  lemma SortKeepsMembers(col: seq<Scene>, s: Scene)
    ensures s in SortByTime(col) <==> s in col
  {
    assert s in SortByTime(col) <==> s in multiset(SortByTime(col));
  }

  /**
   * `sort('system:time_start')`, as a stable insertion sort: scenes with
   * the same acquisition time keep their merge order.
   */
  function SortByTime(col: seq<Scene>): (r: seq<Scene>)
    ensures SortedByTime(r)
    ensures multiset(r) == multiset(col)
  {
    if col == [] then []
    else
      assert col == [col[0]] + col[1..];
      InsertSorted(col[0], SortByTime(col[1..]));
      Insert(col[0], SortByTime(col[1..]))
  }

  /** The predicate behind `filterDate`. */
  function DateFilter(cfg: Config): Scene -> bool
  {
    s => InDateRange(cfg, s)
  }

  /** The predicate behind `filterBounds(studyArea)`. */
  function BoundsFilter(): Scene -> bool
  {
    (s: Scene) => s.intersectsStudyArea
  }

  /** The predicate behind `filter(ee.Filter.lt('CLOUD_COVER', cloudFilter))`. */
  function CloudCoverFilter(cfg: Config): Scene -> bool
  {
    s => ClearEnough(cfg, s)
  }

  /** The three criteria as one predicate. */
  function WantedFilter(cfg: Config): Scene -> bool {
    s => Wanted(cfg, s)
  }

  /** The selection chain, stage by stage, as the script composes it. */
  function Select(cfg: Config, landsat8: seq<Scene>, landsat9: seq<Scene>): (r: seq<Scene>)
    ensures forall i :: 0 <= i < |r| ==> Wanted(cfg, r[i])
    ensures SortedByTime(r)
  {
    var merged := landsat8 + landsat9;
    var dated := Filter(DateFilter(cfg), merged);
    var bounded := Filter(BoundsFilter(), dated);
    var sorted := SortByTime(bounded);
    forall s | s in sorted ensures s in bounded {
      SortKeepsMembers(bounded, s);
    }
    FilterSorted(CloudCoverFilter(cfg), sorted);
    Filter(CloudCoverFilter(cfg), sorted)
  }

  /** Filtering a collection with a head, one step. */
  lemma FilterCons(p: Scene -> bool, h: Scene, tail: seq<Scene>)
    ensures Filter(p, [h] + tail) == if p(h) then [h] + Filter(p, tail) else Filter(p, tail)
  {
  }

  /** A scene no later than everything in `col` is inserted at the front. */
  lemma InsertFront(x: Scene, col: seq<Scene>)
    requires AllFrom(x.timeStart, col)
    ensures Insert(x, col) == [x] + col
  {
  }

  /** A scene later than the head is inserted into the tail. */
  lemma InsertPast(x: Scene, h: Scene, tail: seq<Scene>)
    requires h.timeStart < x.timeStart
    ensures Insert(x, [h] + tail) == [h] + Insert(x, tail)
  {
  }

  /** Filtering commutes with inserting into a sorted collection. */
  lemma {:induction false} FilterInsert(p: Scene -> bool, x: Scene, col: seq<Scene>)
    requires SortedByTime(col)
    ensures Filter(p, Insert(x, col)) == if p(x) then Insert(x, Filter(p, col)) else Filter(p, col)
  {
    if col == [] || x.timeStart <= col[0].timeStart {
      if col != [] {
        SortedCons(col[0], col[1..]);
        assert col == [col[0]] + col[1..];
      }
      InsertFront(x, col);
      FilterCons(p, x, col);
      FilterFrom(p, x.timeStart, col);
      InsertFront(x, Filter(p, col));
    } else {
      var h, tail := col[0], col[1..];
      assert col == [h] + tail;
      SortedCons(h, tail);
      FilterInsert(p, x, tail);
      InsertPast(x, h, tail);
      FilterCons(p, h, Insert(x, tail));
      FilterCons(p, h, tail);
      if p(h) && p(x) {
        InsertPast(x, h, Filter(p, tail));
      }
    }
  }

  /** Sorting then filtering is filtering then sorting. */
  lemma {:induction false} SortFilter(p: Scene -> bool, col: seq<Scene>)
    ensures SortByTime(Filter(p, col)) == Filter(p, SortByTime(col))
  {
    if col != [] {
      SortFilter(p, col[1..]);
      FilterInsert(p, col[0], SortByTime(col[1..]));
      if p(col[0]) {
        var f := Filter(p, col[1..]);
        assert ([col[0]] + f)[0] == col[0];
        assert ([col[0]] + f)[1..] == f;
      }
    }
  }

  /**
   * The chain as a whole: the selection is the sorted merged collection
   * restricted to the wanted scenes, so the cloud filter's position after
   * the sort does not change the outcome, and no wanted scene is lost.
   */
  lemma SelectIsFilteredSort(cfg: Config, landsat8: seq<Scene>, landsat9: seq<Scene>)
    ensures Select(cfg, landsat8, landsat9) == Filter(WantedFilter(cfg), SortByTime(landsat8 + landsat9))
  {
    var merged := landsat8 + landsat9;
    var placed := (s: Scene) => InDateRange(cfg, s) && s.intersectsStudyArea;
    FilterFilter(DateFilter(cfg), BoundsFilter(), placed, merged);
    SortFilter(placed, merged);
    FilterFilter(placed, CloudCoverFilter(cfg), WantedFilter(cfg), SortByTime(merged));
  }

  /** A scene is selected exactly when it is in either collection and meets all three criteria. */
  lemma SelectMembership(cfg: Config, landsat8: seq<Scene>, landsat9: seq<Scene>, s: Scene)
    ensures s in Select(cfg, landsat8, landsat9) <==> (s in landsat8 || s in landsat9) && Wanted(cfg, s)
  {
    SelectIsFilteredSort(cfg, landsat8, landsat9);
    var sorted := SortByTime(landsat8 + landsat9);
    assert s in sorted <==> s in multiset(sorted);
  }

  /** Every occurrence of a wanted scene in the two collections is kept, and nothing else. */
  lemma SelectCount(cfg: Config, landsat8: seq<Scene>, landsat9: seq<Scene>, s: Scene)
    ensures multiset(Select(cfg, landsat8, landsat9))[s]
         == if Wanted(cfg, s) then multiset(landsat8)[s] + multiset(landsat9)[s] else 0
  {
    SelectIsFilteredSort(cfg, landsat8, landsat9);
    FilterCount(WantedFilter(cfg), SortByTime(landsat8 + landsat9), s);
  }

  /** The selection is a subsequence of the sorted merged collection. */
  lemma SelectIsSubsequenceOfSorted(cfg: Config, landsat8: seq<Scene>, landsat9: seq<Scene>)
    ensures IsSubsequence(Select(cfg, landsat8, landsat9), SortByTime(landsat8 + landsat9))
  {
    SelectIsFilteredSort(cfg, landsat8, landsat9);
  }

  /** A clear, in-area scene acquired exactly at the start date is selected. */
  lemma StartDateIncluded(s: Scene)
    requires s.timeStart == StartDate && s.intersectsStudyArea && s.cloudCover == 0.0
    ensures Select(StudyPeriod, [s], []) == [s]
  {
  }

  /** A scene acquired exactly at the end date, or with exactly 10% cloud cover, is rejected. */
  lemma BoundaryScenesRejected(s: Scene)
    requires s.timeStart == EndDate || s.cloudCover == CloudFilter
    ensures Select(StudyPeriod, [s], []) == []
  {
  }

  /**
   * Ties: two wanted scenes with the same acquisition time keep their merge
   * order, the Landsat 8 scene first; an earlier Landsat 9 scene comes first.
   */
  lemma SelectTieOrder(cfg: Config, a: Scene, b: Scene)
    requires Wanted(cfg, a) && Wanted(cfg, b)
    ensures a.timeStart <= b.timeStart ==> Select(cfg, [a], [b]) == [a, b]
    ensures b.timeStart < a.timeStart ==> Select(cfg, [a], [b]) == [b, a]
  {
    SelectIsFilteredSort(cfg, [a], [b]);
    var merged := [a] + [b];
    assert merged[0] == a && merged[1..] == [b];
    assert SortByTime([b]) == Insert(b, []) == [b];
    assert SortByTime(merged) == Insert(a, [b]);
    if b.timeStart < a.timeStart {
      assert Insert(a, [b]) == [b] + Insert(a, []);
    }
  }

  /** The scenes acquired at time `t`. */
  function AtTime(t: int): Scene -> bool {
    (s: Scene) => s.timeStart == t
  }

  /** Sorting scenes that all share one acquisition time leaves them as they are. */
  lemma {:induction false} SortEqualTimesIdentity(t: int, col: seq<Scene>)
    requires forall k :: 0 <= k < |col| ==> col[k].timeStart == t
    ensures SortByTime(col) == col
  {
    if col != [] {
      SortEqualTimesIdentity(t, col[1..]);
      assert col == [col[0]] + col[1..];
    }
  }

  /**
   * The sort is stable: for every acquisition time, the scenes carrying it
   * appear in the sorted collection in the same order as in the input.
   */
  lemma SortStable(col: seq<Scene>, t: int)
    ensures Filter(AtTime(t), SortByTime(col)) == Filter(AtTime(t), col)
  {
    SortFilter(AtTime(t), col);
    SortEqualTimesIdentity(t, Filter(AtTime(t), col));
  }
}
