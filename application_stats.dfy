/**
 * `getApplicationStats`: the user's total, counts by status, response rate by source and the
 * rounded average number of days from application to the current status.
 */
module ApplicationStats {
  import opened Common
  import opened Grouping
  import opened Applications

  /** The `{$match: {userId}}` stage. */
  function Owned(apps: seq<Application>, userId: string): (r: seq<Application>)
    ensures forall a :: a in r <==> a in apps && a.userId == userId
    ensures |r| <= |apps|
  {
    if apps == [] then []
    else
      var init, a := apps[..|apps| - 1], apps[|apps| - 1];
      Owned(init, userId) + (if a.userId == userId then [a] else [])
  }

  function Statuses(apps: seq<Application>): (r: seq<string>)
    ensures |r| == |apps| && forall i :: 0 <= i < |apps| ==> r[i] == apps[i].status
  {
    seq(|apps|, i requires 0 <= i < |apps| => apps[i].status)
  }

  function Sources(apps: seq<Application>): (r: seq<string>)
    ensures |r| == |apps| && forall i :: 0 <= i < |apps| ==> r[i] == apps[i].source
  {
    seq(|apps|, i requires 0 <= i < |apps| => apps[i].source)
  }

  /** `byStatus`: each status present mapped to its number of applications. */
  function ByStatus(apps: seq<Application>): map<string, nat>
  {
    ToMap(GroupCount(Statuses(apps)))
  }

  /** Only statuses that occur are keys; each counts its applications; the counts sum to the total. */
  lemma ByStatusSpec(apps: seq<Application>, s: string)
    ensures s in ByStatus(apps) <==> exists a :: a in apps && a.status == s
    ensures s in ByStatus(apps) ==> ByStatus(apps)[s] == Occurrences(Statuses(apps), s) >= 1
    ensures Total(GroupCount(Statuses(apps))) == |apps|
  {
    CountMapSpec(Statuses(apps), s);
    if exists a :: a in apps && a.status == s {
      var a :| a in apps && a.status == s;
      var i :| 0 <= i < |apps| && apps[i] == a;
      assert Statuses(apps)[i] == s;
    }
    if s in Statuses(apps) {
      var i :| 0 <= i < |Statuses(apps)| && Statuses(apps)[i] == s;
      assert apps[i] in apps;
      OccurrencesPositive(Statuses(apps), s);
    }
  }

  lemma {:induction false} OccurrencesPositive(keys: seq<string>, k: string)
    requires k in keys
    ensures Occurrences(keys, k) >= 1
  {
    var init := keys[..|keys| - 1];
    if keys[|keys| - 1] != k {
      assert keys == init + [keys[|keys| - 1]];
      OccurrencesPositive(init, k);
    }
  }

  /** One `bySource` document. */
  datatype SourceRow = SourceRow(source: string, total: nat, responded: nat, responseRate: real)

  /** How many applications from `source` have a status in `counted`. */
  function CountResponded(apps: seq<Application>, source: string, counted: set<string>): nat
  {
    if apps == [] then 0
    else
      var a := apps[|apps| - 1];
      CountResponded(apps[..|apps| - 1], source, counted)
        + (if a.source == source && a.status in counted then 1 else 0)
  }

  /** `responded / total * 100`, or 0 when there is nothing to divide by. */
  function Rate(responded: nat, total: nat): real
  {
    if total == 0 then 0.0 else (responded as real) / (total as real) * 100.0
  }

  lemma RateBounds(responded: nat, total: nat)
    requires responded <= total
    ensures 0.0 <= Rate(responded, total) <= 100.0
    ensures total == 0 ==> Rate(responded, total) == 0.0
    ensures total > 0 ==> (Rate(responded, total) == 100.0 <==> responded == total)
    ensures Rate(responded, total) == 0.0 <==> responded == 0
  {
    if total > 0 {
      var q := (responded as real) / (total as real);
      assert q * (total as real) == responded as real;
      assert 0.0 <= q <= 1.0;
    }
  }

  /** Grouping by source, with `responded` counting the statuses in `counted`. */
  function SourceRows(apps: seq<Application>, counted: set<string>): seq<SourceRow>
  {
    var gs := GroupCount(Sources(apps));
    seq(|gs|, i requires 0 <= i < |gs| =>
      var responded := CountResponded(apps, gs[i].key, counted);
      SourceRow(gs[i].key, gs[i].count, responded, Rate(responded, gs[i].count)))
  }

  /** The pipeline as written: every status in the enum counts as a response, `applied` included. */
  const RESPONDED_AS_WRITTEN: set<string> := set s | s in VALID_STATUSES

  /** A response is any status in the enum beyond plain submission. */
  const RESPONDED: set<string> := RESPONDED_AS_WRITTEN - {"applied"}

  function BySourceAsWritten(apps: seq<Application>): seq<SourceRow>
  {
    SourceRows(apps, RESPONDED_AS_WRITTEN)
  }

  function BySource(apps: seq<Application>): seq<SourceRow>
  {
    SourceRows(apps, RESPONDED)
  }

  lemma {:induction false} CountRespondedBound(apps: seq<Application>, source: string, counted: set<string>)
    ensures CountResponded(apps, source, counted) <= Occurrences(Sources(apps), source)
  {
    if apps != [] {
      var init := apps[..|apps| - 1];
      CountRespondedBound(init, source, counted);
      assert Sources(apps)[..|apps| - 1] == Sources(init);
    }
  }

  /** Each source appears once, with its number of applications, `responded <= total` and a rate in [0, 100]. */
  lemma SourceRowsSpec(apps: seq<Application>, counted: set<string>, i: nat)
    requires i < |SourceRows(apps, counted)|
    ensures var row := SourceRows(apps, counted)[i];
      && row.total == Occurrences(Sources(apps), row.source) >= 1
      && row.responded == CountResponded(apps, row.source, counted) <= row.total
      && 0.0 <= row.responseRate <= 100.0
      && row.responseRate == Rate(row.responded, row.total)
    ensures forall j :: 0 <= j < |SourceRows(apps, counted)| && j != i ==>
      SourceRows(apps, counted)[j].source != SourceRows(apps, counted)[i].source
  {
    var gs := GroupCount(Sources(apps));
    GroupCountExact(Sources(apps), i);
    CountRespondedBound(apps, gs[i].key, counted);
    RateBounds(CountResponded(apps, gs[i].key, counted), gs[i].count);
  }

  /** Applications from `source` that still read "applied". */
  function StillApplied(apps: seq<Application>, source: string): nat
  {
    CountResponded(apps, source, {"applied"})
  }

  /** The pipeline as written over-counts by exactly the applications that are still "applied". */
  lemma {:induction false} AsWrittenCountsApplied(apps: seq<Application>, source: string)
    ensures CountResponded(apps, source, RESPONDED_AS_WRITTEN)
      == CountResponded(apps, source, RESPONDED) + StillApplied(apps, source)
  {
    if apps != [] {
      AsWrittenCountsApplied(apps[..|apps| - 1], source);
    }
  }

  /** As written, every source whose applications all carry an enum status reports a 100% response rate. */
  lemma {:induction false} AsWrittenAlwaysResponded(apps: seq<Application>, source: string)
    requires forall a :: a in apps ==> a.status in VALID_STATUSES
    ensures CountResponded(apps, source, RESPONDED_AS_WRITTEN) == Occurrences(Sources(apps), source)
  {
    if apps != [] {
      var init := apps[..|apps| - 1];
      assert forall a :: a in init ==> a in apps;
      AsWrittenAlwaysResponded(init, source);
      assert Sources(apps)[..|apps| - 1] == Sources(init);
    }
  }

  /** One application that nobody has answered yet: reported as 100% responded, though nothing responded. */
  lemma AppliedOnlyCounterexample(a: Application)
    requires a.status == "applied"
    ensures BySourceAsWritten([a])[0].responded == 1 && BySourceAsWritten([a])[0].responseRate == 100.0
    ensures BySource([a])[0].responded == 0 && BySource([a])[0].responseRate == 0.0
  {
    var keys := Sources([a]);
    assert keys == [a.source] && keys[..0] == [];
    assert GroupCount(keys) == [Group(a.source, 1)];
    assert [a][..0] == [];
    assert "applied" in RESPONDED_AS_WRITTEN && "applied" !in RESPONDED;
    assert CountResponded([a], a.source, RESPONDED_AS_WRITTEN) == 1;
    assert CountResponded([a], a.source, RESPONDED) == 0;
  }

  /** The part of an application's life `avgDaysPerStage` measures. */
  function Elapsed(a: Application): int
  {
    a.lastUpdated - a.dateApplied
  }

  /** The sum of `Elapsed` over the applications with `status`. */
  function ElapsedSum(apps: seq<Application>, status: string): int
  {
    if apps == [] then 0
    else
      var a := apps[|apps| - 1];
      ElapsedSum(apps[..|apps| - 1], status) + (if a.status == status then Elapsed(a) else 0)
  }

  /** `Math.round(sum / count / DAY_MS)`: the nearest whole day, halves rounded up. */
  function RoundedMeanDays(sum: int, count: nat): int
    requires count > 0
  {
    (2 * sum + count * DAY_MS) / (2 * count * DAY_MS)
  }

  /** The result is within half a day of the mean, and a mean exactly halfway rounds up. */
  lemma RoundedMeanNearest(sum: int, count: nat)
    requires count > 0
    ensures var r, unit := RoundedMeanDays(sum, count), count * DAY_MS;
      2 * r * unit - unit <= 2 * sum < 2 * r * unit + unit
  {
    var d := 2 * count * DAY_MS;
    var x := 2 * sum + count * DAY_MS;
    var r := x / d;
    assert d * r <= x < d * r + d;
  }

  /** `avgDaysPerStage`: every status other than "applied" that occurs, mapped to its rounded mean. */
  function AvgDaysPerStage(apps: seq<Application>): map<string, int>
  {
    var later := set a | a in apps && a.status != "applied" :: a.status;
    map s | s in later :: RoundedMeanDays(ElapsedSum(apps, s), StatusCount(apps, s))
  }

  /** The number of applications with `status`, at least one for every status that occurs. */
  function StatusCount(apps: seq<Application>, status: string): (c: nat)
    ensures (exists a :: a in apps && a.status == status) ==> c >= 1
  {
    if apps == [] then 0
    else
      var init, a := apps[..|apps| - 1], apps[|apps| - 1];
      assert forall b :: b in apps ==> b in init || b == a;
      StatusCount(init, status) + (if a.status == status then 1 else 0)
  }

  /** No "applied" key; the keys are the later statuses present; each value is the nearest whole mean. */
  lemma AvgDaysPerStageSpec(apps: seq<Application>, s: string)
    ensures "applied" !in AvgDaysPerStage(apps)
    ensures s in AvgDaysPerStage(apps) <==> s != "applied" && exists a :: a in apps && a.status == s
    ensures s in AvgDaysPerStage(apps) ==>
      var r, unit := AvgDaysPerStage(apps)[s], StatusCount(apps, s) * DAY_MS;
      && StatusCount(apps, s) >= 1
      && 2 * r * unit - unit <= 2 * ElapsedSum(apps, s) < 2 * r * unit + unit
  {
    if s in AvgDaysPerStage(apps) {
      RoundedMeanNearest(ElapsedSum(apps, s), StatusCount(apps, s));
    }
  }

  /** `byStatus` holds exactly the statuses present, each with its number of applications. */
  ghost predicate CountsStatuses(m: map<string, nat>, apps: seq<Application>)
  {
    forall s ::
      && (s in m <==> exists a :: a in apps && a.status == s)
      && (s in m ==> m[s] == Occurrences(Statuses(apps), s) >= 1)
  }

  /**
   * `bySource` has one row per source present and no other, each with its number of
   * applications, the number of them whose status is in `counted`, and their ratio as a rate.
   */
  ghost predicate RowsBySource(rows: seq<SourceRow>, apps: seq<Application>, counted: set<string>)
  {
    && (forall i :: 0 <= i < |rows| ==> RowCounts(rows[i], apps, counted))
    && (forall i, j :: 0 <= i < j < |rows| ==> rows[i].source != rows[j].source)
    && (forall i :: 0 <= i < |rows| ==> exists a :: a in apps && a.source == rows[i].source)
    && (forall a :: a in apps ==> exists i :: 0 <= i < |rows| && rows[i].source == a.source)
  }

  /** One row's figures: its applications, those answered per `counted`, and their ratio as a rate. */
  ghost predicate RowCounts(row: SourceRow, apps: seq<Application>, counted: set<string>)
  {
    && row.total == Occurrences(Sources(apps), row.source) >= 1
    && row.responded == CountResponded(apps, row.source, counted) <= row.total
    && row.responseRate == Rate(row.responded, row.total)
    && 0.0 <= row.responseRate <= 100.0
  }

  /** `avgDaysPerStage` holds every later status present, each with its mean rounded to the nearest day. */
  ghost predicate MeanDays(m: map<string, int>, apps: seq<Application>)
  {
    && "applied" !in m
    && forall s ::
      && (s in m <==> s != "applied" && exists a :: a in apps && a.status == s)
      && (s in m ==> StatusCount(apps, s) >= 1 && WithinHalfDay(m[s], ElapsedSum(apps, s), StatusCount(apps, s)))
  }

  /** `days` is within half a day of the mean of `count` durations summing to `sum` milliseconds. */
  predicate WithinHalfDay(days: int, sum: int, count: nat)
  {
    2 * days * (count * DAY_MS) - count * DAY_MS <= 2 * sum < 2 * days * (count * DAY_MS) + count * DAY_MS
  }

  lemma ByStatusCounts(apps: seq<Application>)
    ensures CountsStatuses(ByStatus(apps), apps)
  {
    forall s ensures s in ByStatus(apps) ==> ByStatus(apps)[s] == Occurrences(Statuses(apps), s) >= 1
      ensures s in ByStatus(apps) <==> exists a :: a in apps && a.status == s
    {
      ByStatusSpec(apps, s);
    }
  }

  lemma SourceRowsBySource(apps: seq<Application>, counted: set<string>)
    ensures RowsBySource(SourceRows(apps, counted), apps, counted)
  {
    var rows := SourceRows(apps, counted);
    forall i | 0 <= i < |rows|
      ensures RowCounts(rows[i], apps, counted)
      ensures forall j :: 0 <= j < |rows| && j != i ==> rows[j].source != rows[i].source
      ensures exists a :: a in apps && a.source == rows[i].source
    {
      SourceRowsSpec(apps, counted, i);
      RowSourcePresent(apps, counted, i);
    }
    forall a | a in apps ensures exists i :: 0 <= i < |rows| && rows[i].source == a.source {
      SourcePresentRow(apps, counted, a);
    }
  }

  /** Each row's source is that of some application. */
  lemma RowSourcePresent(apps: seq<Application>, counted: set<string>, i: nat)
    requires i < |SourceRows(apps, counted)|
    ensures exists a :: a in apps && a.source == SourceRows(apps, counted)[i].source
  {
    var gs := GroupCount(Sources(apps));
    assert gs[i] in gs && gs[i].key in KeySet(gs);
    var k :| 0 <= k < |apps| && Sources(apps)[k] == gs[i].key;
    assert apps[k] in apps;
  }

  /** Each application's source has a row. */
  lemma SourcePresentRow(apps: seq<Application>, counted: set<string>, a: Application)
    requires a in apps
    ensures exists i :: 0 <= i < |SourceRows(apps, counted)| && SourceRows(apps, counted)[i].source == a.source
  {
    var gs := GroupCount(Sources(apps));
    var k :| 0 <= k < |apps| && apps[k] == a;
    assert Sources(apps)[k] == a.source;
    assert a.source in KeySet(gs);
    var g :| g in gs && g.key == a.source;
    var i :| 0 <= i < |gs| && gs[i] == g;
    assert SourceRows(apps, counted)[i].source == a.source;
  }

  lemma AvgDaysMeans(apps: seq<Application>)
    ensures MeanDays(AvgDaysPerStage(apps), apps)
  {
    forall s ensures s in AvgDaysPerStage(apps) <==> s != "applied" && exists a :: a in apps && a.status == s
      ensures s in AvgDaysPerStage(apps) ==>
        StatusCount(apps, s) >= 1 && WithinHalfDay(AvgDaysPerStage(apps)[s], ElapsedSum(apps, s), StatusCount(apps, s))
    {
      AvgDaysPerStageSpec(apps, s);
    }
    AvgDaysPerStageSpec(apps, "applied");
  }

  /** Row by row, the pipeline as written reports the same sources and totals, over-counting `responded` by the still-"applied" applications. */
  lemma AsWrittenRows(apps: seq<Application>)
    ensures |BySourceAsWritten(apps)| == |BySource(apps)|
    ensures forall i :: 0 <= i < |BySource(apps)| ==>
      && BySourceAsWritten(apps)[i].source == BySource(apps)[i].source
      && BySourceAsWritten(apps)[i].total == BySource(apps)[i].total
      && BySourceAsWritten(apps)[i].responded == BySource(apps)[i].responded + StillApplied(apps, BySource(apps)[i].source)
  {
    forall i | 0 <= i < |BySource(apps)|
      ensures BySourceAsWritten(apps)[i].responded == BySource(apps)[i].responded + StillApplied(apps, BySource(apps)[i].source)
    {
      AsWrittenCountsApplied(apps, BySource(apps)[i].source);
    }
  }

  datatype Stats = Stats(total: nat, byStatus: map<string, nat>, bySource: seq<SourceRow>, avgDaysPerStage: map<string, int>)

  /**
   * `getApplicationStats(userId)` with a response counting any status past "applied": every
   * figure is computed over the user's own applications.
   */
  function GetStats(apps: seq<Application>, userId: string): (st: Stats)
    ensures st.total == |Owned(apps, userId)|
    ensures CountsStatuses(st.byStatus, Owned(apps, userId))
    ensures RowsBySource(st.bySource, Owned(apps, userId), RESPONDED)
    ensures MeanDays(st.avgDaysPerStage, Owned(apps, userId))
  {
    var mine := Owned(apps, userId);
    ByStatusCounts(mine);
    SourceRowsBySource(mine, RESPONDED);
    AvgDaysMeans(mine);
    Stats(|mine|, ByStatus(mine), BySource(mine), AvgDaysPerStage(mine))
  }

  /**
   * `getApplicationStats(userId)` as written: the same figures, except that every source's
   * `responded` also counts its applications that still read "applied".
   */
  function GetStatsAsWritten(apps: seq<Application>, userId: string): (st: Stats)
    ensures st.total == |Owned(apps, userId)|
    ensures CountsStatuses(st.byStatus, Owned(apps, userId))
    ensures RowsBySource(st.bySource, Owned(apps, userId), RESPONDED_AS_WRITTEN)
    ensures MeanDays(st.avgDaysPerStage, Owned(apps, userId))
    ensures |st.bySource| == |GetStats(apps, userId).bySource|
    ensures forall i :: 0 <= i < |st.bySource| ==>
      var fixed := GetStats(apps, userId).bySource[i];
      && st.bySource[i].source == fixed.source && st.bySource[i].total == fixed.total
      && st.bySource[i].responded == fixed.responded + StillApplied(Owned(apps, userId), fixed.source)
  {
    var mine := Owned(apps, userId);
    ByStatusCounts(mine);
    SourceRowsBySource(mine, RESPONDED_AS_WRITTEN);
    AvgDaysMeans(mine);
    AsWrittenRows(mine);
    Stats(|mine|, ByStatus(mine), BySourceAsWritten(mine), AvgDaysPerStage(mine))
  }
}
