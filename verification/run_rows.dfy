/** The rows of a run file as `RunDataset` of lightning_ir/data/dataset.py
    transforms them: the depth cut, the training filter, the
    `(query_id, rank)` order, the query id list and the per-query sampling.
    A data frame is a sequence of records. */
module RunRows {
  import opened Common
  import opened Strings
  import opened Tables

  /** One row of the run: `rank` and `score` may be missing (NaN) after the
      outer join with the qrels; `relevance` holds the `relevance_<iteration>`
      columns, one entry per column, None for NaN, and is empty when the run
      was not joined with qrels. */
  datatype RunRow = RunRow(queryId: string, docId: string, rank: Option<int>, score: Option<real>, relevance: seq<Option<int>>)

  datatype Targets = Relevance | SubtopicRelevance | RankTargets | ScoreTargets

  datatype SamplingStrategy = SingleRelevant | Top | UnknownStrategy(name: string)

  datatype RunDatasetConfig = RunDatasetConfig(
    targets: Option<Targets>, depth: int, sampleSize: int, samplingStrategy: SamplingStrategy)

  // ---------------------------------------------------------------------
  // Order by (query_id, rank), a missing rank last

  predicate RankLe(a: Option<int>, b: Option<int>)
  {
    b.None? || (a.Some? && a.value <= b.value)
  }

  predicate RowLe(x: RunRow, y: RunRow)
  {
    if x.queryId != y.queryId then StrLe(x.queryId, y.queryId) else RankLe(x.rank, y.rank)
  }

  lemma RowLeTotal(x: RunRow, y: RunRow)
    ensures RowLe(x, y) || RowLe(y, x)
  {
    StrLeTotal(x.queryId, y.queryId);
  }

  lemma RowLeTrans(x: RunRow, y: RunRow, z: RunRow)
    requires RowLe(x, y) && RowLe(y, z)
    ensures RowLe(x, z)
  {
    if x.queryId != y.queryId && y.queryId != z.queryId {
      if x.queryId == z.queryId {
        StrLeAntisymmetric(x.queryId, y.queryId);
      } else {
        StrLeTrans(x.queryId, y.queryId, z.queryId);
      }
    }
  }

  predicate Sorted(s: seq<RunRow>)
  {
    forall i, j :: 0 <= i < j < |s| ==> RowLe(s[i], s[j])
  }

  /** Puts `x` after every row of the sorted `s` that is not greater than it,
      so rows with equal keys keep their order. */
  function Insert(s: seq<RunRow>, x: RunRow): seq<RunRow>
  {
    if |s| == 0 then [x]
    else if !RowLe(s[0], x) then [x] + s
    else [s[0]] + Insert(s[1..], x)
  }

  lemma {:induction false} InsertSorted(s: seq<RunRow>, x: RunRow)
    requires Sorted(s)
    ensures Sorted(Insert(s, x))
    ensures multiset(Insert(s, x)) == multiset(s) + multiset{x}
    decreases |s|
  {
    InsertPerm(s, x);
    if |s| == 0 {
    } else if !RowLe(s[0], x) {
      RowLeTotal(s[0], x);
      forall j | 0 <= j < |s| ensures RowLe(x, s[j]) {
        if j > 0 { RowLeTrans(x, s[0], s[j]); }
      }
      SortedCons(x, s);
    } else {
      var rest := Insert(s[1..], x);
      InsertSorted(s[1..], x);
      forall j | 0 <= j < |rest| ensures RowLe(s[0], rest[j]) {
        InsertMember(s[1..], x, rest[j]);
        if rest[j] != x {
          var k :| 0 <= k < |s[1..]| && s[1..][k] == rest[j];
          assert s[k + 1] == rest[j];
        }
      }
      SortedCons(s[0], rest);
    }
  }

  lemma {:induction false} InsertPerm(s: seq<RunRow>, x: RunRow)
    ensures multiset(Insert(s, x)) == multiset(s) + multiset{x}
    decreases |s|
  {
    if |s| > 0 {
      assert s == [s[0]] + s[1..];
      if RowLe(s[0], x) {
        InsertPerm(s[1..], x);
      }
    }
  }

  lemma {:induction false} InsertMember(s: seq<RunRow>, x: RunRow, y: RunRow)
    requires y in Insert(s, x)
    ensures y == x || y in s
    decreases |s|
  {
    if |s| > 0 && RowLe(s[0], x) && y != s[0] {
      InsertMember(s[1..], x, y);
    }
  }

  /** A row not above any row of a sorted sequence can go in front of it. */
  lemma SortedCons(a: RunRow, s: seq<RunRow>)
    requires Sorted(s) && forall j :: 0 <= j < |s| ==> RowLe(a, s[j])
    ensures Sorted([a] + s)
  {
    forall i, j | 0 <= i < j < |[a] + s| ensures RowLe(([a] + s)[i], ([a] + s)[j]) {
      if i > 0 {
        assert ([a] + s)[i] == s[i - 1];
      }
      assert ([a] + s)[j] == s[j - 1];
    }
  }

  /** `sort_values(["query_id", "rank"])`: a stable sort by query id, then by
      rank with missing ranks last. */
  function SortRun(rows: seq<RunRow>): seq<RunRow>
  {
    if |rows| == 0 then []
    else Insert(SortRun(rows[..|rows| - 1]), rows[|rows| - 1])
  }

  /** The sorted run is ordered and holds exactly the rows it was given. */
  lemma {:induction false} SortRunSpec(rows: seq<RunRow>)
    ensures Sorted(SortRun(rows))
    ensures multiset(SortRun(rows)) == multiset(rows)
    decreases |rows|
  {
    if |rows| > 0 {
      var init := rows[..|rows| - 1];
      SortRunSpec(init);
      InsertSorted(SortRun(init), rows[|rows| - 1]);
      assert rows == init + [rows[|rows| - 1]];
    }
  }

  lemma {:induction false} InsertCount(s: seq<RunRow>, x: RunRow, q: string)
    ensures QueryCount(Insert(s, x), q) == QueryCount(s, q) + (if x.queryId == q then 1 else 0)
    decreases |s|
  {
    if |s| > 0 && RowLe(s[0], x) {
      InsertCount(s[1..], x, q);
      assert Insert(s, x)[1..] == Insert(s[1..], x);
    } else if |s| > 0 {
      assert Insert(s, x)[1..] == s;
    }
  }

  /** Sorting keeps the number of rows of every query. */
  lemma {:induction false} SortRunCount(rows: seq<RunRow>, q: string)
    ensures QueryCount(SortRun(rows), q) == QueryCount(rows, q)
    decreases |rows|
  {
    if |rows| > 0 {
      var init := rows[..|rows| - 1];
      SortRunCount(init, q);
      InsertCount(SortRun(init), rows[|rows| - 1], q);
      assert rows == init + [rows[|rows| - 1]];
      QueryCountAppend(init, [rows[|rows| - 1]], q);
    }
  }

  // ---------------------------------------------------------------------
  // Depth cut and training filter

  /** `load_run`'s cut: unless the depth is -1, only rows ranked at most
      `depth` are kept (a missing rank compares false). */
  function DepthFilter(rows: seq<RunRow>, depth: int): (r: seq<RunRow>)
    ensures forall x :: x in r <==> x in rows && (depth == -1 || (x.rank.Some? && x.rank.value <= depth))
    ensures depth == -1 ==> r == rows
  {
    if depth == -1 then rows else Filter(rows, (x: RunRow) => x.rank.Some? && x.rank.value <= depth)
  }

  /** Number of rows of query `q`. */
  function QueryCount(rows: seq<RunRow>, q: string): nat
  {
    if |rows| == 0 then 0 else (if rows[0].queryId == q then 1 else 0) + QueryCount(rows[1..], q)
  }

  /** The training filter: a row survives when its query has at least
      `sampleSize` rows. */
  function TrainFilter(rows: seq<RunRow>, sampleSize: int): (r: seq<RunRow>)
    ensures forall x :: x in r <==> x in rows && QueryCount(rows, x.queryId) >= sampleSize
  {
    Filter(rows, (x: RunRow) => QueryCount(rows, x.queryId) >= sampleSize)
  }

  lemma {:induction false} QueryCountAppend(a: seq<RunRow>, b: seq<RunRow>, q: string)
    ensures QueryCount(a + b, q) == QueryCount(a, q) + QueryCount(b, q)
    decreases |a|
  {
    if |a| > 0 {
      assert (a + b)[0] == a[0] && (a + b)[1..] == a[1..] + b;
      QueryCountAppend(a[1..], b, q);
    } else {
      assert a + b == b;
    }
  }

  lemma {:induction false} FilterQueryCount(rows: seq<RunRow>, keep: RunRow -> bool, q: string, b: bool)
    requires forall x: RunRow :: x.queryId == q ==> keep(x) == b
    ensures QueryCount(Filter(rows, keep), q) == if b then QueryCount(rows, q) else 0
    decreases |rows|
  {
    if |rows| > 0 {
      var head := if keep(rows[0]) then [rows[0]] else [];
      var tail := Filter(rows[1..], keep);
      FilterQueryCount(rows[1..], keep, q, b);
      assert Filter(rows, keep) == head + tail;
      QueryCountAppend(head, tail, q);
    }
  }

  /** After the training filter every query keeps all of its rows or none:
      exactly the queries with at least `sampleSize` rows remain. */
  lemma TrainFilterCounts(rows: seq<RunRow>, sampleSize: int, q: string)
    ensures QueryCount(TrainFilter(rows, sampleSize), q) ==
      if QueryCount(rows, q) >= sampleSize then QueryCount(rows, q) else 0
  {
    FilterQueryCount(rows, (x: RunRow) => QueryCount(rows, x.queryId) >= sampleSize, q, QueryCount(rows, q) >= sampleSize);
  }

  // ---------------------------------------------------------------------
  // Query ids and groups

  /** `groupby("query_id").groups.keys()` of a sorted run: each query id
      once, where its run of rows begins. */
  function QueryIds(run: seq<RunRow>): seq<string>
  {
    if |run| == 0 then []
    else if |run| > 1 && run[1].queryId == run[0].queryId then QueryIds(run[1..])
    else [run[0].queryId] + QueryIds(run[1..])
  }

  lemma {:induction false} QueryIdsMembers(run: seq<RunRow>)
    ensures forall q :: q in QueryIds(run) <==> exists i :: 0 <= i < |run| && run[i].queryId == q
    ensures |run| > 0 ==> |QueryIds(run)| > 0 && QueryIds(run)[0] == run[0].queryId
    decreases |run|
  {
    if |run| > 0 {
      QueryIdsMembers(run[1..]);
      forall q | (exists i :: 0 <= i < |run| && run[i].queryId == q) ensures q in QueryIds(run) {
        var i :| 0 <= i < |run| && run[i].queryId == q;
        if i > 0 { assert run[1..][i - 1].queryId == q; }
      }
      forall q | q in QueryIds(run) ensures exists i :: 0 <= i < |run| && run[i].queryId == q {
        if q != run[0].queryId {
          var i :| 0 <= i < |run[1..]| && run[1..][i].queryId == q;
          assert run[i + 1].queryId == q;
        }
      }
    }
  }

  /** In a sorted run the query ids come out in strictly increasing order,
      so each appears once. */
  lemma {:induction false} QueryIdsIncreasing(run: seq<RunRow>)
    requires Sorted(run)
    ensures forall i, j :: 0 <= i < j < |QueryIds(run)| ==>
      StrLe(QueryIds(run)[i], QueryIds(run)[j]) && QueryIds(run)[i] != QueryIds(run)[j]
    decreases |run|
  {
    if |run| > 1 {
      var rest := QueryIds(run[1..]);
      QueryIdsIncreasing(run[1..]);
      QueryIdsMembers(run[1..]);
      if run[1].queryId != run[0].queryId {
        assert RowLe(run[0], run[1]);
        var ids := QueryIds(run);
        assert ids == [run[0].queryId] + rest;
        forall j | 0 < j < |ids| ensures StrLe(ids[0], ids[j]) && ids[0] != ids[j] {
          if j > 1 {
            StrLeTrans(run[0].queryId, rest[0], rest[j - 1]);
            if ids[j] == ids[0] {
              StrLeAntisymmetric(rest[0], rest[j - 1]);
            }
          }
        }
      }
    }
  }

  /** The distinct query ids of a run. */
  function QuerySet(run: seq<RunRow>): set<string>
  {
    set x | x in run :: x.queryId
  }

  lemma {:induction false} DistinctSize(s: seq<string>)
    requires forall i, j :: 0 <= i < j < |s| ==> s[i] != s[j]
    ensures |set x | x in s| == |s|
    decreases |s|
  {
    if |s| > 0 {
      DistinctSize(s[1..]);
      assert (set x | x in s) == {s[0]} + (set x | x in s[1..]);
      assert s[0] !in s[1..];
    }
  }

  /** `__len__` of a sorted run: the number of distinct query ids. */
  lemma QueryIdsCount(run: seq<RunRow>)
    requires Sorted(run)
    ensures |QueryIds(run)| == |QuerySet(run)|
  {
    QueryIdsMembers(run);
    QueryIdsIncreasing(run);
    DistinctSize(QueryIds(run));
    var ids := QueryIds(run);
    forall q | q in QuerySet(run) ensures q in ids {
      var x :| x in run && x.queryId == q;
      var i :| 0 <= i < |run| && run[i] == x;
    }
    assert QuerySet(run) == set x | x in ids;
  }

  /** The rows of one query, in run order (`get_group`). */
  function Group(run: seq<RunRow>, q: string): (g: seq<RunRow>)
    ensures forall x :: x in g <==> x in run && x.queryId == q
  {
    Filter(run, (x: RunRow) => x.queryId == q)
  }

  lemma {:induction false} FilterSorted(s: seq<RunRow>, keep: RunRow -> bool)
    requires Sorted(s)
    ensures Sorted(Filter(s, keep))
    decreases |s|
  {
    if |s| > 0 {
      FilterSorted(s[1..], keep);
      var tail := Filter(s[1..], keep);
      forall j | 0 <= j < |tail| ensures RowLe(s[0], tail[j]) {
        assert tail[j] in s[1..];
      }
    }
  }

  /** In a sorted run, a query's group is ordered by rank, missing ranks last. */
  lemma GroupByRank(run: seq<RunRow>, q: string)
    requires Sorted(run)
    ensures forall i, j :: 0 <= i < j < |Group(run, q)| ==> RankLe(Group(run, q)[i].rank, Group(run, q)[j].rank)
  {
    FilterSorted(run, (x: RunRow) => x.queryId == q);
    var g := Group(run, q);
    forall i, j | 0 <= i < j < |g| ensures RankLe(g[i].rank, g[j].rank) {
      assert g[i] in g && g[j] in g;
    }
  }

  // ---------------------------------------------------------------------
  // Sampling

  /** `max(axis=1)` over the relevance columns: NaN entries are skipped, and
      a row with no value at all gives NaN. */
  function MaxRelevance(rel: seq<Option<int>>): Option<int>
  {
    if |rel| == 0 then None
    else
      var rest := MaxRelevance(rel[1..]);
      if rel[0].None? then rest
      else if rest.None? || rest.value < rel[0].value then rel[0]
      else rest
  }

  /** The maximum is NaN exactly when every entry is, and otherwise is one of
      the entries and bounds all of them. */
  lemma {:induction false} MaxRelevanceIsMax(rel: seq<Option<int>>)
    ensures MaxRelevance(rel).None? <==> forall k :: 0 <= k < |rel| ==> rel[k].None?
    ensures MaxRelevance(rel).Some? ==> exists k :: 0 <= k < |rel| && rel[k] == MaxRelevance(rel)
    ensures MaxRelevance(rel).Some? ==>
      forall k :: 0 <= k < |rel| && rel[k].Some? ==> rel[k].value <= MaxRelevance(rel).value
    decreases |rel|
  {
    if |rel| > 0 {
      MaxRelevanceIsMax(rel[1..]);
      assert forall k :: 1 <= k < |rel| ==> rel[k] == rel[1..][k - 1];
      var rest := MaxRelevance(rel[1..]);
      if rest.Some? {
        var k :| 0 <= k < |rel[1..]| && rel[1..][k] == rest;
        assert rel[k + 1] == rest;
      }
    }
  }

  /** A row with some relevance above zero. */
  predicate IsRelevant(x: RunRow)
  {
    var m := MaxRelevance(x.relevance);
    m.Some? && m.value > 0
  }

  /** A ranked row whose relevance is zero or missing. */
  predicate IsNonRelevant(x: RunRow)
  {
    var m := MaxRelevance(x.relevance);
    (m.None? || m.value == 0) && x.rank.Some?
  }

  /** Drawing `n` of the rows without replacement; `picks` are the random
      numbers the sampler draws, each choosing among the rows still left. */
  function DrawRows(rows: seq<RunRow>, n: nat, picks: seq<nat>): (r: seq<RunRow>)
    requires n <= |rows|
    ensures |r| == n
    ensures multiset(r) <= multiset(rows)
    decreases n
  {
    if n == 0 then []
    else
      var i := (if |picks| > 0 then picks[0] else 0) % |rows|;
      var left := rows[..i] + rows[i + 1..];
      assert rows == rows[..i] + [rows[i]] + rows[i + 1..];
      [rows[i]] + DrawRows(left, n - 1, if |picks| > 0 then picks[1..] else [])
  }

  /** pandas' `sample(n)`: a negative `n`, or more rows than there are,
      raises `ValueError`. */
  function PandasSample(rows: seq<RunRow>, n: int, picks: seq<nat>): (r: Result<seq<RunRow>>)
    ensures r.Ok? <==> 0 <= n <= |rows|
    ensures r.Err? ==> r.error.ValueError?
    ensures r.Ok? ==> |r.value| == n && multiset(r.value) <= multiset(rows)
  {
    if n < 0 then Err(ValueError("A negative number of rows requested. Please provide `n` >= 0."))
    else if n > |rows| then Err(ValueError("Cannot take a larger sample than population when 'replace=False'"))
    else Ok(DrawRows(rows, n, picks))
  }

  /** "single_relevant": one random relevant row, then
      `min(sample_size - 1, #non-relevant ranked rows)` random non-relevant
      ranked rows. */
  function SampleSingleRelevant(group: seq<RunRow>, sampleSize: int, relevantPicks: seq<nat>, nonRelevantPicks: seq<nat>): Result<seq<RunRow>>
  {
    var relevant := PandasSample(Filter(group, IsRelevant), 1, relevantPicks);
    var nonRelevant := Filter(group, IsNonRelevant);
    var n := if sampleSize - 1 < |nonRelevant| then sampleSize - 1 else |nonRelevant|;
    if relevant.Err? then Err(relevant.error)
    else
      var drawn := PandasSample(nonRelevant, n, nonRelevantPicks);
      if drawn.Err? then Err(drawn.error)
      else Ok(relevant.value + drawn.value)
  }

  /** The sampling step of `__getitem__` on one query's rows. */
  function SampleGroup(group: seq<RunRow>, config: RunDatasetConfig, relevantPicks: seq<nat>, nonRelevantPicks: seq<nat>): Result<seq<RunRow>>
  {
    match config.samplingStrategy
    case SingleRelevant => SampleSingleRelevant(group, config.sampleSize, relevantPicks, nonRelevantPicks)
    case Top => Ok(SliceTo(group, config.sampleSize))
    case UnknownStrategy(_) => Err(ValueError("Invalid sampling strategy."))
  }

  /** "top": the first `sample_size` rows of the group (all of them when
      there are fewer); a negative size drops rows from the end as `head`
      does. */
  lemma TopSample(group: seq<RunRow>, config: RunDatasetConfig, rp: seq<nat>, np: seq<nat>)
    requires config.samplingStrategy == Top
    ensures SampleGroup(group, config, rp, np).Ok?
    ensures var r := SampleGroup(group, config, rp, np).value;
      && r == group[..|r|]
      && (config.sampleSize >= 0 ==> |r| == if config.sampleSize < |group| then config.sampleSize else |group|)
  {
  }

  /** "single_relevant" fails with `ValueError` exactly when the group has
      no relevant row or `sample_size` is below 1. */
  lemma SingleRelevantFails(group: seq<RunRow>, sampleSize: int, rp: seq<nat>, np: seq<nat>)
    ensures var r := SampleSingleRelevant(group, sampleSize, rp, np);
      && (r.Err? <==> (forall x :: x in group ==> !IsRelevant(x)) || sampleSize < 1)
      && (r.Err? ==> r.error.ValueError?)
  {
    NoneRelevant(group);
    SingleRelevantOk(group, sampleSize, rp, np);
  }

  lemma SingleRelevantOk(group: seq<RunRow>, sampleSize: int, rp: seq<nat>, np: seq<nat>)
    ensures var r := SampleSingleRelevant(group, sampleSize, rp, np);
      && (r.Ok? <==> |Filter(group, IsRelevant)| > 0 && sampleSize >= 1)
      && (r.Err? ==> r.error.ValueError?)
  {
    var r := SampleSingleRelevant(group, sampleSize, rp, np);
    var relevant := PandasSample(Filter(group, IsRelevant), 1, rp);
    var nonRelevant := Filter(group, IsNonRelevant);
    var n := if sampleSize - 1 < |nonRelevant| then sampleSize - 1 else |nonRelevant|;
    var drawn := PandasSample(nonRelevant, n, np);
    if relevant.Err? {
      assert r == Err(relevant.error);
    } else if drawn.Err? {
      assert r == Err(drawn.error);
      assert sampleSize < 1;
    } else {
      assert r == Ok(relevant.value + drawn.value);
    }
  }

  lemma NoneRelevant(group: seq<RunRow>)
    ensures |Filter(group, IsRelevant)| == 0 <==> forall x :: x in group ==> !IsRelevant(x)
  {
    var rel := Filter(group, IsRelevant);
    if |rel| > 0 {
      assert rel[0] in rel;
    }
  }

  /** "single_relevant" gives one relevant row of the group, then
      `min(sample_size - 1, #non-relevant ranked rows)` distinct non-relevant
      ranked rows of the group. */
  lemma SingleRelevantShape(group: seq<RunRow>, sampleSize: int, rp: seq<nat>, np: seq<nat>)
    requires SampleSingleRelevant(group, sampleSize, rp, np).Ok?
    ensures var r := SampleSingleRelevant(group, sampleSize, rp, np).value;
      var nonRelevant := Filter(group, IsNonRelevant);
      && |r| == 1 + (if sampleSize - 1 < |nonRelevant| then sampleSize - 1 else |nonRelevant|)
      && r[0] in group && IsRelevant(r[0])
      && (forall k :: 1 <= k < |r| ==> r[k] in group && IsNonRelevant(r[k]))
      && multiset(r[1..]) <= multiset(nonRelevant)
  {
    var r := SampleSingleRelevant(group, sampleSize, rp, np).value;
    var rel := PandasSample(Filter(group, IsRelevant), 1, rp).value;
    var nonRelevant := Filter(group, IsNonRelevant);
    var n := if sampleSize - 1 < |nonRelevant| then sampleSize - 1 else |nonRelevant|;
    var drawn := PandasSample(nonRelevant, n, np).value;
    assert r == rel + drawn;
    assert rel[0] in multiset(Filter(group, IsRelevant));
    assert r[1..] == drawn;
    forall k | 1 <= k < |r| ensures r[k] in group && IsNonRelevant(r[k]) {
      assert drawn[k - 1] in multiset(drawn);
    }
  }

  /** The target columns a row contributes: the `relevance_*` columns for
      "relevance", none for "subtopic_relevance" (no column name contains
      it), the rank or the score otherwise; NaN becomes 0. */
  function TargetRow(x: RunRow, t: Targets): (r: seq<real>)
    ensures t == Relevance ==> |r| == |x.relevance| && forall k :: 0 <= k < |r| ==>
      r[k] == if x.relevance[k].Some? then x.relevance[k].value as real else 0.0
    ensures t == SubtopicRelevance ==> r == []
    ensures t == RankTargets ==> |r| == 1 && r[0] == if x.rank.Some? then x.rank.value as real else 0.0
    ensures t == ScoreTargets ==> |r| == 1 && r[0] == if x.score.Some? then x.score.value else 0.0
  {
    match t
    case Relevance => seq(|x.relevance|, k requires 0 <= k < |x.relevance| =>
      if x.relevance[k].Some? then x.relevance[k].value as real else 0.0)
    case SubtopicRelevance => []
    case RankTargets => [if x.rank.Some? then x.rank.value as real else 0.0]
    case ScoreTargets => [if x.score.Some? then x.score.value else 0.0]
  }
}
