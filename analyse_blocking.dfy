/**
 * Blocking-rule cost analysis: how many pairwise comparisons each blocking rule
 * adds when the rules are applied in order, with running totals for the chart,
 * and the exact pre-filter comparison count of one rule computed by multiplying
 * group counts over its equi-join keys.
 */
module AnalyseBlocking {
  import opened Outcomes
  import opened LinkageModel

  // ---------------------------------------------------------------------------
  // Which rule blocks each pair

  /** Index of the first rule a pair satisfies; `satisfies[i]` says whether it meets rule i. */
  function FirstRule(satisfies: seq<bool>): (r: Option<nat>)
    ensures r.Some? ==> r.value < |satisfies| && satisfies[r.value]
    ensures r.Some? ==> forall i :: 0 <= i < r.value ==> !satisfies[i]
    ensures r.None? <==> forall i :: 0 <= i < |satisfies| ==> !satisfies[i]
  {
    if satisfies == [] then None
    else if satisfies[0] then Some(0)
    else match FirstRule(satisfies[1..])
      case None => None
      case Some(i) => Some(i + 1)
  }

  /**
   * The `match_key` column of the blocked pairs: every candidate pair that meets some
   * rule appears once, keyed by the first rule it meets; the others are not generated.
   */
  function MatchKeys(pairs: seq<seq<bool>>): (keys: seq<nat>)
    ensures |keys| <= |pairs|
  {
    if pairs == [] then []
    else
      var init := MatchKeys(pairs[..|pairs| - 1]);
      match FirstRule(pairs[|pairs| - 1])
      case None => init
      case Some(k) => init + [k]
  }

  /** Number of candidate pairs that meet at least one rule. */
  function PairsMeetingSomeRule(pairs: seq<seq<bool>>): nat
  {
    if pairs == [] then 0
    else
      PairsMeetingSomeRule(pairs[..|pairs| - 1])
      + if true in pairs[|pairs| - 1] then 1 else 0
  }

  /** Number of blocked pairs whose first satisfied rule is rule `k`. */
  function PairsFirstBlockedBy(pairs: seq<seq<bool>>, k: nat): nat
  {
    if pairs == [] then 0
    else
      PairsFirstBlockedBy(pairs[..|pairs| - 1], k)
      + if FirstRule(pairs[|pairs| - 1]) == Some(k) then 1 else 0
  }

  function Occurrences(keys: seq<nat>, k: nat): nat
  {
    if keys == [] then 0
    else Occurrences(keys[..|keys| - 1], k) + if keys[|keys| - 1] == k then 1 else 0
  }

  /** Every pair is counted for the one rule that blocks it first. */
  lemma {:induction false} OccurrencesOfMatchKeys(pairs: seq<seq<bool>>, k: nat)
    ensures Occurrences(MatchKeys(pairs), k) == PairsFirstBlockedBy(pairs, k)
  {
    if pairs != [] {
      var init := pairs[..|pairs| - 1];
      OccurrencesOfMatchKeys(init, k);
      match FirstRule(pairs[|pairs| - 1])
      case None =>
      case Some(j) =>
        assert (MatchKeys(init) + [j])[..|MatchKeys(init) + [j]| - 1] == MatchKeys(init);
    }
  }

  /** A pair is blocked exactly when it meets some rule. */
  lemma {:induction false} MatchKeysCountsBlockedPairs(pairs: seq<seq<bool>>)
    ensures |MatchKeys(pairs)| == PairsMeetingSomeRule(pairs)
  {
    if pairs != [] {
      MatchKeysCountsBlockedPairs(pairs[..|pairs| - 1]);
    }
  }

  /** Every match key names one of the n rules. */
  lemma {:induction false} MatchKeysBelow(pairs: seq<seq<bool>>, n: nat)
    requires forall p :: p in pairs ==> |p| == n
    ensures forall k :: k in MatchKeys(pairs) ==> k < n
  {
    if pairs != [] {
      var init := pairs[..|pairs| - 1];
      assert forall p :: p in init ==> p in pairs;
      MatchKeysBelow(init, n);
      assert pairs[|pairs| - 1] in pairs;
    }
  }

  // ---------------------------------------------------------------------------
  // The per-rule counts: group by match key, then back-fill rules with no pairs

  /** A row of `__splink__df_count_cumulative_blocks`. */
  datatype KeyCount = KeyCount(rowCount: nat, matchKey: nat)

  /**
   * `select count(*) as row_count, match_key ... group by match_key order by match_key`:
   * one row per match key below `n` that occurs, in ascending key order.
   */
  function CountByMatchKey(keys: seq<nat>, n: nat): seq<KeyCount>
  {
    if n == 0 then []
    else
      var init := CountByMatchKey(keys, n - 1);
      if Occurrences(keys, n - 1) > 0 then init + [KeyCount(Occurrences(keys, n - 1), n - 1)] else init
  }

  /** Keys strictly ascending, as the `order by` leaves them. */
  predicate StrictlyAscending(rows: seq<KeyCount>)
  {
    forall i, j :: 0 <= i < j < |rows| ==> rows[i].matchKey < rows[j].matchKey
  }

  /** The grouped rows come out in ascending key order, every key below n and every count positive. */
  lemma {:induction false} CountByMatchKeyShape(keys: seq<nat>, n: nat)
    ensures StrictlyAscending(CountByMatchKey(keys, n))
    ensures forall r :: r in CountByMatchKey(keys, n) ==> r.matchKey < n && r.rowCount == Occurrences(keys, r.matchKey) > 0
  {
    if n > 0 {
      CountByMatchKeyShape(keys, n - 1);
      var init := CountByMatchKey(keys, n - 1);
      var o := Occurrences(keys, n - 1);
      if o > 0 {
        var rows := init + [KeyCount(o, n - 1)];
        assert CountByMatchKey(keys, n) == rows;
        assert forall r :: r in rows ==> r in init || r == KeyCount(o, n - 1);
        forall i, j | 0 <= i < j < |rows| ensures rows[i].matchKey < rows[j].matchKey {
          assert rows[i] == init[i];
          if j < |init| {
            assert rows[j] == init[j];
          } else {
            assert init[i] in init;
          }
        }
      }
    }
  }

  function KeySet(rows: seq<KeyCount>): (ks: set<nat>)
    ensures forall j :: 0 <= j < |rows| ==> rows[j].matchKey in ks
  {
    if rows == [] then {} else KeySet(rows[..|rows| - 1]) + {rows[|rows| - 1].matchKey}
  }

  lemma {:induction false} KeySetBelow(rows: seq<KeyCount>, b: nat)
    requires forall r :: r in rows ==> r.matchKey < b
    ensures forall x :: x in KeySet(rows) ==> x < b
  {
    if rows != [] {
      assert forall r :: r in rows[..|rows| - 1] ==> r in rows;
      KeySetBelow(rows[..|rows| - 1], b);
      assert rows[|rows| - 1] in rows;
    }
  }

  /** The count the grouped rows hold for key `k`, or 0 when no row has that key. */
  function CountAt(rows: seq<KeyCount>, k: nat): nat
  {
    if rows == [] then 0
    else if rows[|rows| - 1].matchKey == k then rows[|rows| - 1].rowCount
    else CountAt(rows[..|rows| - 1], k)
  }

  lemma {:induction false} CountAtAbsent(rows: seq<KeyCount>, k: nat)
    requires k !in KeySet(rows)
    ensures CountAt(rows, k) == 0
  {
    if rows != [] {
      CountAtAbsent(rows[..|rows| - 1], k);
    }
  }

  lemma {:induction false} CountAtPresent(rows: seq<KeyCount>, j: nat)
    requires StrictlyAscending(rows) && j < |rows|
    ensures CountAt(rows, rows[j].matchKey) == rows[j].rowCount
  {
    if j < |rows| - 1 {
      var init := rows[..|rows| - 1];
      assert init[j] == rows[j];
      CountAtPresent(init, j);
    }
  }

  lemma {:induction false} CountAtAppend(init: seq<KeyCount>, row: KeyCount, k: nat)
    requires row.matchKey != k
    ensures CountAt(init + [row], k) == CountAt(init, k)
  {
    assert (init + [row])[..|init|] == init;
  }

  lemma {:induction false} CountAtBeyond(rows: seq<KeyCount>, k: nat)
    requires forall r :: r in rows ==> r.matchKey < k
    ensures CountAt(rows, k) == 0
  {
    if rows != [] {
      assert rows[|rows| - 1] in rows;
      assert forall r :: r in rows[..|rows| - 1] ==> r in rows;
      CountAtBeyond(rows[..|rows| - 1], k);
    }
  }

  /** The grouped row for each key holds the number of pairs with that key. */
  lemma {:induction false} CountByMatchKeyAt(keys: seq<nat>, n: nat, k: nat)
    requires k < n
    ensures CountAt(CountByMatchKey(keys, n), k) == Occurrences(keys, k)
  {
    var rows := CountByMatchKey(keys, n);
    var init := CountByMatchKey(keys, n - 1);
    var o := Occurrences(keys, n - 1);
    if o > 0 {
      var row := KeyCount(o, n - 1);
      assert rows == init + [row];
      if k < n - 1 {
        CountByMatchKeyAt(keys, n - 1, k);
        CountAtAppend(init, row, k);
      }
    } else {
      assert rows == init;
      if k < n - 1 {
        CountByMatchKeyAt(keys, n - 1, k);
      } else {
        CountByMatchKeyShape(keys, n - 1);
        CountAtBeyond(init, k);
      }
    }
  }

  /** `[x for x in range(n) if x not in br_keys]`: the rules that blocked no pair, ascending. */
  function Missing(n: nat, keys: set<nat>): (m: seq<nat>)
    ensures forall x: nat :: x in m <==> x < n && x !in keys
    ensures forall i, j :: 0 <= i < j < |m| ==> m[i] < m[j]
    ensures forall i :: 0 <= i < |m| ==> m[i] < n
  {
    if n == 0 then []
    else if n - 1 !in keys then Missing(n - 1, keys) + [n - 1]
    else Missing(n - 1, keys)
  }

  /** The entries of `t` at the indices below `k` that are in `present`, in index order. */
  function Select(t: seq<nat>, present: set<nat>, k: nat): seq<nat>
    requires k <= |t|
  {
    if k == 0 then []
    else Select(t, present, k - 1) + if k - 1 in present then [t[k - 1]] else []
  }

  lemma {:induction false} SelectAgree(t: seq<nat>, p: set<nat>, q: set<nat>, k: nat)
    requires k <= |t| && forall i :: 0 <= i < k ==> (i in p <==> i in q)
    ensures Select(t, p, k) == Select(t, q, k)
  {
    if k > 0 {
      SelectAgree(t, p, q, k - 1);
    }
  }

  lemma {:induction false} SelectAll(t: seq<nat>, p: set<nat>, k: nat)
    requires k <= |t| && forall i :: 0 <= i < k ==> i in p
    ensures Select(t, p, k) == t[..k]
  {
    if k > 0 {
      SelectAll(t, p, k - 1);
      assert t[..k] == t[..k - 1] + [t[k - 1]];
    }
  }

  lemma {:induction false} SelectBeyond(t: seq<nat>, p: set<nat>, k: nat, k': nat)
    requires k <= k' <= |t| && forall i :: k <= i < k' ==> i !in p
    ensures Select(t, p, k') == Select(t, p, k)
  {
    if k' > k {
      SelectBeyond(t, p, k, k' - 1);
    }
  }

  lemma {:induction false} SelectLengthAtLeast(t: seq<nat>, p: set<nat>, m: nat, k: nat)
    requires m <= k <= |t| && forall i :: 0 <= i < m ==> i in p
    ensures |Select(t, p, k)| >= m
  {
    if k > m {
      SelectLengthAtLeast(t, p, m, k - 1);
    } else {
      SelectAll(t, p, k);
    }
  }

  /**
   * Inserting entry m at position m of the selection is selecting with m present,
   * when every index below m is already present.
   */
  lemma {:induction false} SelectInsert(t: seq<nat>, p: set<nat>, m: nat, k: nat)
    requires m < k <= |t| && m !in p && forall i :: 0 <= i < m ==> i in p
    ensures |Select(t, p, k)| >= m
    ensures Select(t, p + {m}, k) == Select(t, p, k)[..m] + [t[m]] + Select(t, p, k)[m..]
  {
    SelectLengthAtLeast(t, p, m, k);
    if k == m + 1 {
      SelectAgree(t, p + {m}, p, m);
      SelectAll(t, p, m);
    } else {
      SelectInsert(t, p, m, k - 1);
      var s := Select(t, p, k - 1);
      var e := if k - 1 in p then [t[k - 1]] else [];
      assert (s + e)[..m] == s[..m];
      assert (s + e)[m..] == s[m..] + e;
    }
  }

  function Counts(rows: seq<KeyCount>): (c: seq<nat>)
    ensures |c| == |rows| && forall j :: 0 <= j < |rows| ==> c[j] == rows[j].rowCount
  {
    seq(|rows|, j requires 0 <= j < |rows| => rows[j].rowCount)
  }

  /** In ascending rows, every row but the last is a row with a smaller key than the last. */
  lemma InitBelowLast(rows: seq<KeyCount>)
    requires StrictlyAscending(rows) && rows != []
    ensures StrictlyAscending(rows[..|rows| - 1])
    ensures forall r :: r in rows[..|rows| - 1] ==> r in rows && r.matchKey < rows[|rows| - 1].matchKey
  {
    var init := rows[..|rows| - 1];
    forall r | r in init ensures r in rows && r.matchKey < rows[|rows| - 1].matchKey {
      var j :| 0 <= j < |init| && init[j] == r;
      assert rows[j] == r;
    }
  }

  /** The grouped counts are the selection of the per-rule counts at the keys that occur. */
  lemma {:induction false} SelectOfRows(t: seq<nat>, rows: seq<KeyCount>, n: nat)
    requires n <= |t| && StrictlyAscending(rows)
    requires forall r :: r in rows ==> r.matchKey < n && t[r.matchKey] == r.rowCount
    ensures Select(t, KeySet(rows), n) == Counts(rows)
  {
    if rows == [] {
      SelectBeyond(t, KeySet(rows), 0, n);
    } else {
      var init := rows[..|rows| - 1];
      var last := rows[|rows| - 1];
      var m := last.matchKey;
      assert last in rows;
      InitBelowLast(rows);
      SelectOfRows(t, init, m);
      KeySetBelow(init, m);
      SelectBeyond(t, KeySet(rows), m + 1, n);
      SelectAgree(t, KeySet(rows), KeySet(init), m);
      assert Counts(rows) == Counts(init) + [last.rowCount];
    }
  }

  /** In a strictly ascending run of keys below n, the j-th key is at least j and leaves room for the rest. */
  lemma {:induction false} AscendingKeyBounds(rows: seq<KeyCount>, n: nat)
    requires StrictlyAscending(rows) && forall r :: r in rows ==> r.matchKey < n
    ensures forall j :: 0 <= j < |rows| ==> j <= rows[j].matchKey && rows[j].matchKey + |rows| <= n + j
  {
    if rows != [] {
      var init := rows[..|rows| - 1];
      var last := rows[|rows| - 1];
      assert last in rows;
      InitBelowLast(rows);
      AscendingKeyBounds(init, last.matchKey);
      if |rows| > 1 {
        assert rows[|rows| - 2] == init[|init| - 1];
      }
    }
  }

  /** Before the m-th missing index is inserted, every smaller index is present and it is not. */
  lemma MissingStep(n: nat, keys: set<nat>, m: nat, present: set<nat>)
    requires m < |Missing(n, keys)|
    requires forall x :: x in present <==> x in keys || x in Missing(n, keys)[..m]
    ensures Missing(n, keys)[m] !in present
    ensures forall i :: 0 <= i < Missing(n, keys)[m] ==> i in present
  {
    var missing := Missing(n, keys);
    var at := missing[m];
    forall i | 0 <= i < at ensures i in present {
      if i !in keys {
        assert i in missing;
        var j :| 0 <= j < |missing| && missing[j] == i;
        assert missing[..m][j] == i;
      }
    }
    forall x | x in missing[..m] ensures x < at {
      var j :| 0 <= j < m && missing[..m][j] == x;
    }
  }

  /** n strictly ascending keys below n are exactly 0..n-1. */
  lemma AllKeysPresent(rows: seq<KeyCount>, n: nat)
    requires StrictlyAscending(rows) && forall r :: r in rows ==> r.matchKey < n
    requires |rows| == n
    ensures forall i :: 0 <= i < n ==> i in KeySet(rows)
  {
    AscendingKeyBounds(rows, n);
    forall i | 0 <= i < n ensures i in KeySet(rows) {
      assert rows[i].matchKey == i;
    }
  }

  /** The count for each of the n rules: the grouped count at its index, or 0. */
  ghost function PerRuleCounts(rows: seq<KeyCount>, n: nat): (t: seq<nat>)
    ensures |t| == n && forall i :: 0 <= i < n ==> t[i] == CountAt(rows, i)
  {
    seq(n, i requires 0 <= i < n => CountAt(rows, i))
  }

  /** The grouped counts, before any back-fill, select the per-rule counts at the keys present. */
  lemma GroupedCountsSelected(rows: seq<KeyCount>, n: nat)
    requires StrictlyAscending(rows) && forall r :: r in rows ==> r.matchKey < n
    ensures Counts(rows) == Select(PerRuleCounts(rows, n), KeySet(rows), n)
  {
    var t := PerRuleCounts(rows, n);
    forall r | r in rows ensures t[r.matchKey] == r.rowCount {
      var j :| 0 <= j < |rows| && rows[j] == r;
      CountAtPresent(rows, j);
    }
    SelectOfRows(t, rows, n);
  }

  /** One step of the back-fill: inserting a 0 at the m-th missing index selects that index too. */
  lemma BackFillStep(rows: seq<KeyCount>, n: nat, m: nat, present: set<nat>)
    requires m < |Missing(n, KeySet(rows))|
    requires forall x :: x in present <==> x in KeySet(rows) || x in Missing(n, KeySet(rows))[..m]
    ensures var at := Missing(n, KeySet(rows))[m];
      var s := Select(PerRuleCounts(rows, n), present, n);
      && at <= |s|
      && Select(PerRuleCounts(rows, n), present + {at}, n) == s[..at] + [0] + s[at..]
  {
    var at := Missing(n, KeySet(rows))[m];
    var t := PerRuleCounts(rows, n);
    MissingStep(n, KeySet(rows), m, present);
    SelectInsert(t, present, at, n);
    CountAtAbsent(rows, at);
  }

  /** After the step, the indices present are the keys and the first m + 1 missing indices. */
  lemma PresentStep(keys: set<nat>, missing: seq<nat>, m: nat, present: set<nat>)
    requires m < |missing|
    requires forall x :: x in present <==> x in keys || x in missing[..m]
    ensures forall x :: x in present + {missing[m]} <==> x in keys || x in missing[..m + 1]
  {
    assert missing[..m + 1] == missing[..m] + [missing[m]];
  }

  /** Adding every missing index to the keys present covers all indices below n. */
  lemma MissingCompletes(n: nat, keys: set<nat>, present: set<nat>)
    requires forall x :: x in present <==> x in keys || x in Missing(n, keys)
    ensures forall i :: 0 <= i < n ==> i in present
  {
  }

  /**
   * The back-fill: when fewer rows than rules come back, insert a 0 at the index of
   * every rule that blocked no pair, in ascending order, into the list of counts.
   * The result has one count per rule: the grouped count for its key, or 0.
   */
  method BackFill(rows: seq<KeyCount>, n: nat) returns (counts: seq<nat>)
    requires StrictlyAscending(rows) && forall r :: r in rows ==> r.matchKey < n
    ensures counts == PerRuleCounts(rows, n)
  {
    ghost var t := PerRuleCounts(rows, n);
    counts := Counts(rows);
    var keys := KeySet(rows);
    GroupedCountsSelected(rows, n);
    ghost var present := keys;
    if |counts| != n {
      var missing := Missing(n, keys);
      for m := 0 to |missing|
        invariant forall x :: x in present <==> x in keys || x in missing[..m]
        invariant counts == Select(t, present, n)
      {
        var at := missing[m];
        BackFillStep(rows, n, m, present);
        PresentStep(keys, missing, m, present);
        counts := counts[..at] + [0] + counts[at..];
        present := present + {at};
      }
      assert missing[..|missing|] == missing;
      MissingCompletes(n, keys, present);
    } else {
      AllKeysPresent(rows, n);
    }
    SelectAll(t, present, n);
    assert t[..n] == t;
    assert counts == t;
  }

  // ---------------------------------------------------------------------------
  // Totals

  function Sum(s: seq<nat>): nat
  {
    if s == [] then 0 else s[0] + Sum(s[1..])
  }

  lemma {:induction false} SumAppend(a: seq<nat>, b: seq<nat>)
    ensures Sum(a + b) == Sum(a) + Sum(b)
  {
    if a != [] {
      assert (a + b)[1..] == a[1..] + b;
      SumAppend(a[1..], b);
    } else {
      assert a + b == b;
    }
  }

  /** Adding one to a single entry adds one to the total. */
  lemma {:induction false} SumIncrement(s: seq<nat>, x: nat)
    requires x < |s|
    ensures Sum(s[x := s[x] + 1]) == Sum(s) + 1
  {
    if x > 0 {
      assert s[x := s[x] + 1][1..] == s[1..][x - 1 := s[x] + 1];
      SumIncrement(s[1..], x - 1);
    } else {
      assert s[x := s[x] + 1][1..] == s[1..];
    }
  }

  /** Number of pairs with each match key 0..n-1. */
  ghost function OccurrenceCounts(keys: seq<nat>, n: nat): (c: seq<nat>)
    ensures |c| == n && forall i :: 0 <= i < n ==> c[i] == Occurrences(keys, i)
  {
    seq(n, i requires 0 <= i < n => Occurrences(keys, i))
  }

  /** Counting each match key below n accounts for every key. */
  lemma {:induction false} OccurrenceCountsSum(keys: seq<nat>, n: nat)
    requires forall k :: k in keys ==> k < n
    ensures Sum(OccurrenceCounts(keys, n)) == |keys|
  {
    if keys == [] {
      assert OccurrenceCounts(keys, n) == seq(n, i => 0);
      ZeroSum(n);
    } else {
      var init := keys[..|keys| - 1];
      var x := keys[|keys| - 1];
      assert forall k :: k in init ==> k in keys;
      assert x in keys;
      OccurrenceCountsSum(init, n);
      assert OccurrenceCounts(keys, n) == OccurrenceCounts(init, n)[x := Occurrences(init, x) + 1];
      SumIncrement(OccurrenceCounts(init, n), x);
    }
  }

  lemma {:induction false} ZeroSum(n: nat)
    ensures Sum(seq(n, i => 0)) == 0
  {
    if n > 0 {
      assert seq(n, i => 0)[1..] == seq(n - 1, i => 0);
      ZeroSum(n - 1);
    }
  }

  /** For each of the n rules, the number of pairs it is the first to block. */
  ghost function FirstBlockedCounts(pairs: seq<seq<bool>>, n: nat): (c: seq<nat>)
    ensures |c| == n && forall i :: 0 <= i < n ==> c[i] == PairsFirstBlockedBy(pairs, i)
  {
    seq(n, i requires 0 <= i < n => PairsFirstBlockedBy(pairs, i))
  }

  /** Grouping the match keys and back-filling gives each rule the pairs it blocks first. */
  lemma PerRuleCountsAreFirstBlocked(pairs: seq<seq<bool>>, n: nat)
    ensures PerRuleCounts(CountByMatchKey(MatchKeys(pairs), n), n) == FirstBlockedCounts(pairs, n)
  {
    forall i | 0 <= i < n
      ensures PerRuleCounts(CountByMatchKey(MatchKeys(pairs), n), n)[i] == PairsFirstBlockedBy(pairs, i)
    {
      CountByMatchKeyAt(MatchKeys(pairs), n, i);
      OccurrencesOfMatchKeys(pairs, i);
    }
  }

  /**
   * The per-rule counts, summed over the rules, are the number of pairs that some
   * rule blocks: no pair is counted twice and none is lost.
   */
  lemma FirstBlockedCountsTotal(pairs: seq<seq<bool>>, n: nat)
    requires forall p :: p in pairs ==> |p| == n
    ensures Sum(FirstBlockedCounts(pairs, n)) == PairsMeetingSomeRule(pairs)
  {
    var keys := MatchKeys(pairs);
    MatchKeysBelow(pairs, n);
    forall i | 0 <= i < n ensures FirstBlockedCounts(pairs, n)[i] == OccurrenceCounts(keys, n)[i] {
      OccurrencesOfMatchKeys(pairs, i);
    }
    assert FirstBlockedCounts(pairs, n) == OccurrenceCounts(keys, n);
    OccurrenceCountsSum(keys, n);
    MatchKeysCountsBlockedPairs(pairs);
  }

  // ---------------------------------------------------------------------------
  // Cumulative records

  /**
   * The `reduction_ratio` text: the rolling reduction ratio of `cumulativeRows`
   * comparisons out of `cartesian`, rounded to six places.
   */
  datatype ReductionRatioText = ReductionRatioText(cumulativeRows: nat, cartesian: int)

  /** The fields added for the chart. */
  datatype ChartFields = ChartFields(cumulativeRows: nat, cartesian: int, reductionRatio: ReductionRatioText, start: nat)

  /** One output record: a rule, the pairs it adds, and the chart fields when asked for. */
  datatype CumulativeComparisons = CumulativeComparisons(rowCount: nat, rule: string, chart: Option<ChartFields>)

  function Min(a: nat, b: nat): nat
  {
    if a < b then a else b
  }

  /** The running total: rows of the rules up to and including rule i. */
  lemma PrefixSumStep(counts: seq<nat>, i: nat)
    requires i < |counts|
    ensures Sum(counts[..i + 1]) == Sum(counts[..i]) + counts[i]
  {
    assert counts[..i + 1] == counts[..i] + [counts[i]];
    SumAppend(counts[..i], [counts[i]]);
  }

  /** The running total never decreases from one rule to a later one. */
  lemma {:induction false} PrefixSumMonotone(counts: seq<nat>, i: nat, j: nat)
    requires i <= j <= |counts|
    ensures Sum(counts[..i]) <= Sum(counts[..j])
  {
    if i < j {
      PrefixSumMonotone(counts, i, j - 1);
      PrefixSumStep(counts, j - 1);
    }
  }

  /**
   * What the output loop over `zip(br_count, rules)` produces: one record per rule, in
   * rule order, with its count, and with the running total, the constant cartesian
   * count and the start offset when `outputChart` is set.
   */
  predicate RecordsOf(records: seq<CumulativeComparisons>, counts: seq<nat>, rules: seq<string>, outputChart: bool, cartesian: int)
  {
    && |records| == Min(|counts|, |rules|)
    && (forall i :: 0 <= i < |records| ==>
      && records[i].rowCount == counts[i]
      && records[i].rule == rules[i]
      && (records[i].chart.Some? <==> outputChart))
    && (forall i :: 0 <= i < |records| && outputChart ==>
      records[i].chart.value
      == ChartFields(Sum(counts[..i + 1]), cartesian, ReductionRatioText(Sum(counts[..i + 1]), cartesian), Sum(counts[..i])))
  }

  /** The last record's running total is the sum of all the counts. */
  lemma LastRecordTotal(records: seq<CumulativeComparisons>, counts: seq<nat>, rules: seq<string>, cartesian: int)
    requires RecordsOf(records, counts, rules, true, cartesian) && |counts| == |rules| && rules != []
    ensures records[|records| - 1].chart.value.cumulativeRows == Sum(counts)
  {
    var last := |counts| - 1;
    assert records[last].chart.value.cumulativeRows == Sum(counts[..last + 1]);
    assert counts[..last + 1] == counts;
  }

  /** Each running total is at least the one before it. */
  lemma RecordsTotalsAscend(records: seq<CumulativeComparisons>, counts: seq<nat>, rules: seq<string>, cartesian: int, i: nat, j: nat)
    requires RecordsOf(records, counts, rules, true, cartesian) && i <= j < |records|
    ensures records[i].chart.value.cumulativeRows <= records[j].chart.value.cumulativeRows
    ensures records[i].chart.value.start + records[i].rowCount == records[i].chart.value.cumulativeRows
  {
    PrefixSumMonotone(counts, i + 1, j + 1);
    PrefixSumStep(counts, i);
  }

  /** The output loop over `zip(br_count, rules)`. */
  method CumulativeRecords(counts: seq<nat>, rules: seq<string>, outputChart: bool, cartesian: int)
    returns (records: seq<CumulativeComparisons>)
    ensures RecordsOf(records, counts, rules, outputChart, cartesian)
  {
    records := [];
    var cumulativeSum := 0;
    for i := 0 to Min(|counts|, |rules|)
      invariant |records| == i
      invariant outputChart ==> cumulativeSum == Sum(counts[..i])
      invariant forall j :: 0 <= j < i ==>
        && records[j].rowCount == counts[j]
        && records[j].rule == rules[j]
        && (records[j].chart.Some? <==> outputChart)
      invariant forall j :: 0 <= j < i && outputChart ==>
        records[j].chart.value
        == ChartFields(Sum(counts[..j + 1]), cartesian, ReductionRatioText(Sum(counts[..j + 1]), cartesian), Sum(counts[..j]))
    {
      var row := counts[i];
      var out := CumulativeComparisons(row, rules[i], None);
      if outputChart {
        PrefixSumStep(counts, i);
        cumulativeSum := cumulativeSum + row;
        var rr := ReductionRatioText(cumulativeSum, cartesian);
        out := out.(chart := Some(ChartFields(cumulativeSum, cartesian, rr, cumulativeSum - row)));
      }
      records := records + [out];
    }
  }

  /** The per-rule counts after grouping by match key and back-filling. */
  lemma CountsAfterBackFill(pairs: seq<seq<bool>>, n: nat)
    requires forall p :: p in pairs ==> |p| == n
    ensures StrictlyAscending(CountByMatchKey(MatchKeys(pairs), n))
    ensures forall r :: r in CountByMatchKey(MatchKeys(pairs), n) ==> r.matchKey < n
    ensures PerRuleCounts(CountByMatchKey(MatchKeys(pairs), n), n) == FirstBlockedCounts(pairs, n)
    ensures Sum(FirstBlockedCounts(pairs, n)) == PairsMeetingSomeRule(pairs)
  {
    CountByMatchKeyShape(MatchKeys(pairs), n);
    PerRuleCountsAreFirstBlocked(pairs, n);
    FirstBlockedCountsTotal(pairs, n);
  }

  /**
   * The counting part of the analysis: group the blocked pairs by match key,
   * back-fill the rules that blocked nothing, and build the records. Record i
   * counts the pairs rule i blocks first (`FirstBlockedCounts`), and the last
   * running total is every pair some rule blocks.
   */
  method CountAndAccumulate(rules: seq<string>, outputChart: bool, cartesian: int, pairs: seq<seq<bool>>)
    returns (records: seq<CumulativeComparisons>)
    requires forall p :: p in pairs ==> |p| == |rules|
    ensures RecordsOf(records, FirstBlockedCounts(pairs, |rules|), rules, outputChart, cartesian)
    ensures |records| == |rules|
    ensures outputChart && records != [] ==>
      records[|records| - 1].chart.value.cumulativeRows == PairsMeetingSomeRule(pairs)
  {
    var n := |rules|;
    var keys := MatchKeys(pairs);
    CountsAfterBackFill(pairs, n);
    var rows := CountByMatchKey(keys, n);
    var counts := BackFill(rows, n);
    records := CumulativeRecords(counts, rules, outputChart, cartesian);
    if outputChart && records != [] {
      LastRecordTotal(records, counts, rules, cartesian);
    }
  }

  /**
   * `cumulative_comparisons_generated_by_blocking_rules`. `pairs` stands for the candidate
   * pairs the blocking SQL considers, each with the rules it meets; `cartesian` for the
   * cartesian count of the concatenated input. The work happens on a deep copy of the
   * linker with term frequencies and retained columns turned off; the caller's linker
   * is not changed.
   */
  method CumulativeComparisonsGeneratedByBlockingRules(
    linker: Linker, blockingRules: seq<string>, outputChart: bool, cartesian: int, pairs: seq<seq<bool>>)
    returns (records: seq<CumulativeComparisons>)
    requires forall p :: p in pairs ==>
      |p| == |if blockingRules != [] then blockingRules else linker.settingsObj.blockingRulesToGeneratePredictions|
    ensures var rules := if blockingRules != [] then blockingRules else linker.settingsObj.blockingRulesToGeneratePredictions;
      && |records| == |rules|
      && RecordsOf(records, FirstBlockedCounts(pairs, |rules|), rules, outputChart, cartesian)
    ensures outputChart && records != [] ==>
      records[|records| - 1].chart.value.cumulativeRows == PairsMeetingSomeRule(pairs)
  {
    var configured := linker.settingsObj.blockingRulesToGeneratePredictions;
    var copy := new Linker.DeepCopy(linker);
    var settings := copy.settingsObj;
    var rules := if blockingRules != [] then blockingRules else settings.blockingRulesToGeneratePredictions;
    settings.retainMatchingColumns := false;
    settings.retainIntermediateCalculationColumns := false;
    settings.comparisons := WithoutTermFrequencies(settings.comparisons);
    assert linker.settingsObj.blockingRulesToGeneratePredictions == configured;
    records := CountAndAccumulate(rules, outputChart, cartesian, pairs);
  }

  // ---------------------------------------------------------------------------
  // Pre-filter comparison count of one rule: the stages and what they compute

  /** A row of an input table: column to value; a column the row lacks is NULL. */
  type Row = map<string, string>

  /** The values of a row's key expressions, NULL as `None`. */
  type KeyTuple = seq<Option<string>>

  function KeyOf(row: Row, exprs: seq<string>): (t: KeyTuple)
    ensures |t| == |exprs|
  {
    seq(|exprs|, i requires 0 <= i < |exprs| => if exprs[i] in row then Some(row[exprs[i]]) else None)
  }

  /** The equi-join keeps a pair when every key is non-NULL and equal on both sides. */
  predicate KeysJoin(a: KeyTuple, b: KeyTuple)
  {
    |a| == |b| && forall i :: 0 <= i < |a| ==> a[i].Some? && a[i] == b[i]
  }

  /** Rows of `rows` whose key tuple joins with `key`. */
  function MatchingRows(key: KeyTuple, rows: seq<Row>, exprs: seq<string>): nat
  {
    if rows == [] then 0
    else
      MatchingRows(key, rows[..|rows| - 1], exprs)
      + if KeysJoin(key, KeyOf(rows[|rows| - 1], exprs)) then 1 else 0
  }

  /**
   * The number of (l, r) pairs, l from `left` and r from `right`, whose key tuples
   * are equal and free of NULLs: the pairs the rule's equi-join conditions generate.
   */
  function EqualKeyPairs(left: seq<Row>, leftExprs: seq<string>, right: seq<Row>, rightExprs: seq<string>): nat
  {
    if left == [] then 0
    else
      EqualKeyPairs(left[..|left| - 1], leftExprs, right, rightExprs)
      + MatchingRows(KeyOf(left[|left| - 1], leftExprs), right, rightExprs)
  }

  /** One group of a `group by` over the key expressions, with its `count(*)`. */
  datatype Group = Group(key: KeyTuple, count: nat)

  predicate PositiveCounts(groups: seq<Group>)
  {
    forall g :: g in groups ==> g.count >= 1
  }

  /** Count one more row with key tuple `key` (NULLs group together, as in SQL). */
  function Insert(groups: seq<Group>, key: KeyTuple): (r: seq<Group>)
    ensures PositiveCounts(groups) ==> PositiveCounts(r)
  {
    if groups == [] then [Group(key, 1)]
    else if groups[0].key == key then [groups[0].(count := groups[0].count + 1)] + groups[1..]
    else [groups[0]] + Insert(groups[1..], key)
  }

  function GroupBy(rows: seq<Row>, exprs: seq<string>): (groups: seq<Group>)
    ensures PositiveCounts(groups)
  {
    if rows == [] then []
    else Insert(GroupBy(rows[..|rows| - 1], exprs), KeyOf(rows[|rows| - 1], exprs))
  }

  /** Total count of the groups whose key joins with `key`. */
  function MatchCount(key: KeyTuple, groups: seq<Group>): nat
  {
    if groups == [] then 0
    else (if KeysJoin(key, groups[0].key) then groups[0].count else 0) + MatchCount(key, groups[1..])
  }

  /** `count_l * count_r` for each group on the right that joins with group `g`. */
  function RowProducts(g: Group, right: seq<Group>): seq<nat>
  {
    if right == [] then []
    else if KeysJoin(g.key, right[0].key) then [g.count * right[0].count] + RowProducts(g, right[1..])
    else RowProducts(g, right[1..])
  }

  /** The `block_count` column of `__splink__block_counts`: the inner join `using` the keys. */
  function JoinProducts(left: seq<Group>, right: seq<Group>): seq<nat>
  {
    if left == [] then [] else RowProducts(left[0], right) + JoinProducts(left[1..], right)
  }

  /** Sum over left groups of the left count times the matching right counts. */
  function JoinTotal(left: seq<Group>, right: seq<Group>): nat
  {
    if left == [] then 0 else left[0].count * MatchCount(left[0].key, right) + JoinTotal(left[1..], right)
  }

  lemma ProductAtLeastOne(a: nat, b: nat)
    requires a >= 1 && b >= 1
    ensures a * b >= 1
  {
    assert a * b >= 1 * b;
  }

  lemma Distribute(c: nat, a: nat, m: nat)
    ensures c * (a + m) == c * a + c * m
  {
  }

  lemma {:induction false} RowProductsPositive(g: Group, right: seq<Group>)
    requires g.count >= 1 && PositiveCounts(right)
    ensures forall x :: x in RowProducts(g, right) ==> x >= 1
  {
    if right != [] {
      assert right[0] in right;
      assert forall h :: h in right[1..] ==> h in right;
      RowProductsPositive(g, right[1..]);
      if KeysJoin(g.key, right[0].key) {
        ProductAtLeastOne(g.count, right[0].count);
      }
    }
  }

  /** Every block count the join produces is at least one. */
  lemma {:induction false} JoinProductsPositive(left: seq<Group>, right: seq<Group>)
    requires PositiveCounts(left) && PositiveCounts(right)
    ensures forall x :: x in JoinProducts(left, right) ==> x >= 1
  {
    if left != [] {
      assert left[0] in left;
      assert forall g :: g in left[1..] ==> g in left;
      RowProductsPositive(left[0], right);
      JoinProductsPositive(left[1..], right);
    }
  }

  lemma {:induction false} SumRowProducts(g: Group, right: seq<Group>)
    ensures Sum(RowProducts(g, right)) == g.count * MatchCount(g.key, right)
  {
    if right != [] {
      SumRowProducts(g, right[1..]);
      var rest := RowProducts(g, right[1..]);
      var m := MatchCount(g.key, right[1..]);
      if KeysJoin(g.key, right[0].key) {
        var head := g.count * right[0].count;
        assert RowProducts(g, right) == [head] + rest;
        assert ([head] + rest)[1..] == rest;
        Distribute(g.count, right[0].count, m);
      }
    }
  }

  lemma {:induction false} SumJoinProducts(left: seq<Group>, right: seq<Group>)
    ensures Sum(JoinProducts(left, right)) == JoinTotal(left, right)
  {
    if left != [] {
      SumJoinProducts(left[1..], right);
      SumRowProducts(left[0], right);
      SumAppend(RowProducts(left[0], right), JoinProducts(left[1..], right));
    }
  }

  /** Counting one more right row with key x adds one match for every key that joins x. */
  lemma {:induction false} MatchCountInsert(key: KeyTuple, groups: seq<Group>, x: KeyTuple)
    ensures MatchCount(key, Insert(groups, x)) == MatchCount(key, groups) + if KeysJoin(key, x) then 1 else 0
  {
    if groups != [] && groups[0].key != x {
      MatchCountInsert(key, groups[1..], x);
      assert Insert(groups, x)[1..] == Insert(groups[1..], x);
    } else if groups != [] {
      assert Insert(groups, x)[1..] == groups[1..];
    }
  }

  /** Counting one more left row with key x adds that row's matches on the right. */
  lemma {:induction false} JoinTotalInsert(groups: seq<Group>, x: KeyTuple, right: seq<Group>)
    ensures JoinTotal(Insert(groups, x), right) == JoinTotal(groups, right) + MatchCount(x, right)
  {
    if groups == [] {
      assert Insert(groups, x) == [Group(x, 1)];
      assert [Group(x, 1)][1..] == [];
    } else if groups[0].key == x {
      var c := groups[0].count;
      var m := MatchCount(x, right);
      assert Insert(groups, x)[1..] == groups[1..];
      assert (c + 1) * m == c * m + m;
    } else {
      JoinTotalInsert(groups[1..], x, right);
      assert Insert(groups, x)[1..] == Insert(groups[1..], x);
    }
  }

  /** Grouping the right side keeps, for every key, the number of rows it joins with. */
  lemma {:induction false} GroupByRight(key: KeyTuple, rows: seq<Row>, exprs: seq<string>)
    ensures MatchCount(key, GroupBy(rows, exprs)) == MatchingRows(key, rows, exprs)
  {
    if rows != [] {
      GroupByRight(key, rows[..|rows| - 1], exprs);
      MatchCountInsert(key, GroupBy(rows[..|rows| - 1], exprs), KeyOf(rows[|rows| - 1], exprs));
    }
  }

  /**
   * The sum of `count_l * count_r` over joining key groups is the number of
   * (l, r) row pairs with equal, non-NULL keys.
   */
  lemma {:induction false} GroupCountProducts(left: seq<Row>, leftExprs: seq<string>, right: seq<Row>, rightExprs: seq<string>)
    ensures JoinTotal(GroupBy(left, leftExprs), GroupBy(right, rightExprs)) == EqualKeyPairs(left, leftExprs, right, rightExprs)
  {
    if left != [] {
      var init := left[..|left| - 1];
      var x := KeyOf(left[|left| - 1], leftExprs);
      GroupCountProducts(init, leftExprs, right, rightExprs);
      JoinTotalInsert(GroupBy(init, leftExprs), x, GroupBy(right, rightExprs));
      GroupByRight(x, right, rightExprs);
    }
  }

  /** With no keys every pair joins: the count is the product of the table sizes. */
  lemma {:induction false} EqualKeyPairsNoKeys(left: seq<Row>, right: seq<Row>)
    ensures EqualKeyPairs(left, [], right, []) == |left| * |right|
  {
    if left != [] {
      EqualKeyPairsNoKeys(left[..|left| - 1], right);
      MatchingRowsNoKeys(right);
      assert |left| * |right| == (|left| - 1) * |right| + |right|;
    }
  }

  lemma {:induction false} MatchingRowsNoKeys(rows: seq<Row>)
    ensures MatchingRows([], rows, []) == |rows|
  {
    if rows != [] {
      MatchingRowsNoKeys(rows[..|rows| - 1]);
      assert KeysJoin([], KeyOf(rows[|rows| - 1], []));
    }
  }

  /** Summing positive entries gives zero exactly for the empty list. */
  lemma {:induction false} SumPositive(s: seq<nat>)
    requires forall x :: x in s ==> x >= 1
    ensures Sum(s) == 0 <==> s == []
  {
    if s != [] {
      assert s[0] in s;
    }
  }

  // ---------------------------------------------------------------------------
  // Pre-filter comparison count of one rule: the generated stages

  const ConcatTable := "__splink__df_concat"
  const LeftCountsTable := "__splink__count_comparisons_from_blocking_l"
  const RightCountsTable := "__splink__count_comparisons_from_blocking_r"
  const BlockCountsTable := "__splink__block_counts"
  const TotalTable := "__splink__total_of_block_counts"

  /** The stages write four different tables. */
  lemma StageTablesDistinct()
    ensures LeftCountsTable != RightCountsTable
    ensures |LeftCountsTable| == |RightCountsTable| == 43 && |BlockCountsTable| == 22 && |TotalTable| == 31
  {
    assert LeftCountsTable[42] != RightCountsTable[42];
  }

  /** `<expr> as key_<alias>` in a select list. */
  datatype KeySelect = KeySelect(expr: string, alias: nat)

  /** The SQL of one stage, by its shape. */
  datatype Query =
    | ProductOfTableSizes(left: string, right: string)
      // (SELECT COUNT(*) FROM left) * (SELECT COUNT(*) FROM right)
    | SquareOfTableSize(table: string)
      // select count(*) * count(*) from table
    | GroupCount(table: string, selects: seq<KeySelect>, groupBy: seq<string>, countColumn: string)
      // select <selects>, count(*) as countColumn from table group by <groupBy>
    | JoinBlockCounts(left: string, right: string, using: seq<nat>)
      // count_l * count_r as block_count from left inner join right using (key_i, ...)
    | SumBlockCounts(table: string)
      // select sum(block_count) from table

  /** One `{"sql": ..., "output_table_name": ...}` entry. */
  datatype Stage = Stage(query: Query, outputTableName: string)

  /** What a table holds when the stages run. */
  datatype Table =
    | Rows(rows: seq<Row>)
    | Groups(aliases: seq<nat>, groups: seq<Group>)
    | BlockCounts(blockCounts: seq<nat>)
    | Scalar(value: Option<nat>)

  function Aliases(selects: seq<KeySelect>): (r: seq<nat>)
    ensures |r| == |selects| && forall i :: 0 <= i < |selects| ==> r[i] == selects[i].alias
  {
    seq(|selects|, i requires 0 <= i < |selects| => selects[i].alias)
  }

  /**
   * The result of one query over the tables so far; `None` when a table it reads is
   * absent or not of the kind it needs. A join `using` the key aliases is modelled when
   * both sides carry exactly those aliases in that order, as the generated stages do.
   * `sum` over no rows is NULL.
   */
  function Evaluate(q: Query, env: map<string, Table>): Option<Table>
  {
    match q
    case ProductOfTableSizes(l, r) =>
      if l in env && r in env && env[l].Rows? && env[r].Rows?
      then Some(Scalar(Some(|env[l].rows| * |env[r].rows|))) else None
    case SquareOfTableSize(t) =>
      if t in env && env[t].Rows? then Some(Scalar(Some(|env[t].rows| * |env[t].rows|))) else None
    case GroupCount(t, selects, groupBy, _) =>
      if t in env && env[t].Rows? && |selects| == |groupBy|
      then Some(Groups(Aliases(selects), GroupBy(env[t].rows, groupBy))) else None
    case JoinBlockCounts(l, r, using) =>
      if l in env && r in env && env[l].Groups? && env[r].Groups? && env[l].aliases == using && env[r].aliases == using
      then Some(BlockCounts(JoinProducts(env[l].groups, env[r].groups))) else None
    case SumBlockCounts(t) =>
      if t in env && env[t].BlockCounts?
      then Some(Scalar(SqlSum(env[t].blockCounts))) else None
  }

  /** SQL `sum`: NULL over no rows. */
  function SqlSum(xs: seq<nat>): Option<nat>
  {
    if xs == [] then None else Some(Sum(xs))
  }

  /** Run the stages in order, each writing its output table. */
  function Run(stages: seq<Stage>, env: map<string, Table>): Option<map<string, Table>>
  {
    if stages == [] then Some(env)
    else match Evaluate(stages[0].query, env)
      case None => None
      case Some(t) => Run(stages[1..], env[stages[0].outputTableName := t])
  }

  /** `count_of_pairwise_comparisons_generated` of the final table, when the run succeeds. */
  function TotalOf(result: Option<map<string, Table>>): Option<Option<nat>>
  {
    if result.Some? && TotalTable in result.value && result.value[TotalTable].Scalar?
    then Some(result.value[TotalTable].value) else None
  }

  /** `[f"{key} as key_{i}" for i, key in enumerate(keys)]`. */
  function KeySelects(exprs: seq<string>): (r: seq<KeySelect>)
    ensures |r| == |exprs| && forall i :: 0 <= i < |r| ==> r[i] == KeySelect(exprs[i], i)
  {
    seq(|exprs|, i requires 0 <= i < |exprs| => KeySelect(exprs[i], i))
  }

  function Indices(n: nat): (r: seq<nat>)
    ensures |r| == n && forall i :: 0 <= i < n ==> r[i] == i
  {
    seq(n, i requires 0 <= i < n => i)
  }

  /** The tables the counting reads: the two input tables, or the concatenation twice. */
  function InputTables(twoDatasetLinkOnly: bool, inputTableNames: seq<string>): (string, string)
    requires twoDatasetLinkOnly ==> |inputTableNames| >= 2
  {
    if twoDatasetLinkOnly then (inputTableNames[0], inputTableNames[1]) else (ConcatTable, ConcatTable)
  }

  /**
   * The input tables are loaded as rows, and the right one does not share its name with
   * the left counts the first stage writes.
   */
  predicate InputsPresent(twoDatasetLinkOnly: bool, inputTableNames: seq<string>, env: map<string, Table>)
  {
    && (twoDatasetLinkOnly ==> |inputTableNames| >= 2)
    && var (l, r) := InputTables(twoDatasetLinkOnly, inputTableNames);
      l in env && r in env && env[l].Rows? && env[r].Rows? && r != LeftCountsTable
  }

  /**
   * The stages for one rule: a single total stage when the rule has no equi-join
   * conditions, else the left and right group counts, their join, and the sum.
   */
  function PreFilterStages(joinConditions: seq<(string, string)>, twoDatasetLinkOnly: bool, inputTableNames: seq<string>)
    : (stages: seq<Stage>)
    requires twoDatasetLinkOnly ==> |inputTableNames| >= 2
    ensures |stages| == if joinConditions == [] then 1 else 4
    ensures stages[|stages| - 1].outputTableName == TotalTable
    ensures joinConditions != [] ==>
      && stages[0].outputTableName == LeftCountsTable
      && stages[1].outputTableName == RightCountsTable
      && stages[2].outputTableName == BlockCountsTable
  {
    var (l, r) := InputTables(twoDatasetLinkOnly, inputTableNames);
    if joinConditions == [] then
      [Stage(if twoDatasetLinkOnly then ProductOfTableSizes(l, r) else SquareOfTableSize(ConcatTable), TotalTable)]
    else KeyedStages(l, r, Firsts(joinConditions), Seconds(joinConditions))
  }

  /** The four stages over left key expressions and right key expressions of the same length. */
  function KeyedStages(l: string, r: string, left: seq<string>, right: seq<string>): seq<Stage>
  {
    [ Stage(GroupCount(l, KeySelects(left), left, "count_l"), LeftCountsTable),
      Stage(GroupCount(r, KeySelects(right), right, "count_r"), RightCountsTable),
      Stage(JoinBlockCounts(LeftCountsTable, RightCountsTable, Indices(|left|)), BlockCountsTable),
      Stage(SumBlockCounts(BlockCountsTable), TotalTable) ]
  }

  /**
   * `count_comparisons_from_blocking_rule_pre_filter_conditions_sqls`: one loop over
   * the rule's equi-join conditions builds the aliased select lists, the group-by
   * lists and the `using` list, then the stages are appended.
   */
  method CountComparisonsFromBlockingRulePreFilterConditionsSqls(
    joinConditions: seq<(string, string)>, twoDatasetLinkOnly: bool, inputTableNames: seq<string>)
    returns (sqls: seq<Stage>)
    requires twoDatasetLinkOnly ==> |inputTableNames| >= 2
    ensures sqls == PreFilterStages(joinConditions, twoDatasetLinkOnly, inputTableNames)
  {
    var lColsSel: seq<KeySelect> := [];
    var rColsSel: seq<KeySelect> := [];
    var lColsGb: seq<string> := [];
    var rColsGb: seq<string> := [];
    var using: seq<nat> := [];
    for i := 0 to |joinConditions|
      invariant lColsGb == Firsts(joinConditions[..i]) && rColsGb == Seconds(joinConditions[..i])
      invariant lColsSel == KeySelects(lColsGb) && rColsSel == KeySelects(rColsGb)
      invariant using == Indices(i)
    {
      var (lKey, rKey) := joinConditions[i];
      lColsSel := lColsSel + [KeySelect(lKey, i)];
      rColsSel := rColsSel + [KeySelect(rKey, i)];
      lColsGb := lColsGb + [lKey];
      rColsGb := rColsGb + [rKey];
      using := using + [i];
    }
    assert joinConditions[..|joinConditions|] == joinConditions;
    var inputL, inputR := ConcatTable, ConcatTable;
    if twoDatasetLinkOnly {
      inputL, inputR := inputTableNames[0], inputTableNames[1];
    }
    sqls := [];
    if joinConditions == [] {
      var query := if twoDatasetLinkOnly then ProductOfTableSizes(inputL, inputR) else SquareOfTableSize(ConcatTable);
      sqls := sqls + [Stage(query, TotalTable)];
      return;
    }
    sqls := sqls + [Stage(GroupCount(inputL, lColsSel, lColsGb, "count_l"), LeftCountsTable)];
    sqls := sqls + [Stage(GroupCount(inputR, rColsSel, rColsGb, "count_r"), RightCountsTable)];
    sqls := sqls + [Stage(JoinBlockCounts(LeftCountsTable, RightCountsTable, using), BlockCountsTable)];
    sqls := sqls + [Stage(SumBlockCounts(BlockCountsTable), TotalTable)];
  }

  /** Running the four stages of a rule with equi-join conditions: the block counts, then their sum. */
  lemma KeyedStagesRun(l: string, r: string, left: seq<string>, right: seq<string>, env: map<string, Table>)
    requires |left| == |right|
    requires l in env && r in env && env[l].Rows? && env[r].Rows? && r != LeftCountsTable
    ensures TotalOf(Run(KeyedStages(l, r, left, right), env))
      == Some(SqlSum(JoinProducts(GroupBy(env[l].rows, left), GroupBy(env[r].rows, right))))
  {
    var stages := KeyedStages(l, r, left, right);
    var k := |left|;
    StageTablesDistinct();
    assert Aliases(KeySelects(left)) == Indices(k);
    assert Aliases(KeySelects(right)) == Indices(k);
    var gl, gr := GroupBy(env[l].rows, left), GroupBy(env[r].rows, right);
    var blocks := JoinProducts(gl, gr);
    var env1 := env[LeftCountsTable := Groups(Indices(k), gl)];
    var env2 := env1[RightCountsTable := Groups(Indices(k), gr)];
    var env3 := env2[BlockCountsTable := BlockCounts(blocks)];
    var env4 := env3[TotalTable := Scalar(SqlSum(blocks))];
    RunStep(stages, env, Groups(Indices(k), gl));
    assert env1[r] == env[r];
    RunStep(stages[1..], env1, Groups(Indices(k), gr));
    assert env2[LeftCountsTable] == Groups(Indices(k), gl);
    RunStep(stages[2..], env2, BlockCounts(blocks));
    RunStep(stages[3..], env3, Scalar(SqlSum(blocks)));
    assert stages[4..] == [];
  }

  lemma RunStep(stages: seq<Stage>, env: map<string, Table>, t: Table)
    requires stages != [] && Evaluate(stages[0].query, env) == Some(t)
    ensures Run(stages, env) == Run(stages[1..], env[stages[0].outputTableName := t])
  {
  }

  /**
   * What the stages compute, for any input tables: with no equi-join conditions the
   * product of the two table sizes (for the concatenation, its size squared: self-pairs
   * and both orders included); otherwise the sum of `count_l * count_r`, which is the
   * number of (l, r) row pairs whose key tuples are equal and free of NULLs, or NULL
   * when there is no such pair.
   */
  lemma PreFilterStagesCount(
    joinConditions: seq<(string, string)>, twoDatasetLinkOnly: bool, inputTableNames: seq<string>, env: map<string, Table>)
    requires InputsPresent(twoDatasetLinkOnly, inputTableNames, env)
    ensures var (l, r) := InputTables(twoDatasetLinkOnly, inputTableNames);
      var pairs := EqualKeyPairs(env[l].rows, Firsts(joinConditions), env[r].rows, Seconds(joinConditions));
      TotalOf(Run(PreFilterStages(joinConditions, twoDatasetLinkOnly, inputTableNames), env))
      == Some(if joinConditions != [] && pairs == 0 then None else Some(pairs))
    ensures var (l, r) := InputTables(twoDatasetLinkOnly, inputTableNames);
      joinConditions == [] ==>
        TotalOf(Run(PreFilterStages(joinConditions, twoDatasetLinkOnly, inputTableNames), env))
        == Some(Some(|env[l].rows| * |env[r].rows|))
  {
    var (l, r) := InputTables(twoDatasetLinkOnly, inputTableNames);
    var stages := PreFilterStages(joinConditions, twoDatasetLinkOnly, inputTableNames);
    var L, R := env[l].rows, env[r].rows;
    var left, right := Firsts(joinConditions), Seconds(joinConditions);
    if joinConditions == [] {
      assert left == [] && right == [];
      EqualKeyPairsNoKeys(L, R);
      var env1 := env[TotalTable := Scalar(Some(|L| * |R|))];
      assert Run(stages[1..], env1) == Some(env1);
    } else {
      var gl, gr := GroupBy(L, left), GroupBy(R, right);
      var blocks := JoinProducts(gl, gr);
      KeyedStagesRun(l, r, left, right, env);
      SumJoinProducts(gl, gr);
      GroupCountProducts(L, left, R, right);
      JoinProductsPositive(gl, gr);
      SumPositive(blocks);
    }
  }

  // ---------------------------------------------------------------------------
  // Reading the count back

  const IntOfNoneMessage := "int() argument must be a string, a bytes-like object or a real number, not 'NoneType'"

  /** The rule's key expressions on both sides, and the rows they are read from. */
  function KeyedPairs(joinConditions: seq<(string, string)>, twoDatasetLinkOnly: bool, inputTableNames: seq<string>, env: map<string, Table>): nat
    requires InputsPresent(twoDatasetLinkOnly, inputTableNames, env)
  {
    var (l, r) := InputTables(twoDatasetLinkOnly, inputTableNames);
    EqualKeyPairs(env[l].rows, Firsts(joinConditions), env[r].rows, Seconds(joinConditions))
  }

  /**
   * `count_comparisons_from_blocking_rule_pre_filter_conditions` as written: the total
   * is passed to `int`, which raises TypeError when the sum is NULL, that is when the
   * rule has equi-join conditions and no pair of rows has equal, non-NULL keys.
   */
  function PreFilterCountAsWritten(
    joinConditions: seq<(string, string)>, twoDatasetLinkOnly: bool, inputTableNames: seq<string>, env: map<string, Table>)
    : (r: Result<nat>)
    requires InputsPresent(twoDatasetLinkOnly, inputTableNames, env)
    ensures var pairs := KeyedPairs(joinConditions, twoDatasetLinkOnly, inputTableNames, env);
      r == if joinConditions != [] && pairs == 0 then Failure(TypeError(IntOfNoneMessage)) else Success(pairs)
  {
    PreFilterStagesCount(joinConditions, twoDatasetLinkOnly, inputTableNames, env);
    var total := TotalOf(Run(PreFilterStages(joinConditions, twoDatasetLinkOnly, inputTableNames), env)).value;
    if total.None? then Failure(TypeError(IntOfNoneMessage)) else Success(total.value)
  }

  /**
   * The count read back with a NULL total taken as 0 (`coalesce(sum(block_count), 0)`):
   * always the number of row pairs the rule's equi-join conditions generate, and with
   * no conditions the product of the table sizes.
   */
  function PreFilterCount(
    joinConditions: seq<(string, string)>, twoDatasetLinkOnly: bool, inputTableNames: seq<string>, env: map<string, Table>)
    : (r: nat)
    requires InputsPresent(twoDatasetLinkOnly, inputTableNames, env)
    ensures r == KeyedPairs(joinConditions, twoDatasetLinkOnly, inputTableNames, env)
    ensures var (l, right) := InputTables(twoDatasetLinkOnly, inputTableNames);
      joinConditions == [] ==> r == |env[l].rows| * |env[right].rows|
  {
    PreFilterStagesCount(joinConditions, twoDatasetLinkOnly, inputTableNames, env);
    var total := TotalOf(Run(PreFilterStages(joinConditions, twoDatasetLinkOnly, inputTableNames), env)).value;
    if total.None? then 0 else total.value
  }

  /**
   * A concatenated input whose only record has no value in the key column: no pair
   * qualifies, the sum is NULL and the as-written count raises TypeError where the
   * corrected count is 0.
   */
  lemma AllNullKeysRaiseTypeError()
    ensures var env := map[ConcatTable := Rows([map[]])];
      var conditions := [("first_name", "first_name")];
      && PreFilterCountAsWritten(conditions, false, [], env) == Failure(TypeError(IntOfNoneMessage))
      && PreFilterCount(conditions, false, [], env) == 0
  {
    var env := map[ConcatTable := Rows([map[]])];
    var conditions := [("first_name", "first_name")];
    var rows: seq<Row> := [map[]];
    assert Firsts(conditions) == ["first_name"] && Seconds(conditions) == ["first_name"];
    var noKey: KeyTuple := [None];
    assert KeyOf(map[], ["first_name"]) == noKey;
    assert rows[..0] == [];
    assert !noKey[0].Some?;
    assert MatchingRows(noKey, rows, ["first_name"]) == 0;
    assert EqualKeyPairs(rows, ["first_name"], rows, ["first_name"]) == 0;
  }

  // ---------------------------------------------------------------------------
  // Post-filter count SQL

  const PostFiltersHead := "\n    select count(*) as count_of_pairwise_comparisons_generated\n\n    from __splink__df_concat as l\n    inner join __splink__df_concat as r\n    on\n    "
  const LineBreak := "\n    "

  /**
   * `number_of_comparisons_generated_by_blocking_rule_post_filters_sql`: the count of
   * the self-join of the concatenated input on the rule, followed by the where
   * condition for the link type (built by code that is not part of this model).
   */
  function NumberOfComparisonsGeneratedByBlockingRulePostFiltersSql(blockingRule: string, whereCondition: string): (sql: string)
    ensures |sql| == |PostFiltersHead| + |blockingRule| + |whereCondition| + 2 * |LineBreak|
    ensures sql[..|PostFiltersHead|] == PostFiltersHead
    ensures OccursAt(blockingRule, sql, |PostFiltersHead|)
    ensures OccursAt(whereCondition, sql, |PostFiltersHead| + |blockingRule| + |LineBreak|)
  {
    var sql := PostFiltersHead + blockingRule + LineBreak + whereCondition + LineBreak;
    assert sql[|PostFiltersHead|..|PostFiltersHead| + |blockingRule|] == blockingRule;
    assert sql[|PostFiltersHead| + |blockingRule| + |LineBreak|..|sql| - |LineBreak|] == whereCondition;
    sql
  }

  /** Different rules give different SQL under the same where condition. */
  lemma PostFiltersSqlInjective(rule1: string, rule2: string, whereCondition: string)
    requires NumberOfComparisonsGeneratedByBlockingRulePostFiltersSql(rule1, whereCondition)
      == NumberOfComparisonsGeneratedByBlockingRulePostFiltersSql(rule2, whereCondition)
    ensures rule1 == rule2
  {
    var sql := NumberOfComparisonsGeneratedByBlockingRulePostFiltersSql(rule1, whereCondition);
    assert rule1 == sql[|PostFiltersHead|..|PostFiltersHead| + |rule1|];
  }
}
