/**
 * Estimating u probabilities from random record pairs: how large a sample is drawn
 * in each link type, which blocking rule joins the samples, every sampled pair
 * treated as a non-match, and the u values appended to the original model.
 */
module EstimateU {
  import opened Outcomes
  import opened LinkageModel

  // ---------------------------------------------------------------------------
  // Sample sizes

  /**
   * `_num_target_rows_to_rows_to_sample`: `0.5 * (sqrt(8t + 1) + 1)`, with the square
   * root passed in as `root`.
   */
  function RowsToSample(root: real): real
  {
    0.5 * (root + 1.0)
  }

  /** n input rows give n(n - 1)/2 pairs, and `RowsToSample` inverts that count. */
  lemma RowsToSampleInverts(targetRows: real, root: real)
    requires root >= 0.0 && root * root == 8.0 * targetRows + 1.0
    ensures var n := RowsToSample(root); n * (n - 1.0) / 2.0 == targetRows
    ensures targetRows >= 0.0 ==> RowsToSample(root) >= 1.0
  {
    var n := RowsToSample(root);
    assert n - 1.0 == 0.5 * (root - 1.0);
    assert n * (n - 1.0) == 0.25 * (root + 1.0) * (root - 1.0);
    assert (root + 1.0) * (root - 1.0) == root * root - 1.0;
    RootAtLeastOne(root);
  }

  lemma RootAtLeastOne(x: real)
    requires x >= 0.0
    ensures x * x >= 1.0 ==> x >= 1.0
  {
    if x < 1.0 {
      assert x * x <= x * 1.0;
    }
  }

  /**
   * The two arguments of `log10` in `_num_target_rows_to_pairs_to_sample`,
   * `1 - t/N` and `1 - 1/N`, in the order Python evaluates them: N = 0 divides by
   * zero, and a non-positive argument is a math domain error. The logarithms and
   * the ceiling themselves are not part of this model.
   */
  function PairsToSampleArguments(totalRows: nat, targetRows: real): (r: Result<(real, real)>)
    ensures r.Success? <==> totalRows >= 2 && targetRows < totalRows as real
    ensures totalRows == 0 ==> r == Failure(ZeroDivisionError)
    ensures r.Success? ==> r.value.0 > 0.0 && r.value.1 > 0.0
    ensures r.Success? ==> r.value.0 * totalRows as real == totalRows as real - targetRows
  {
    if totalRows == 0 then Failure(ZeroDivisionError)
    else
      var n := totalRows as real;
      var first := 1.0 - targetRows / n;
      ScaledByCount(n, targetRows);
      ScaledByCount(n, 1.0);
      if first <= 0.0 then Failure(MathDomainError)
      else if 1.0 - 1.0 / n <= 0.0 then Failure(MathDomainError)
      else Success((first, 1.0 - 1.0 / n))
  }

  /** `1 - t/N` scaled back by N is `N - t`, so it is positive exactly when t < N. */
  lemma ScaledByCount(n: real, t: real)
    requires n > 0.0
    ensures (1.0 - t / n) * n == n - t
    ensures 1.0 - t / n > 0.0 <==> t < n
  {
    assert t / n * n == t;
    if 1.0 - t / n > 0.0 {
      assert (1.0 - t / n) * n > 0.0;
    }
  }

  /** How the rows for u estimation are drawn. */
  datatype SamplingPlan =
    /** dedupe_only and link_and_dedupe: a random sample of the concatenated table. */
    | DedupeSample(sampleSize: real, proportion: real)
    /** link_only with a target at least the number of pairs: the full left and right tables. */
    | LinkOnlyFull
    /** link_only otherwise: random row pairs of the left and right tables, joined on sample_id. */
    | LinkOnlyPairs(totalRows: nat)

  function Min(a: real, b: real): real
  {
    if a <= b then a else b
  }

  /**
   * The mode decision of `estimate_u_values`. `countRows` is the row count of the
   * concatenated table, `countL` and `countR` those of the left and right tables;
   * `root` is the square root of 8t + 1 whenever that is not negative (a negative
   * radicand gives Python a complex number, which the comparison then rejects).
   */
  function SamplingDecision(linkType: LinkType, targetRows: real, root: real, countRows: nat, countL: nat, countR: nat)
    : (r: Result<SamplingPlan>)
    requires 8.0 * targetRows + 1.0 >= 0.0 ==> root >= 0.0 && root * root == 8.0 * targetRows + 1.0
    ensures linkType != LinkOnly && countRows == 0 ==> r == Failure(ZeroDivisionError)
    ensures linkType != LinkOnly ==> (r.Success? <==> countRows > 0 && 8.0 * targetRows + 1.0 >= 0.0)
    ensures linkType != LinkOnly && countRows > 0 && 8.0 * targetRows + 1.0 < 0.0 ==>
      r.Failure? && r.error.TypeError?
    ensures r.Success? && linkType != LinkOnly ==>
      && r.value.DedupeSample?
      && r.value.sampleSize == Min(RowsToSample(root), countRows as real)
      && r.value.proportion == Min(RowsToSample(root) / countRows as real, 1.0)
    ensures linkType == LinkOnly ==>
      (r == Success(LinkOnlyFull) <==> targetRows >= (countL * countR) as real)
    ensures linkType == LinkOnly && targetRows < (countL * countR) as real ==>
      (r.Success? <==> PairsToSampleArguments(countL * countR, targetRows).Success?)
    ensures r.Success? && r.value.LinkOnlyPairs? ==>
      linkType == LinkOnly && r.value.totalRows == countL * countR && targetRows < r.value.totalRows as real
  {
    if linkType != LinkOnly then
      if countRows == 0 then Failure(ZeroDivisionError)
      else if 8.0 * targetRows + 1.0 < 0.0 then Failure(TypeError("'>' not supported between instances of 'complex' and 'int'"))
      else
        var sampleSize := RowsToSample(root);
        var proportion := sampleSize / countRows as real;
        Success(DedupeSample(if sampleSize > countRows as real then countRows as real else sampleSize,
                             if proportion >= 1.0 then 1.0 else proportion))
    else
      var totalRows := countL * countR;
      if targetRows >= totalRows as real then Success(LinkOnlyFull)
      else
        var _ :- PairsToSampleArguments(totalRows, targetRows);
        Success(LinkOnlyPairs(totalRows))
  }

  /**
   * The two caps agree: the sample size is capped at the table size exactly when the
   * sampling proportion is capped at 1, and neither exceeds its cap.
   */
  lemma SampleCapsAgree(linkType: LinkType, targetRows: real, root: real, countRows: nat, countL: nat, countR: nat)
    requires 8.0 * targetRows + 1.0 >= 0.0 ==> root >= 0.0 && root * root == 8.0 * targetRows + 1.0
    requires linkType != LinkOnly && SamplingDecision(linkType, targetRows, root, countRows, countL, countR).Success?
    ensures var plan := SamplingDecision(linkType, targetRows, root, countRows, countL, countR).value;
      && plan.sampleSize <= countRows as real && plan.proportion <= 1.0
      && (plan.sampleSize == countRows as real <==> plan.proportion == 1.0)
  {
    var c := countRows as real;
    var s := RowsToSample(root);
    assert c > 0.0;
    if s >= c {
      assert s / c >= 1.0 by {
        assert (s / c) * c == s;
      }
    } else {
      assert s / c < 1.0 by {
        assert (s / c) * c == s;
      }
    }
  }

  // ---------------------------------------------------------------------------
  // Blocking, scoring and the records used

  const SampleBlockingRule := "l.sample_id = r.sample_id"
  const LambdaRowName := "_probability_two_random_records_match"
  const UDescription := "estimate u by random sampling"

  /** The prediction blocking rules of the training copy: join on sample_id only when pairs were sampled. */
  function BlockingRulesFor(linkType: LinkType, sampleTablesOnLinkOnly: bool): (rules: seq<string>)
    ensures rules == [SampleBlockingRule] <==> linkType == LinkOnly && sampleTablesOnLinkOnly
    ensures rules != [SampleBlockingRule] ==> rules == []
  {
    if linkType == LinkOnly && sampleTablesOnLinkOnly then [SampleBlockingRule] else []
  }

  /** A comparison vector with the match probability the prediction stage gives it. */
  datatype ScoredPair<T> = ScoredPair(vector: T, matchProbability: real)

  /** `select *, cast(0.0 as double) as match_probability from __splink__df_comparison_vectors`. */
  function Predict<T>(vectors: seq<T>): (r: seq<ScoredPair<T>>)
  {
    if vectors == [] then [] else [ScoredPair(vectors[0], 0.0)] + Predict(vectors[1..])
  }

  /** The expected number of matches among the pairs: the sum of their match probabilities. */
  function MatchWeight<T>(pairs: seq<ScoredPair<T>>): real
  {
    if pairs == [] then 0.0 else pairs[0].matchProbability + MatchWeight(pairs[1..])
  }

  /** The expected number of non-matches: the sum of one minus their match probabilities. */
  function NonMatchWeight<T>(pairs: seq<ScoredPair<T>>): real
  {
    if pairs == [] then 0.0 else (1.0 - pairs[0].matchProbability) + NonMatchWeight(pairs[1..])
  }

  /**
   * Every sampled pair is treated as a non-match: the scored pairs keep their vectors,
   * carry no match weight, and each counts fully towards the non-matches.
   */
  lemma {:induction false} PredictTreatsAllAsNonMatches<T>(vectors: seq<T>)
    ensures |Predict(vectors)| == |vectors|
    ensures forall i :: 0 <= i < |vectors| ==> Predict(vectors)[i].vector == vectors[i]
    ensures MatchWeight(Predict(vectors)) == 0.0
    ensures NonMatchWeight(Predict(vectors)) == |vectors| as real
  {
    if vectors != [] {
      PredictTreatsAllAsNonMatches(vectors[1..]);
    }
  }

  /** A row of the parameter estimates the u-count pipeline returns. */
  datatype ParamRecord = ParamRecord(
    outputColumnName: string, comparisonVectorValue: int, mProbability: real, uProbability: real)

  /** The records other than the aggregate λ row, in order. */
  function MURecords(records: seq<ParamRecord>): seq<ParamRecord>
  {
    if records == [] then []
    else
      var last := records[|records| - 1];
      MURecords(records[..|records| - 1]) + Kept(last)
  }

  /** The records kept from a single record. */
  function Kept(rec: ParamRecord): seq<ParamRecord>
  {
    if rec.outputColumnName != LambdaRowName then [rec] else []
  }

  lemma MURecordsSnoc(records: seq<ParamRecord>, rec: ParamRecord)
    ensures MURecords(records + [rec]) == MURecords(records) + Kept(rec)
  {
    assert (records + [rec])[..|records|] == records;
  }

  /** A record is kept exactly when it is not the λ row. */
  lemma {:induction false} MURecordsMembers(records: seq<ParamRecord>)
    ensures forall rec :: rec in MURecords(records) <==> rec in records && rec.outputColumnName != LambdaRowName
  {
    if records != [] {
      var init, last := records[..|records| - 1], records[|records| - 1];
      assert records == init + [last];
      MURecordsMembers(init);
    }
  }

  /** Dropping the λ row keeps the order: filtering a concatenation filters each part in turn. */
  lemma {:induction false} MURecordsAppend(a: seq<ParamRecord>, b: seq<ParamRecord>)
    ensures MURecords(a + b) == MURecords(a) + MURecords(b)
  {
    if b == [] {
      assert a + b == a;
    } else {
      var init, last := b[..|b| - 1], b[|b| - 1];
      assert b == init + [last];
      assert a + b == (a + init) + [last];
      MURecordsAppend(a, init);
      MURecordsSnoc(a + init, last);
      MURecordsSnoc(init, last);
    }
  }

  predicate Describes(rec: ParamRecord, name: string, v: int)
  {
    rec.outputColumnName == name && rec.comparisonVectorValue == v
  }

  /**
   * The u probability recorded for a comparison level: the last record for that
   * output column and comparison vector value wins, and a level with no record is
   * "not observed".
   */
  function ULookup(records: seq<ParamRecord>, name: string, v: int): (p: Prob)
    ensures p == NotObserved <==> forall i :: 0 <= i < |records| ==> !Describes(records[i], name, v)
    ensures p.Value? ==> exists i :: (0 <= i < |records| && Describes(records[i], name, v) && records[i].uProbability == p.p
      && forall j :: i < j < |records| ==> !Describes(records[j], name, v))
    ensures p != Unset
  {
    if records == [] then NotObserved
    else
      var last := records[|records| - 1];
      if Describes(last, name, v) then Value(last.uProbability)
      else
        var init := records[..|records| - 1];
        var p := ULookup(init, name, v);
        assert forall i :: 0 <= i < |init| ==> init[i] == records[i];
        assert p.Value? ==> exists i :: (0 <= i < |init| && Describes(init[i], name, v) && init[i].uProbability == p.p
          && forall j :: i < j < |init| ==> !Describes(init[j], name, v));
        p
  }

  /** Looking up after one more record: that record wins when it describes the level. */
  lemma ULookupSnoc(records: seq<ParamRecord>, rec: ParamRecord, name: string, v: int)
    ensures ULookup(records + [rec], name, v) == if Describes(rec, name, v) then Value(rec.uProbability) else ULookup(records, name, v)
  {
    assert (records + [rec])[..|records|] == records;
  }

  /**
   * Dropping the λ row changes no comparison's lookup, and the λ row itself is never
   * looked up.
   */
  lemma {:induction false} MURecordsLookup(records: seq<ParamRecord>, name: string, v: int)
    ensures name != LambdaRowName ==> ULookup(MURecords(records), name, v) == ULookup(records, name, v)
    ensures ULookup(MURecords(records), LambdaRowName, v) == NotObserved
  {
    if records != [] {
      var init, last := records[..|records| - 1], records[|records| - 1];
      assert records == init + [last];
      MURecordsLookup(init, name, v);
      MURecordsSnoc(init, last);
      ULookupSnoc(init, last, name, v);
      ULookupSnoc(init, last, LambdaRowName, v);
      if last.outputColumnName != LambdaRowName {
        ULookupSnoc(MURecords(init), last, name, v);
        ULookupSnoc(MURecords(init), last, LambdaRowName, v);
      } else {
        assert MURecords(records) == MURecords(init);
      }
    }
  }

  /** A level after the append: non-null levels gain one u entry with the looked-up value. */
  function WithULevel(name: string, level: ComparisonLevel, records: seq<ParamRecord>): ComparisonLevel
  {
    if level.isNullLevel then level
    else level.(trainedU := level.trainedU + [TrainedProbability(ULookup(records, name, level.comparisonVectorValue), UDescription)])
  }

  function WithUComparison(c: Comparison, records: seq<ParamRecord>): Comparison
  {
    c.(levels := seq(|c.levels|, k requires 0 <= k < |c.levels| => WithULevel(c.outputColumnName, c.levels[k], records)))
  }

  /**
   * The original comparisons after the u estimates are appended: same comparisons and
   * levels in the same order; each non-null level has exactly one new trained-u entry,
   * tagged "estimate u by random sampling", holding its recorded u or "not observed";
   * null levels and everything else are unchanged.
   */
  function WithUEstimates(cs: seq<Comparison>, records: seq<ParamRecord>): (r: seq<Comparison>)
    ensures |r| == |cs|
    ensures forall j :: 0 <= j < |cs| ==>
      && r[j].outputColumnName == cs[j].outputColumnName && r[j].inputColumns == cs[j].inputColumns
      && |r[j].levels| == |cs[j].levels|
      && forall k :: 0 <= k < |cs[j].levels| ==>
        var (before, after) := (cs[j].levels[k], r[j].levels[k]);
        && after.(trainedU := before.trainedU) == before
        && (before.isNullLevel ==> after == before)
        && (!before.isNullLevel ==>
              after.trainedU == before.trainedU +
                [TrainedProbability(ULookup(records, cs[j].outputColumnName, before.comparisonVectorValue), UDescription)])
  {
    seq(|cs|, j requires 0 <= j < |cs| => WithUComparison(cs[j], records))
  }

  /**
   * The final loop of `estimate_u_values`: for each original comparison, each of its
   * non-null levels gets its u estimate appended, in place.
   */
  method AppendUProbabilities(settingsObj: SettingsObject, records: seq<ParamRecord>)
    modifies settingsObj
    ensures settingsObj.comparisons == WithUEstimates(old(settingsObj.comparisons), records)
    ensures settingsObj.probabilityTwoRandomRecordsMatch == old(settingsObj.probabilityTwoRandomRecordsMatch)
    ensures settingsObj.linkType == old(settingsObj.linkType) && settingsObj.trainingMode == old(settingsObj.trainingMode)
    ensures settingsObj.retainMatchingColumns == old(settingsObj.retainMatchingColumns)
    ensures settingsObj.retainIntermediateCalculationColumns == old(settingsObj.retainIntermediateCalculationColumns)
    ensures settingsObj.blockingRulesToGeneratePredictions == old(settingsObj.blockingRulesToGeneratePredictions)
  {
    var cs := settingsObj.comparisons;
    for i := 0 to |cs|
      invariant |cs| == |old(settingsObj.comparisons)|
      invariant forall j :: 0 <= j < i ==> cs[j] == WithUComparison(old(settingsObj.comparisons)[j], records)
      invariant forall j :: i <= j < |cs| ==> cs[j] == old(settingsObj.comparisons)[j]
    {
      var c := cs[i];
      var levels := c.levels;
      for k := 0 to |levels|
        invariant |levels| == |c.levels|
        invariant forall m :: 0 <= m < k ==> levels[m] == WithULevel(c.outputColumnName, c.levels[m], records)
        invariant forall m :: k <= m < |levels| ==> levels[m] == c.levels[m]
      {
        var cl := levels[k];
        if !cl.isNullLevel {
          var u := ULookup(records, c.outputColumnName, cl.comparisonVectorValue);
          levels := levels[k := cl.(trainedU := cl.trainedU + [TrainedProbability(u, UDescription)])];
        }
      }
      assert levels == WithUComparison(c, records).levels;
      cs := cs[i := c.(levels := levels)];
    }
    assert cs == WithUEstimates(old(settingsObj.comparisons), records);
    settingsObj.comparisons := cs;
  }

  // ---------------------------------------------------------------------------
  // estimate_u_values

  /** The training copy `estimate_u_values` works on, before its blocking rules are chosen. */
  method NewTrainingLinker(linker: Linker) returns (training: Linker)
    ensures fresh(training) && fresh(training.settingsObj)
    ensures training.trainUUsingRandomSampleMode
    ensures !training.settingsObj.retainMatchingColumns && !training.settingsObj.retainIntermediateCalculationColumns
    ensures training.settingsObj.trainingMode
    ensures training.settingsObj.comparisons == WithoutTermFrequencies(linker.settingsObj.comparisons)
    ensures training.settingsObj.linkType == linker.settingsObj.linkType
  {
    training := new Linker.DeepCopy(linker);
    training.trainUUsingRandomSampleMode := true;
    var settingsObj := training.settingsObj;
    settingsObj.retainMatchingColumns := false;
    settingsObj.retainIntermediateCalculationColumns := false;
    settingsObj.trainingMode := true;
    settingsObj.comparisons := WithoutTermFrequencies(settingsObj.comparisons);
  }

  /**
   * `estimate_u_values`: work on a deep copy of the linker with term-frequency
   * adjustments cleared, the retain flags off and training mode on; decide the
   * sampling mode; block on sample_id exactly when link-only pairs were sampled; then
   * append the u values of `paramRecords` (what the u-count pipeline returns for the
   * sampled pairs, all scored as non-matches), less the λ row, to the original model.
   * The original linker's settings are written only by that final append.
   */
  method EstimateUValues(linker: Linker, targetRows: real, root: real, countRows: nat, countL: nat, countR: nat,
                         paramRecords: seq<ParamRecord>)
    returns (outcome: Outcome, training: Linker)
    requires 8.0 * targetRows + 1.0 >= 0.0 ==> root >= 0.0 && root * root == 8.0 * targetRows + 1.0
    modifies linker.settingsObj
    ensures fresh(training) && fresh(training.settingsObj)
    ensures training.trainUUsingRandomSampleMode
    ensures !training.settingsObj.retainMatchingColumns && !training.settingsObj.retainIntermediateCalculationColumns
    ensures training.settingsObj.trainingMode
    ensures training.settingsObj.comparisons == WithoutTermFrequencies(old(linker.settingsObj.comparisons))
    ensures training.settingsObj.linkType == linker.settingsObj.linkType
    ensures outcome.Pass? <==>
      SamplingDecision(linker.settingsObj.linkType, targetRows, root, countRows, countL, countR).Success?
    ensures outcome.Pass? ==>
      training.settingsObj.blockingRulesToGeneratePredictions ==
        (if linker.settingsObj.linkType == LinkOnly && targetRows < (countL * countR) as real then [SampleBlockingRule] else [])
    ensures outcome.Pass? ==> linker.settingsObj.comparisons == WithUEstimates(old(linker.settingsObj.comparisons), MURecords(paramRecords))
    ensures outcome.Fail? ==> linker.settingsObj.comparisons == old(linker.settingsObj.comparisons)
    ensures linker.settingsObj.linkType == old(linker.settingsObj.linkType)
    ensures linker.settingsObj.probabilityTwoRandomRecordsMatch == old(linker.settingsObj.probabilityTwoRandomRecordsMatch)
    ensures linker.settingsObj.blockingRulesToGeneratePredictions == old(linker.settingsObj.blockingRulesToGeneratePredictions)
    ensures linker.settingsObj.retainMatchingColumns == old(linker.settingsObj.retainMatchingColumns)
    ensures linker.settingsObj.retainIntermediateCalculationColumns == old(linker.settingsObj.retainIntermediateCalculationColumns)
    ensures linker.settingsObj.trainingMode == old(linker.settingsObj.trainingMode)
  {
    var originalSettingsObj := linker.settingsObj;
    training := NewTrainingLinker(linker);
    var sampleTablesOnLinkOnly := true;
    var settingsObj := training.settingsObj;

    var plan := SamplingDecision(settingsObj.linkType, targetRows, root, countRows, countL, countR);
    if plan.Failure? {
      return Fail(plan.error), training;
    }
    if plan.value.LinkOnlyFull? {
      sampleTablesOnLinkOnly := false;
    }
    settingsObj.blockingRulesToGeneratePredictions := BlockingRulesFor(settingsObj.linkType, sampleTablesOnLinkOnly);

    assert settingsObj != originalSettingsObj;
    AppendUProbabilities(originalSettingsObj, MURecords(paramRecords));
    assert training.settingsObj == settingsObj;
    outcome := Pass;
  }
}
