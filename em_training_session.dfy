/**
 * One EM training run: a session works on a private copy of the model,
 * deactivates the comparisons its blocking rule already decides, adjusts the
 * prior for blocking, and folds the last EM snapshot back into the original
 * settings object with an "EM, blocked on: <rule>" provenance tag.
 */
module EmTrainingSession {
  import opened Outcomes
  import opened LinkageModel

  /** A comparison level implied by the training blocking rule, with its Bayes factor. */
  datatype ReversingLevel = ReversingLevel(comparisonName: string, bayesFactor: real)

  /** The model's comparisons and prior at one EM iteration. */
  datatype CoreModelSettings = CoreModelSettings(
    comparisons: seq<Comparison>,
    probabilityTwoRandomRecordsMatch: real)

  /** One row of the comparison-vector table: a level value per comparison. */
  type ComparisonVector = seq<int>

  datatype LambdaRecord = LambdaRecord(probability: real, reciprocal: real, iteration: nat)

  // ---------------------------------------------------------------------------
  // Prior adjusted for blocking

  /** Product of the Bayes factors of the reversing levels, multiplied in list order. */
  function BayesFactorProduct(levels: seq<ReversingLevel>): real
  {
    if levels == [] then 1.0
    else levels[|levels| - 1].bayesFactor * BayesFactorProduct(levels[..|levels| - 1])
  }

  /** Reversing the levels of `a` and then those of `b` multiplies the two products. */
  lemma {:induction false} BayesFactorProductAppend(a: seq<ReversingLevel>, b: seq<ReversingLevel>)
    ensures BayesFactorProduct(a + b) == BayesFactorProduct(a) * BayesFactorProduct(b)
  {
    if b == [] {
      assert a + b == a;
    } else {
      var b' := b[..|b| - 1];
      assert (a + b)[..|a + b| - 1] == a + b';
      BayesFactorProductAppend(a, b');
    }
  }

  /** When no level has a Bayes factor below 1, blocking never lowers the prior odds. */
  lemma {:induction false} BayesFactorProductAtLeastOne(levels: seq<ReversingLevel>)
    requires forall l :: l in levels ==> l.bayesFactor >= 1.0
    ensures BayesFactorProduct(levels) >= 1.0
  {
    if levels != [] {
      var init := levels[..|levels| - 1];
      assert forall l :: l in init ==> l in levels;
      BayesFactorProductAtLeastOne(init);
      var x, y := levels[|levels| - 1].bayesFactor, BayesFactorProduct(init);
      assert x * y >= 1.0 * y by {
        assert (x - 1.0) * y >= 0.0;
      }
    }
  }

  /** Every reversing level's Bayes factor (its m over its u) is non-negative. */
  predicate NonNegativeFactors(levels: seq<ReversingLevel>)
  {
    forall l :: l in levels ==> l.bayesFactor >= 0.0
  }

  lemma {:induction false} BayesFactorProductNonNegative(levels: seq<ReversingLevel>)
    requires NonNegativeFactors(levels)
    ensures BayesFactorProduct(levels) >= 0.0
  {
    if levels != [] {
      var init := levels[..|levels| - 1];
      assert forall l :: l in init ==> l in levels;
      BayesFactorProductNonNegative(init);
      assert levels[|levels| - 1] in levels;
    }
  }

  /** The odds p / (1 - p) of a probability below one. */
  function ProbToBayesFactor(p: real): (b: real)
    requires 0.0 <= p < 1.0
    ensures b >= 0.0
  {
    QuotientNonNegative(p, 1.0 - p);
    p / (1.0 - p)
  }

  /** The probability b / (1 + b) of non-negative odds. */
  function BayesFactorToProb(b: real): (p: real)
    requires b >= 0.0
    ensures 0.0 <= p < 1.0
  {
    QuotientNonNegative(b, 1.0 + b);
    assert b / (1.0 + b) < 1.0 by {
      assert b / (1.0 + b) * (1.0 + b) == b;
    }
    b / (1.0 + b)
  }

  lemma QuotientNonNegative(a: real, d: real)
    requires a >= 0.0 && d > 0.0
    ensures a / d >= 0.0
  {
    assert a / d * d == a;
  }

  lemma QuotientOf(x: real, y: real, q: real)
    requires y != 0.0 && x == q * y
    ensures x / y == q
  {
  }

  /** Converting a probability to odds and back gives the probability. */
  lemma ProbBayesFactorRoundTrip(p: real)
    requires 0.0 <= p < 1.0
    ensures BayesFactorToProb(ProbToBayesFactor(p)) == p
  {
    var b := ProbToBayesFactor(p);
    assert b * (1.0 - p) == p;
    assert b == p * (1.0 + b);
    QuotientOf(b, 1.0 + b, p);
  }

  /** Larger odds give a larger probability. */
  lemma BayesFactorToProbMonotone(a: real, b: real)
    requires 0.0 <= a <= b
    ensures BayesFactorToProb(a) <= BayesFactorToProb(b)
  {
    var x, y := BayesFactorToProb(a), BayesFactorToProb(b);
    ComplementTimesDenominator(a);
    ComplementTimesDenominator(b);
    MultiplyMonotone(1.0 - y, 1.0 + a, 1.0 + b);
    assert (1.0 - y) * (1.0 + a) <= (1.0 - x) * (1.0 + a);
    CancelPositive(1.0 + a, 1.0 - y, 1.0 - x);
  }

  lemma ComplementTimesDenominator(b: real)
    requires b >= 0.0
    ensures (1.0 - BayesFactorToProb(b)) * (1.0 + b) == 1.0
  {
    var p := BayesFactorToProb(b);
    assert p * (1.0 + b) == b;
  }

  lemma MultiplyMonotone(c: real, u: real, v: real)
    requires c >= 0.0 && u <= v
    ensures c * u <= c * v
  {
  }

  lemma CancelPositive(c: real, u: real, v: real)
    requires c > 0.0 && u * c <= v * c
    ensures u <= v
  {
  }

  /** The blocking-adjusted prior: the original odds times every reversing level's Bayes factor. */
  function AdjustedPrior(originalProbability: real, levels: seq<ReversingLevel>): (r: real)
    requires 0.0 <= originalProbability < 1.0 && NonNegativeFactors(levels)
    ensures 0.0 <= r < 1.0
  {
    BayesFactorProductNonNegative(levels);
    BayesFactorToProb(BayesFactorProduct(levels) * ProbToBayesFactor(originalProbability))
  }

  /** Blocking on a rule that implies no level leaves the prior as it was. */
  lemma AdjustedPriorNoLevels(originalProbability: real)
    requires 0.0 <= originalProbability < 1.0
    ensures AdjustedPrior(originalProbability, []) == originalProbability
  {
    ProbBayesFactorRoundTrip(originalProbability);
  }

  /** When every implied level is evidence for a match, blocking never lowers the prior. */
  lemma AdjustedPriorAtLeastOriginal(originalProbability: real, levels: seq<ReversingLevel>)
    requires 0.0 <= originalProbability < 1.0
    requires forall l :: l in levels ==> l.bayesFactor >= 1.0
    ensures AdjustedPrior(originalProbability, levels) >= originalProbability
  {
    var odds := ProbToBayesFactor(originalProbability);
    BayesFactorProductAtLeastOne(levels);
    var f := BayesFactorProduct(levels);
    assert f * odds >= odds by {
      assert (f - 1.0) * odds >= 0.0;
    }
    BayesFactorToProbMonotone(odds, f * odds);
    ProbBayesFactorRoundTrip(originalProbability);
  }

  /**
   * The prior match probability adjusted for blocking: start from the odds of the
   * original prior and multiply in the Bayes factor of each reversing level.
   */
  method BlockingAdjustedProbability(originalProbability: real, levels: seq<ReversingLevel>)
    returns (adjusted: real)
    requires 0.0 <= originalProbability < 1.0 && NonNegativeFactors(levels)
    ensures adjusted == AdjustedPrior(originalProbability, levels)
  {
    var adjBayesFactor := ProbToBayesFactor(originalProbability);
    ghost var odds := adjBayesFactor;
    for i := 0 to |levels|
      invariant adjBayesFactor == BayesFactorProduct(levels[..i]) * odds
    {
      OddsStep(levels, i, odds, adjBayesFactor);
      adjBayesFactor := levels[i].bayesFactor * adjBayesFactor;
    }
    assert levels[..|levels|] == levels;
    assert adjBayesFactor >= 0.0 by {
      BayesFactorProductNonNegative(levels);
      ProductNonNegative(BayesFactorProduct(levels), odds);
    }
    adjusted := BayesFactorToProb(adjBayesFactor);
  }

  /** One turn of the loop: multiplying in level i's Bayes factor extends the product by that level. */
  lemma OddsStep(levels: seq<ReversingLevel>, i: nat, odds: real, adj: real)
    requires i < |levels| && adj == BayesFactorProduct(levels[..i]) * odds
    ensures levels[i].bayesFactor * adj == BayesFactorProduct(levels[..i + 1]) * odds
  {
    assert levels[..i + 1][..i] == levels[..i];
    assert BayesFactorProduct(levels[..i + 1]) == levels[i].bayesFactor * BayesFactorProduct(levels[..i]);
    MultiplyAssociates(levels[i].bayesFactor, BayesFactorProduct(levels[..i]), odds);
  }

  lemma ProductNonNegative(a: real, b: real)
    requires a >= 0.0 && b >= 0.0
    ensures a * b >= 0.0
  {
  }

  lemma MultiplyAssociates(a: real, b: real, c: real)
    ensures a * (b * c) == (a * b) * c
  {
  }

  // ---------------------------------------------------------------------------
  // Deactivated and active comparisons

  /** The comparisons whose case-statement input columns meet the blocking rule's columns. */
  function AutoDeactivated(cs: seq<Comparison>, ruleColumns: set<string>): (r: seq<Comparison>)
    ensures forall c :: c in r <==> c in cs && !(c.inputColumns !! ruleColumns)
  {
    if cs == [] then []
    else
      var prev := AutoDeactivated(cs[..|cs| - 1], ruleColumns);
      assert forall c :: c in cs <==> c in cs[..|cs| - 1] || c == cs[|cs| - 1];
      if !(cs[|cs| - 1].inputColumns !! ruleColumns) then prev + [cs[|cs| - 1]] else prev
  }

  /**
   * The comparisons to deactivate: an explicit non-empty list wins; otherwise every
   * comparison that shares an input column with the blocking rule, in model order.
   */
  method ComparisonsToDeactivate(explicit: seq<Comparison>, cs: seq<Comparison>, ruleColumns: set<string>)
    returns (r: seq<Comparison>)
    ensures explicit != [] ==> r == explicit
    ensures explicit == [] ==> r == AutoDeactivated(cs, ruleColumns)
    ensures explicit == [] ==> forall c :: c in r <==> c in cs && !(c.inputColumns !! ruleColumns)
  {
    if explicit != [] {
      return explicit;
    }
    r := [];
    for i := 0 to |cs|
      invariant r == AutoDeactivated(cs[..i], ruleColumns)
    {
      assert cs[..i + 1][..i] == cs[..i];
      if !(cs[i].inputColumns !! ruleColumns) {
        r := r + [cs[i]];
      }
    }
    assert cs[..|cs|] == cs;
  }

  function OutputColumnNames(cs: seq<Comparison>): (names: seq<string>)
    ensures |names| == |cs|
    ensures forall i :: 0 <= i < |cs| ==> names[i] == cs[i].outputColumnName
  {
    seq(|cs|, i requires 0 <= i < |cs| => cs[i].outputColumnName)
  }

  /** The comparisons, in model order, whose output column is not among `names`. */
  function ActiveComparisons(cs: seq<Comparison>, names: seq<string>): (r: seq<Comparison>)
    ensures forall c :: c in r <==> c in cs && c.outputColumnName !in names
  {
    if cs == [] then []
    else
      var rest := ActiveComparisons(cs[1..], names);
      assert forall c :: c in cs <==> c == cs[0] || c in cs[1..];
      if cs[0].outputColumnName !in names then [cs[0]] + rest else rest
  }

  /** Filtering keeps order: it distributes over concatenation. */
  lemma {:induction false} ActiveComparisonsAppend(a: seq<Comparison>, b: seq<Comparison>, names: seq<string>)
    ensures ActiveComparisons(a + b, names) == ActiveComparisons(a, names) + ActiveComparisons(b, names)
  {
    if a == [] {
      assert a + b == b;
    } else {
      assert (a + b)[0] == a[0];
      assert (a + b)[1..] == a[1..] + b;
      ActiveComparisonsAppend(a[1..], b, names);
    }
  }

  /** No active comparison shares an output column name with a deactivated one. */
  lemma ActiveAndDeactivatedDisjoint(cs: seq<Comparison>, deactivated: seq<Comparison>)
    ensures forall a, d ::
      (a in ActiveComparisons(cs, OutputColumnNames(deactivated)) && d in deactivated) ==> a.outputColumnName != d.outputColumnName
  {
    var names := OutputColumnNames(deactivated);
    forall a, d | a in ActiveComparisons(cs, names) && d in deactivated
      ensures a.outputColumnName != d.outputColumnName
    {
      var i :| 0 <= i < |deactivated| && deactivated[i] == d;
      assert names[i] == d.outputColumnName;
    }
  }

  // ---------------------------------------------------------------------------
  // Folding the final snapshot back into the original model

  function TrainingDescription(rule: string): string
  {
    "EM, blocked on: " + rule
  }

  /** What the fold-back appends to one original level for its trained counterpart. */
  function FoldLevel(orig: ComparisonLevel, trained: ComparisonLevel, desc: string, fixM: bool, fixU: bool): ComparisonLevel
  {
    orig.(
      trainedM := if fixM then orig.trainedM else orig.trainedM + [TrainedProbability(trained.mProbability, desc)],
      trainedU := if fixU then orig.trainedU else orig.trainedU + [TrainedProbability(trained.uProbability, desc)])
  }

  /** The original levels after folding in the trained levels in order, each by vector value. */
  function FoldLevels(orig: seq<ComparisonLevel>, trained: seq<ComparisonLevel>, desc: string, fixM: bool, fixU: bool)
    : seq<ComparisonLevel>
  {
    if trained == [] then orig
    else
      var prev := FoldLevels(orig, trained[..|trained| - 1], desc, fixM, fixU);
      var cl := trained[|trained| - 1];
      match LevelIndex(prev, cl.comparisonVectorValue)
      case None => prev
      case Some(k) => prev[k := FoldLevel(prev[k], cl, desc, fixM, fixU)]
  }

  /** The original comparisons after folding in each trained comparison, matched by name. */
  function FoldComparisons(orig: seq<Comparison>, trained: seq<Comparison>, desc: string, fixM: bool, fixU: bool)
    : seq<Comparison>
  {
    if trained == [] then orig
    else
      var prev := FoldComparisons(orig, trained[..|trained| - 1], desc, fixM, fixU);
      var cc := trained[|trained| - 1];
      match ComparisonIndex(prev, cc.outputColumnName)
      case None => prev
      case Some(j) => prev[j := prev[j].(levels := FoldLevels(prev[j].levels, LevelsExcludingNull(cc.levels), desc, fixM, fixU))]
  }

  function VectorValues(levels: seq<ComparisonLevel>): (vs: seq<int>)
    ensures |vs| == |levels|
    ensures forall k :: 0 <= k < |levels| ==> vs[k] == levels[k].comparisonVectorValue
  {
    seq(|levels|, k requires 0 <= k < |levels| => levels[k].comparisonVectorValue)
  }

  /** Folding changes neither the level count nor any level's vector value. */
  lemma {:induction false} FoldLevelsKeepsVectorValues(orig: seq<ComparisonLevel>, trained: seq<ComparisonLevel>, desc: string, fixM: bool, fixU: bool)
    ensures VectorValues(FoldLevels(orig, trained, desc, fixM, fixU)) == VectorValues(orig)
  {
    if trained != [] {
      FoldLevelsKeepsVectorValues(orig, trained[..|trained| - 1], desc, fixM, fixU);
    }
  }

  /** Folding keeps every comparison's name and its levels' vector values. */
  lemma {:induction false} FoldComparisonsKeepsShape(orig: seq<Comparison>, trained: seq<Comparison>, desc: string, fixM: bool, fixU: bool)
    ensures var r := FoldComparisons(orig, trained, desc, fixM, fixU);
      && OutputColumnNames(r) == OutputColumnNames(orig)
      && forall j :: 0 <= j < |orig| ==> VectorValues(r[j].levels) == VectorValues(orig[j].levels)
  {
    if trained != [] {
      var prev := FoldComparisons(orig, trained[..|trained| - 1], desc, fixM, fixU);
      FoldComparisonsKeepsShape(orig, trained[..|trained| - 1], desc, fixM, fixU);
      var cc := trained[|trained| - 1];
      match ComparisonIndex(prev, cc.outputColumnName)
      case None =>
      case Some(j) =>
        FoldLevelsKeepsVectorValues(prev[j].levels, LevelsExcludingNull(cc.levels), desc, fixM, fixU);
    }
  }

  /** Every trained comparison has an original namesake holding each of its non-null vector values. */
  predicate FoldBackDefined(orig: seq<Comparison>, trained: seq<Comparison>)
  {
    forall cc :: cc in trained ==>
      match ComparisonIndex(orig, cc.outputColumnName)
      case None => false
      case Some(j) => forall cl :: cl in LevelsExcludingNull(cc.levels) ==> LevelIndex(orig[j].levels, cl.comparisonVectorValue).Some?
  }

  predicate DistinctNames(cs: seq<Comparison>)
  {
    forall i, j :: 0 <= i < j < |cs| ==> cs[i].outputColumnName != cs[j].outputColumnName
  }

  predicate DistinctVectorValues(levels: seq<ComparisonLevel>)
  {
    forall i, j :: 0 <= i < j < |levels| ==> levels[i].comparisonVectorValue != levels[j].comparisonVectorValue
  }

  /** The last level among `trained` with vector value `v`, if any. */
  function TrainedLevel(trained: seq<ComparisonLevel>, v: int): (r: Option<ComparisonLevel>)
    ensures r.Some? ==> r.value in trained && r.value.comparisonVectorValue == v
    ensures r.None? ==> forall cl :: cl in trained ==> cl.comparisonVectorValue != v
  {
    if trained == [] then None
    else if trained[|trained| - 1].comparisonVectorValue == v then Some(trained[|trained| - 1])
    else
      assert forall cl :: cl in trained ==> cl in trained[..|trained| - 1] || cl == trained[|trained| - 1];
      TrainedLevel(trained[..|trained| - 1], v)
  }

  /** The level of the trained comparison named `name` with vector value `v`, if any. */
  function TrainedLevelFor(trained: seq<Comparison>, name: string, v: int): Option<ComparisonLevel>
  {
    if trained == [] then None
    else if trained[|trained| - 1].outputColumnName == name then
      TrainedLevel(LevelsExcludingNull(trained[|trained| - 1].levels), v)
    else TrainedLevelFor(trained[..|trained| - 1], name, v)
  }

  /**
   * Per level: an original level whose vector value matches a trained non-null level
   * receives exactly that level's fold, and every other level is untouched.
   */
  lemma {:induction false} FoldLevelsAt(orig: seq<ComparisonLevel>, trained: seq<ComparisonLevel>, desc: string, fixM: bool, fixU: bool, k: nat)
    requires DistinctVectorValues(orig) && DistinctVectorValues(trained) && k < |orig|
    ensures var r := FoldLevels(orig, trained, desc, fixM, fixU);
      && |r| == |orig|
      && r[k] == match TrainedLevel(trained, orig[k].comparisonVectorValue)
                 case None => orig[k]
                 case Some(cl) => FoldLevel(orig[k], cl, desc, fixM, fixU)
  {
    FoldLevelsKeepsVectorValues(orig, trained, desc, fixM, fixU);
    if trained != [] {
      var init := trained[..|trained| - 1];
      var cl := trained[|trained| - 1];
      var v := orig[k].comparisonVectorValue;
      var prev := FoldLevels(orig, init, desc, fixM, fixU);
      FoldLevelsKeepsVectorValues(orig, init, desc, fixM, fixU);
      assert DistinctVectorValues(init);
      FoldLevelsAt(orig, init, desc, fixM, fixU, k);
      assert VectorValues(prev) == VectorValues(orig);
      if cl.comparisonVectorValue == v {
        assert forall c :: c in init ==> c.comparisonVectorValue != v by {
          forall c | c in init ensures c.comparisonVectorValue != v {
            var i :| 0 <= i < |init| && init[i] == c;
            assert trained[i] == c;
          }
        }
        assert TrainedLevel(init, v).None?;
        assert prev[k].comparisonVectorValue == v;
        SameVectorValuesSameIndex(orig, prev, v);
        var idx := LevelIndex(orig, v);
        assert idx.Some?;
        assert idx.value == k;
      } else {
        match LevelIndex(prev, cl.comparisonVectorValue)
        case None =>
        case Some(k') =>
          assert prev[k'].comparisonVectorValue == orig[k'].comparisonVectorValue;
          assert k' != k;
      }
    }
  }

  /**
   * Per comparison: the fold-back changes level k of original comparison j exactly by
   * the trained level of the same name and vector value, and leaves it alone otherwise;
   * in particular a comparison absent from the trained snapshot is untouched.
   */
  lemma {:induction false} FoldComparisonsAt(orig: seq<Comparison>, trained: seq<Comparison>, desc: string, fixM: bool, fixU: bool, j: nat, k: nat)
    requires DistinctNames(orig) && DistinctNames(trained)
    requires forall c :: c in orig ==> DistinctVectorValues(c.levels)
    requires forall c :: c in trained ==> DistinctVectorValues(LevelsExcludingNull(c.levels))
    requires j < |orig| && k < |orig[j].levels|
    ensures var r := FoldComparisons(orig, trained, desc, fixM, fixU);
      && |r| == |orig|
      && r[j].outputColumnName == orig[j].outputColumnName
      && |r[j].levels| == |orig[j].levels|
      && r[j].levels[k] == match TrainedLevelFor(trained, orig[j].outputColumnName, orig[j].levels[k].comparisonVectorValue)
                          case None => orig[j].levels[k]
                          case Some(cl) => FoldLevel(orig[j].levels[k], cl, desc, fixM, fixU)
  {
    FoldComparisonsKeepsShape(orig, trained, desc, fixM, fixU);
    var r := FoldComparisons(orig, trained, desc, fixM, fixU);
    assert OutputColumnNames(r)[j] == OutputColumnNames(orig)[j];
    assert VectorValues(r[j].levels) == VectorValues(orig[j].levels);
    if trained != [] {
      var init := trained[..|trained| - 1];
      var cc := trained[|trained| - 1];
      var name := orig[j].outputColumnName;
      var v := orig[j].levels[k].comparisonVectorValue;
      var prev := FoldComparisons(orig, init, desc, fixM, fixU);
      assert DistinctNames(init);
      assert forall c :: c in init ==> c in trained;
      FoldComparisonsAt(orig, init, desc, fixM, fixU, j, k);
      FoldComparisonsKeepsShape(orig, init, desc, fixM, fixU);
      assert OutputColumnNames(prev) == OutputColumnNames(orig);
      assert forall i :: 0 <= i < |prev| ==> prev[i].outputColumnName == orig[i].outputColumnName by {
        forall i | 0 <= i < |prev| ensures prev[i].outputColumnName == orig[i].outputColumnName {
          assert OutputColumnNames(prev)[i] == OutputColumnNames(orig)[i];
        }
      }
      if cc.outputColumnName == name {
        assert TrainedLevelFor(init, name, v).None? by {
          NotNamedIn(init, name, v);
        }
        SameNamesSameIndex(orig, prev, name);
        var idx := ComparisonIndex(orig, name);
        assert idx.Some?;
        assert idx.value == j;
        assert VectorValues(prev[j].levels) == VectorValues(orig[j].levels);
        assert DistinctVectorValues(prev[j].levels) by {
          forall a, b | 0 <= a < b < |prev[j].levels|
            ensures prev[j].levels[a].comparisonVectorValue != prev[j].levels[b].comparisonVectorValue
          {
            assert VectorValues(prev[j].levels)[a] == VectorValues(orig[j].levels)[a];
            assert VectorValues(prev[j].levels)[b] == VectorValues(orig[j].levels)[b];
          }
        }
        assert prev[j].levels[k].comparisonVectorValue == v by {
          assert VectorValues(prev[j].levels)[k] == VectorValues(orig[j].levels)[k];
        }
        FoldLevelsAt(prev[j].levels, LevelsExcludingNull(cc.levels), desc, fixM, fixU, k);
      } else {
        match ComparisonIndex(prev, cc.outputColumnName)
        case None =>
        case Some(j') =>
          assert prev[j'].outputColumnName == orig[j'].outputColumnName;
          assert j' != j;
      }
    }
  }

  /** A snapshot none of whose comparisons is named `name` supplies no level for it. */
  lemma {:induction false} NotNamedIn(cs: seq<Comparison>, name: string, v: int)
    requires forall c :: c in cs ==> c.outputColumnName != name
    ensures TrainedLevelFor(cs, name, v).None?
  {
    if cs != [] {
      assert forall c :: c in cs[..|cs| - 1] ==> c in cs;
      NotNamedIn(cs[..|cs| - 1], name, v);
    }
  }

  /** A comparison no trained comparison is named after comes out of the fold-back as it went in. */
  lemma {:induction false} FoldLeavesUntrained(orig: seq<Comparison>, trained: seq<Comparison>, desc: string, fixM: bool, fixU: bool, j: nat)
    requires j < |orig|
    requires forall c :: c in trained ==> c.outputColumnName != orig[j].outputColumnName
    ensures var r := FoldComparisons(orig, trained, desc, fixM, fixU); |r| == |orig| && r[j] == orig[j]
  {
    FoldComparisonsKeepsShape(orig, trained, desc, fixM, fixU);
    if trained != [] {
      var init := trained[..|trained| - 1];
      var cc := trained[|trained| - 1];
      assert forall c :: c in init ==> c in trained;
      FoldLeavesUntrained(orig, init, desc, fixM, fixU, j);
      var prev := FoldComparisons(orig, init, desc, fixM, fixU);
      FoldComparisonsKeepsShape(orig, init, desc, fixM, fixU);
      match ComparisonIndex(prev, cc.outputColumnName)
      case None =>
      case Some(j') =>
        assert prev[j].outputColumnName == orig[j].outputColumnName;
        assert j' != j;
    }
  }

  /**
   * When the trained comparisons are all named after comparisons left to estimate, and
   * those share no name with the deactivated ones, no trained comparison carries a
   * deactivated name.
   */
  lemma DeactivatedNotTrained(estimated: seq<Comparison>, deactivated: seq<Comparison>, trained: seq<Comparison>, name: string)
    requires forall a, d :: a in estimated && d in deactivated ==> a.outputColumnName != d.outputColumnName
    requires forall c :: c in trained ==> c.outputColumnName in OutputColumnNames(estimated)
    requires name in OutputColumnNames(deactivated)
    ensures forall c :: c in trained ==> c.outputColumnName != name
  {
    var i :| 0 <= i < |deactivated| && OutputColumnNames(deactivated)[i] == name;
    forall c | c in trained ensures c.outputColumnName != name {
      var k :| 0 <= k < |estimated| && OutputColumnNames(estimated)[k] == c.outputColumnName;
      assert estimated[k] in estimated && deactivated[i] in deactivated;
    }
  }

  /** Every comparison named after a deactivated one is where it was and as it was. */
  predicate KeepsDeactivated(before: seq<Comparison>, after: seq<Comparison>, deactivated: seq<Comparison>)
  {
    && |after| == |before|
    && forall j :: 0 <= j < |before| && before[j].outputColumnName in OutputColumnNames(deactivated) ==> after[j] == before[j]
  }

  /** The fold-back of a snapshot trained only on active comparisons keeps the deactivated ones. */
  lemma FoldKeepsDeactivated(orig: seq<Comparison>, trained: seq<Comparison>, estimated: seq<Comparison>,
                             deactivated: seq<Comparison>, desc: string, fixM: bool, fixU: bool)
    requires forall a, d :: a in estimated && d in deactivated ==> a.outputColumnName != d.outputColumnName
    requires forall c :: c in trained ==> c.outputColumnName in OutputColumnNames(estimated)
    ensures KeepsDeactivated(orig, FoldComparisons(orig, trained, desc, fixM, fixU), deactivated)
  {
    FoldComparisonsKeepsShape(orig, trained, desc, fixM, fixU);
    forall j | 0 <= j < |orig| && orig[j].outputColumnName in OutputColumnNames(deactivated)
      ensures FoldComparisons(orig, trained, desc, fixM, fixU)[j] == orig[j]
    {
      DeactivatedNotTrained(estimated, deactivated, trained, orig[j].outputColumnName);
      FoldLeavesUntrained(orig, trained, desc, fixM, fixU, j);
    }
  }

  // ---------------------------------------------------------------------------
  // The session

  /** The ValueError text when both m and u are fixed (the source's spelling). */
  const BothFixedMessage: string := "Can't train model if you fix both m and u probabilites"

  /** The ValueError text when reversing levels are passed explicitly. */
  const BrokenPathMessage: string := "This path is broken for now."

  /** The closing advice of the no-pairs message. */
  const NoPairsAdvice: string :=
    "Expectation maximisation requires a substantial number of record "
    + "comparisons to produce accurate parameter estimates - usually "
    + "at least a few hundred, but preferably at least a few thousand.\n"
    + "You must revise your training blocking rule so that the set of "
    + "generated comparisons is not empty.  You can use "
    + "`linker.count_num_comparisons_from_blocking_rule()` to compute "
    + "the number of comparisons that will be generated by a blocking rule."

  function NoPairsTail(quoted: string): string
  {
    " resulted in no record pairs.  This means that in the supplied data set "
    + "there were no pairs of records for which " + quoted + " was `true`.\n" + NoPairsAdvice
  }

  /**
   * The text of the EMTrainingException raised when the training rule yields no pairs;
   * it names the rule in backquotes.
   */
  function NoPairsMessage(rule: string): (msg: string)
    ensures Contains(msg, "`" + rule + "`")
  {
    var quoted := "`" + rule + "`";
    OccursInMiddle("Training rule ", quoted, NoPairsTail(quoted));
    "Training rule " + quoted + NoPairsTail(quoted)
  }

  lemma OccursInMiddle(a: string, b: string, c: string)
    ensures OccursAt(b, a + b + c, |a|)
  {
    assert (a + b + c)[|a|..|a| + |b|] == b;
  }

  /**
   * The inner loop of the fold-back: for each trained non-null level, append its m and u
   * (or the "not observed" sentinel) to the history of the original level with its vector value.
   */
  method FoldTrainedLevels(current: seq<ComparisonLevel>, levels: seq<ComparisonLevel>, desc: string, fixM: bool, fixU: bool)
    returns (r: seq<ComparisonLevel>)
    requires forall cl :: cl in levels ==> LevelIndex(current, cl.comparisonVectorValue).Some?
    ensures r == FoldLevels(current, levels, desc, fixM, fixU)
    ensures VectorValues(r) == VectorValues(current)
  {
    r := current;
    for t := 0 to |levels|
      invariant r == FoldLevels(current, levels[..t], desc, fixM, fixU)
      invariant VectorValues(r) == VectorValues(current)
    {
      assert levels[..t + 1][..t] == levels[..t];
      var cl := levels[t];
      FoldLevelsKeepsVectorValues(current, levels[..t], desc, fixM, fixU);
      var at := LevelIndex(r, cl.comparisonVectorValue);
      assert at.Some? by {
        assert cl in levels;
        SameVectorValuesSameIndex(current, r, cl.comparisonVectorValue);
      }
      var k := at.value;
      var updated := r[k];
      if !fixM {
        if cl.mProbability == NotObserved {
          updated := updated.(trainedM := updated.trainedM + [TrainedProbability(NotObserved, desc)]);
        } else {
          updated := updated.(trainedM := updated.trainedM + [TrainedProbability(cl.mProbability, desc)]);
        }
      }
      if !fixU {
        if cl.uProbability == NotObserved {
          updated := updated.(trainedU := updated.trainedU + [TrainedProbability(NotObserved, desc)]);
        } else {
          updated := updated.(trainedU := updated.trainedU + [TrainedProbability(cl.uProbability, desc)]);
        }
      }
      r := r[k := updated];
      FoldLevelsKeepsVectorValues(current, levels[..t + 1], desc, fixM, fixU);
    }
    assert levels[..|levels|] == levels;
  }

  /**
   * The outer loop of the fold-back: each trained comparison's non-null levels go into
   * the original comparison of the same output column name.
   */
  method FoldTrainedComparisons(orig: seq<Comparison>, trained: seq<Comparison>, desc: string, fixM: bool, fixU: bool)
    returns (r: seq<Comparison>)
    requires FoldBackDefined(orig, trained)
    ensures r == FoldComparisons(orig, trained, desc, fixM, fixU)
    ensures OutputColumnNames(r) == OutputColumnNames(orig)
  {
    r := orig;
    for i := 0 to |trained|
      invariant r == FoldComparisons(orig, trained[..i], desc, fixM, fixU)
    {
      assert trained[..i + 1][..i] == trained[..i];
      var cc := trained[i];
      FoldComparisonsKeepsShape(orig, trained[..i], desc, fixM, fixU);
      var found := ComparisonIndex(r, cc.outputColumnName);
      SameNamesSameIndex(orig, r, cc.outputColumnName);
      assert found.Some? by {
        assert cc in trained;
      }
      var j := found.value;
      var levels := LevelsExcludingNull(cc.levels);
      assert forall cl :: cl in levels ==> LevelIndex(r[j].levels, cl.comparisonVectorValue).Some? by {
        assert cc in trained;
        forall cl | cl in levels ensures LevelIndex(r[j].levels, cl.comparisonVectorValue).Some? {
          assert LevelIndex(orig[j].levels, cl.comparisonVectorValue).Some?;
          SameVectorValuesSameIndex(orig[j].levels, r[j].levels, cl.comparisonVectorValue);
        }
      }
      var folded := FoldTrainedLevels(r[j].levels, levels, desc, fixM, fixU);
      r := r[j := r[j].(levels := folded)];
    }
    assert trained[..|trained|] == trained;
    FoldComparisonsKeepsShape(orig, trained, desc, fixM, fixU);
  }

  class Session {
    /** The caller's settings object; written only by Train. */
    const original: SettingsObject
    const blockingRule: string
    const fixU: bool
    const fixM: bool
    const fixProbabilityTwoRandomRecordsMatch: bool
    const estimateWithoutTermFrequencies: bool
    const levelsToReverse: seq<ReversingLevel>
    /** The private copy's prior, adjusted for blocking. */
    var probabilityTwoRandomRecordsMatch: real
    var comparisonsThatCannotBeEstimated: seq<Comparison>
    var comparisonsThatCanBeEstimated: seq<Comparison>
    var coreModelSettings: CoreModelSettings
    var history: seq<CoreModelSettings>

    /**
     * The part of `__init__` after the explicit-reversing-levels check: copy the model,
     * adjust its prior and drop the comparisons the blocking rule decides.
     * `impliedLevels` are the levels parsed from the rule, `ruleColumns` the columns it reads.
     */
    constructor (
      original: SettingsObject, blockingRule: string, ruleColumns: set<string>,
      fixU: bool, fixM: bool, fixProbabilityTwoRandomRecordsMatch: bool,
      comparisonsToDeactivate: seq<Comparison>, impliedLevels: seq<ReversingLevel>,
      estimateWithoutTermFrequencies: bool)
      requires 0.0 <= original.probabilityTwoRandomRecordsMatch < 1.0 && NonNegativeFactors(impliedLevels)
      ensures this.original == original && this.blockingRule == blockingRule
      ensures this.fixU == fixU && this.fixM == fixM
      ensures this.fixProbabilityTwoRandomRecordsMatch == fixProbabilityTwoRandomRecordsMatch
      ensures levelsToReverse == impliedLevels
      ensures probabilityTwoRandomRecordsMatch
        == AdjustedPrior(original.probabilityTwoRandomRecordsMatch, impliedLevels)
      ensures comparisonsThatCannotBeEstimated
        == if comparisonsToDeactivate != [] then comparisonsToDeactivate
           else AutoDeactivated(original.comparisons, ruleColumns)
      ensures comparisonsThatCanBeEstimated
        == ActiveComparisons(original.comparisons, OutputColumnNames(comparisonsThatCannotBeEstimated))
      ensures coreModelSettings == CoreModelSettings(comparisonsThatCanBeEstimated, probabilityTwoRandomRecordsMatch)
      ensures this.estimateWithoutTermFrequencies == estimateWithoutTermFrequencies
      ensures EstimatedApart()
      ensures history == []
    {
      this.original := original;
      this.blockingRule := blockingRule;
      this.estimateWithoutTermFrequencies := estimateWithoutTermFrequencies;
      levelsToReverse := impliedLevels;
      var copied := original.comparisons;
      var prior := original.probabilityTwoRandomRecordsMatch;
      var adjusted := BlockingAdjustedProbability(prior, impliedLevels);
      probabilityTwoRandomRecordsMatch := adjusted;
      this.fixU := fixU;
      this.fixM := fixM;
      this.fixProbabilityTwoRandomRecordsMatch := fixProbabilityTwoRandomRecordsMatch;
      var deactivate := ComparisonsToDeactivate(comparisonsToDeactivate, copied, ruleColumns);
      comparisonsThatCannotBeEstimated := deactivate;
      var filtered := ActiveComparisons(copied, OutputColumnNames(deactivate));
      comparisonsThatCanBeEstimated := filtered;
      coreModelSettings := CoreModelSettings(filtered, adjusted);
      history := [];
      ActiveAndDeactivatedDisjoint(copied, deactivate);
    }

    /** No comparison left to estimate shares its output column with a deactivated one. */
    predicate EstimatedApart()
      reads this
    {
      forall a, d :: a in comparisonsThatCanBeEstimated && d in comparisonsThatCannotBeEstimated ==>
        a.outputColumnName != d.outputColumnName
    }

    /** `EMTrainingSession(...)`: a non-empty explicit list of reversing levels raises. */
    static method Start(
      original: SettingsObject, blockingRule: string, ruleColumns: set<string>,
      fixU: bool, fixM: bool, fixProbabilityTwoRandomRecordsMatch: bool,
      comparisonsToDeactivate: seq<Comparison>,
      explicitLevels: seq<ReversingLevel>, impliedLevels: seq<ReversingLevel>,
      estimateWithoutTermFrequencies: bool)
      returns (r: Result<Session>)
      requires explicitLevels == [] ==>
        0.0 <= original.probabilityTwoRandomRecordsMatch < 1.0 && NonNegativeFactors(impliedLevels)
      ensures r.Failure? <==> explicitLevels != []
      ensures r.Failure? ==> r.error == ValueError(BrokenPathMessage)
      ensures r.Success? ==> fresh(r.value) && r.value.original == original
      ensures r.Success? ==> r.value.levelsToReverse == impliedLevels && r.value.history == []
      ensures r.Success? ==>
        r.value.probabilityTwoRandomRecordsMatch
        == AdjustedPrior(original.probabilityTwoRandomRecordsMatch, impliedLevels)
      ensures r.Success? ==>
        && r.value.blockingRule == blockingRule
        && r.value.fixU == fixU && r.value.fixM == fixM
        && r.value.fixProbabilityTwoRandomRecordsMatch == fixProbabilityTwoRandomRecordsMatch
        && r.value.estimateWithoutTermFrequencies == estimateWithoutTermFrequencies
      ensures r.Success? ==>
        r.value.comparisonsThatCannotBeEstimated
        == if comparisonsToDeactivate != [] then comparisonsToDeactivate
           else AutoDeactivated(original.comparisons, ruleColumns)
      ensures r.Success? ==>
        r.value.comparisonsThatCanBeEstimated
        == ActiveComparisons(original.comparisons, OutputColumnNames(r.value.comparisonsThatCannotBeEstimated))
      ensures r.Success? ==>
        r.value.coreModelSettings
        == CoreModelSettings(r.value.comparisonsThatCanBeEstimated, r.value.probabilityTwoRandomRecordsMatch)
      ensures r.Success? ==> r.value.EstimatedApart()
    {
      if explicitLevels != [] {
        return Failure(ValueError(BrokenPathMessage));
      }
      var s := new Session(original, blockingRule, ruleColumns, fixU, fixM,
        fixProbabilityTwoRandomRecordsMatch, comparisonsToDeactivate, impliedLevels,
        estimateWithoutTermFrequencies);
      r := Success(s);
    }

    /** The fail-fast check of `_training_log_message`, and what will be estimated. */
    method TrainingLogMessage() returns (r: Result<string>)
      ensures r.Failure? <==> fixM && fixU
      ensures r.Failure? ==> r.error == ValueError(BothFixedMessage)
      ensures r.Success? ==> r.value == if fixU then "m probabilities" else if fixM then "u probabilities" else "m and u probabilities"
    {
      if fixM && fixU {
        r := Failure(ValueError(BothFixedMessage));
      } else if fixU {
        r := Success("m probabilities");
      } else if fixM {
        r := Success("u probabilities");
      } else {
        r := Success("m and u probabilities");
      }
    }

    /**
     * `_comparison_vectors`: the configuration check runs before any query; `blocked`
     * is what blocking on the training rule and scoring the pairs returns.
     */
    method ComparisonVectors(blocked: seq<ComparisonVector>) returns (r: Result<seq<ComparisonVector>>)
      ensures r.Failure? <==> fixM && fixU
      ensures r.Failure? ==> r.error == ValueError(BothFixedMessage)
      ensures r.Success? ==> r.value == blocked
    {
      var message := TrainingLogMessage();
      if message.Failure? {
        return Failure(message.error);
      }
      r := Success(blocked);
    }

    /**
     * `_train`: check there are pairs, keep EM's history (`emHistory`, the output of the
     * EM engine) and fold its last snapshot into the original model.
     */
    method Train(cvv: Option<seq<ComparisonVector>>, blocked: seq<ComparisonVector>, emHistory: seq<CoreModelSettings>)
      returns (outcome: Outcome)
      requires emHistory != []
      requires FoldBackDefined(original.comparisons, emHistory[|emHistory| - 1].comparisons)
      requires EstimatedApart()
      requires forall c :: c in emHistory[|emHistory| - 1].comparisons ==>
        c.outputColumnName in OutputColumnNames(comparisonsThatCanBeEstimated)
      modifies this, original
      ensures var table := if cvv.Some? then cvv.value else blocked;
        outcome.Fail? <==> (cvv.None? && fixM && fixU) || table == []
      ensures cvv.None? && fixM && fixU ==> outcome == Fail(ValueError(BothFixedMessage))
      ensures !(cvv.None? && fixM && fixU) && (if cvv.Some? then cvv.value else blocked) == []
        ==> outcome == Fail(EMTrainingException(NoPairsMessage(blockingRule)))
      ensures outcome.Fail? ==> unchanged(this) && unchanged(original)
      ensures outcome.Pass? ==> history == emHistory && coreModelSettings == emHistory[|emHistory| - 1]
      ensures outcome.Pass? ==> original.comparisons == FoldComparisons(old(original.comparisons),
        emHistory[|emHistory| - 1].comparisons, TrainingDescription(blockingRule), fixM, fixU)
      ensures outcome.Pass? ==> KeepsDeactivated(old(original.comparisons), original.comparisons, comparisonsThatCannotBeEstimated)
      ensures original.probabilityTwoRandomRecordsMatch == old(original.probabilityTwoRandomRecordsMatch)
      ensures original.linkType == old(original.linkType) && original.trainingMode == old(original.trainingMode)
      ensures original.retainMatchingColumns == old(original.retainMatchingColumns)
      ensures original.retainIntermediateCalculationColumns == old(original.retainIntermediateCalculationColumns)
      ensures original.blockingRulesToGeneratePredictions == old(original.blockingRulesToGeneratePredictions)
      ensures comparisonsThatCanBeEstimated == old(comparisonsThatCanBeEstimated)
      ensures comparisonsThatCannotBeEstimated == old(comparisonsThatCannotBeEstimated)
    {
      outcome := CheckPairs(cvv, blocked);
      if outcome.Pass? {
        AdoptHistory(emHistory);
      }
    }

    /** The checks `_train` makes before EM: the configuration, then that there are pairs. */
    method CheckPairs(cvv: Option<seq<ComparisonVector>>, blocked: seq<ComparisonVector>) returns (outcome: Outcome)
      ensures var table := if cvv.Some? then cvv.value else blocked;
        outcome.Fail? <==> (cvv.None? && fixM && fixU) || table == []
      ensures cvv.None? && fixM && fixU ==> outcome == Fail(ValueError(BothFixedMessage))
      ensures !(cvv.None? && fixM && fixU) && (if cvv.Some? then cvv.value else blocked) == []
        ==> outcome == Fail(EMTrainingException(NoPairsMessage(blockingRule)))
    {
      var table: seq<ComparisonVector>;
      if cvv.None? {
        var computed := ComparisonVectors(blocked);
        if computed.Failure? {
          return Fail(computed.error);
        }
        table := computed.value;
      } else {
        table := cvv.value;
      }
      if table == [] {
        return Fail(EMTrainingException(NoPairsMessage(blockingRule)));
      }
      outcome := Pass;
    }

    /** The tail of `_train` once there are pairs: keep the history and fold its last snapshot back. */
    method AdoptHistory(emHistory: seq<CoreModelSettings>)
      requires emHistory != []
      requires FoldBackDefined(original.comparisons, emHistory[|emHistory| - 1].comparisons)
      requires EstimatedApart()
      requires forall c :: c in emHistory[|emHistory| - 1].comparisons ==>
        c.outputColumnName in OutputColumnNames(comparisonsThatCanBeEstimated)
      modifies this, original
      ensures history == emHistory && coreModelSettings == emHistory[|emHistory| - 1]
      ensures original.comparisons == FoldComparisons(old(original.comparisons),
        emHistory[|emHistory| - 1].comparisons, TrainingDescription(blockingRule), fixM, fixU)
      ensures KeepsDeactivated(old(original.comparisons), original.comparisons, comparisonsThatCannotBeEstimated)
      ensures original.probabilityTwoRandomRecordsMatch == old(original.probabilityTwoRandomRecordsMatch)
      ensures original.linkType == old(original.linkType) && original.trainingMode == old(original.trainingMode)
      ensures original.retainMatchingColumns == old(original.retainMatchingColumns)
      ensures original.retainIntermediateCalculationColumns == old(original.retainIntermediateCalculationColumns)
      ensures original.blockingRulesToGeneratePredictions == old(original.blockingRulesToGeneratePredictions)
      ensures comparisonsThatCanBeEstimated == old(comparisonsThatCanBeEstimated)
      ensures comparisonsThatCannotBeEstimated == old(comparisonsThatCannotBeEstimated)
    {
      var last := emHistory[|emHistory| - 1];
      var folded := FoldTrainedComparisons(original.comparisons, last.comparisons,
        TrainingDescription(blockingRule), fixM, fixU);
      FoldKeepsDeactivated(original.comparisons, last.comparisons, comparisonsThatCanBeEstimated,
        comparisonsThatCannotBeEstimated, TrainingDescription(blockingRule), fixM, fixU);
      coreModelSettings := last;
      history := emHistory;
      original.comparisons := folded;
    }

    /**
     * `_lambda_history_records`: the prior and its reciprocal at each iteration; a
     * prior of zero makes `1 / lam` raise ZeroDivisionError.
     */
    method LambdaHistoryRecords() returns (r: Result<seq<LambdaRecord>>)
      ensures r.Failure? <==> exists i :: 0 <= i < |history| && history[i].probabilityTwoRandomRecordsMatch == 0.0
      ensures r.Failure? ==> r.error == ZeroDivisionError
      ensures r.Success? ==> |r.value| == |history|
      ensures r.Success? ==> forall i :: 0 <= i < |r.value| ==>
        && r.value[i].iteration == i
        && r.value[i].probability == history[i].probabilityTwoRandomRecordsMatch
        && r.value[i].probability * r.value[i].reciprocal == 1.0
    {
      var records: seq<LambdaRecord> := [];
      for i := 0 to |history|
        invariant |records| == i
        invariant forall n :: 0 <= n < i ==> history[n].probabilityTwoRandomRecordsMatch != 0.0
        invariant forall n :: 0 <= n < i ==>
          && records[n].iteration == n
          && records[n].probability == history[n].probabilityTwoRandomRecordsMatch
          && records[n].probability * records[n].reciprocal == 1.0
      {
        var lam := history[i].probabilityTwoRandomRecordsMatch;
        if lam == 0.0 {
          return Failure(ZeroDivisionError);
        }
        records := records + [LambdaRecord(lam, 1.0 / lam, i)];
      }
      r := Success(records);
    }
  }

  /** Lookup by name gives the same position in two lists with the same names. */
  lemma SameNamesSameIndex(a: seq<Comparison>, b: seq<Comparison>, name: string)
    requires OutputColumnNames(a) == OutputColumnNames(b)
    ensures ComparisonIndex(a, name) == ComparisonIndex(b, name)
  {
    assert |a| == |OutputColumnNames(a)| == |OutputColumnNames(b)| == |b|;
    var ra, rb := ComparisonIndex(a, name), ComparisonIndex(b, name);
    if ra.Some? {
      assert OutputColumnNames(a)[ra.value] == OutputColumnNames(b)[ra.value];
      assert b[ra.value].outputColumnName == name;
    }
    if rb.Some? {
      assert OutputColumnNames(a)[rb.value] == OutputColumnNames(b)[rb.value];
      assert a[rb.value].outputColumnName == name;
    }
    assert ra.Some? ==> rb.Some? && rb.value <= ra.value;
    assert rb.Some? ==> ra.Some? && ra.value <= rb.value;
  }

  /** Lookup by vector value gives the same position in two lists with the same values. */
  lemma SameVectorValuesSameIndex(a: seq<ComparisonLevel>, b: seq<ComparisonLevel>, v: int)
    requires VectorValues(a) == VectorValues(b)
    ensures LevelIndex(a, v) == LevelIndex(b, v)
  {
    assert |a| == |VectorValues(a)| == |VectorValues(b)| == |b|;
    var ra, rb := LevelIndex(a, v), LevelIndex(b, v);
    if ra.Some? {
      assert VectorValues(a)[ra.value] == VectorValues(b)[ra.value];
      assert b[ra.value].comparisonVectorValue == v;
    }
    if rb.Some? {
      assert VectorValues(a)[rb.value] == VectorValues(b)[rb.value];
      assert a[rb.value].comparisonVectorValue == v;
    }
    assert ra.Some? ==> rb.Some? && rb.value <= ra.value;
    assert rb.Some? ==> ra.Some? && ra.value <= rb.value;
  }
}
