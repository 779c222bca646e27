/**
 * The parts of a Fellegi-Sunter linkage model that the trainers read and write:
 * comparisons, their discrete levels with m and u probabilities, and the
 * settings object a linker holds.
 */
module LinkageModel {
  import opened Outcomes

  /**
   * An m or u probability: unset, the explicit "level not observed" sentinel,
   * or a number. The sentinel is kept distinct from every numeric value.
   */
  datatype Prob = Unset | NotObserved | Value(p: real)

  /** One entry of a level's trained-probability history, with its provenance text. */
  datatype TrainedProbability = TrainedProbability(probability: Prob, description: string)

  datatype ComparisonLevel = ComparisonLevel(
    comparisonVectorValue: int,
    isNullLevel: bool,
    mProbability: Prob,
    uProbability: Prob,
    tfAdjustmentColumn: Option<string>,
    trainedM: seq<TrainedProbability>,
    trainedU: seq<TrainedProbability>)

  /** A comparison: its output column, the input columns its case statement reads, its levels. */
  datatype Comparison = Comparison(
    outputColumnName: string,
    inputColumns: set<string>,
    levels: seq<ComparisonLevel>)

  datatype LinkType = DedupeOnly | LinkOnly | LinkAndDedupe

  /** The levels of a comparison other than its null level, in order. */
  function LevelsExcludingNull(levels: seq<ComparisonLevel>): (r: seq<ComparisonLevel>)
    ensures forall l :: l in r <==> l in levels && !l.isNullLevel
  {
    if levels == [] then []
    else if levels[0].isNullLevel then LevelsExcludingNull(levels[1..])
    else [levels[0]] + LevelsExcludingNull(levels[1..])
  }

  /** Position of the first comparison with the given output column name. */
  function ComparisonIndex(cs: seq<Comparison>, name: string): (r: Option<nat>)
    ensures r.Some? ==> r.value < |cs| && cs[r.value].outputColumnName == name
    ensures r.Some? ==> forall j :: 0 <= j < r.value ==> cs[j].outputColumnName != name
    ensures r.None? <==> forall j :: 0 <= j < |cs| ==> cs[j].outputColumnName != name
  {
    if cs == [] then None
    else if cs[0].outputColumnName == name then Some(0)
    else match ComparisonIndex(cs[1..], name)
      case None => None
      case Some(j) => Some(j + 1)
  }

  /** Position of the first level with the given comparison vector value. */
  function LevelIndex(levels: seq<ComparisonLevel>, v: int): (r: Option<nat>)
    ensures r.Some? ==> r.value < |levels| && levels[r.value].comparisonVectorValue == v
    ensures r.Some? ==> forall k :: 0 <= k < r.value ==> levels[k].comparisonVectorValue != v
    ensures r.None? <==> forall k :: 0 <= k < |levels| ==> levels[k].comparisonVectorValue != v
  {
    if levels == [] then None
    else if levels[0].comparisonVectorValue == v then Some(0)
    else match LevelIndex(levels[1..], v)
      case None => None
      case Some(k) => Some(k + 1)
  }

  /** The comparisons with every level's term-frequency adjustment column cleared, nothing else changed. */
  function WithoutTermFrequencies(cs: seq<Comparison>): (r: seq<Comparison>)
    ensures |r| == |cs|
    ensures forall j :: 0 <= j < |cs| ==>
      && r[j].outputColumnName == cs[j].outputColumnName
      && r[j].inputColumns == cs[j].inputColumns
      && |r[j].levels| == |cs[j].levels|
      && forall k :: 0 <= k < |cs[j].levels| ==> r[j].levels[k] == cs[j].levels[k].(tfAdjustmentColumn := None)
  {
    seq(|cs|, j requires 0 <= j < |cs| =>
      cs[j].(levels := seq(|cs[j].levels|, k requires 0 <= k < |cs[j].levels| => cs[j].levels[k].(tfAdjustmentColumn := None))))
  }

  /** The settings object a linker holds; training code deep-copies it. */
  class SettingsObject {
    var comparisons: seq<Comparison>
    var probabilityTwoRandomRecordsMatch: real
    var linkType: LinkType
    var retainMatchingColumns: bool
    var retainIntermediateCalculationColumns: bool
    var trainingMode: bool
    var blockingRulesToGeneratePredictions: seq<string>

    constructor (comparisons: seq<Comparison>, lambda: real, linkType: LinkType, blockingRules: seq<string>)
      ensures this.comparisons == comparisons && probabilityTwoRandomRecordsMatch == lambda
      ensures this.linkType == linkType && blockingRulesToGeneratePredictions == blockingRules
      ensures retainMatchingColumns && retainIntermediateCalculationColumns && !trainingMode
    {
      this.comparisons := comparisons;
      probabilityTwoRandomRecordsMatch := lambda;
      this.linkType := linkType;
      retainMatchingColumns := true;
      retainIntermediateCalculationColumns := true;
      trainingMode := false;
      blockingRulesToGeneratePredictions := blockingRules;
    }

    /** `copy.deepcopy`: a new object holding equal values. */
    constructor DeepCopy(other: SettingsObject)
      ensures comparisons == other.comparisons
      ensures probabilityTwoRandomRecordsMatch == other.probabilityTwoRandomRecordsMatch
      ensures linkType == other.linkType
      ensures retainMatchingColumns == other.retainMatchingColumns
      ensures retainIntermediateCalculationColumns == other.retainIntermediateCalculationColumns
      ensures trainingMode == other.trainingMode
      ensures blockingRulesToGeneratePredictions == other.blockingRulesToGeneratePredictions
    {
      comparisons := other.comparisons;
      probabilityTwoRandomRecordsMatch := other.probabilityTwoRandomRecordsMatch;
      linkType := other.linkType;
      retainMatchingColumns := other.retainMatchingColumns;
      retainIntermediateCalculationColumns := other.retainIntermediateCalculationColumns;
      trainingMode := other.trainingMode;
      blockingRulesToGeneratePredictions := other.blockingRulesToGeneratePredictions;
    }
  }

  class Linker {
    var settingsObj: SettingsObject
    var trainUUsingRandomSampleMode: bool

    constructor (settingsObj: SettingsObject)
      ensures this.settingsObj == settingsObj && !trainUUsingRandomSampleMode
    {
      this.settingsObj := settingsObj;
      trainUUsingRandomSampleMode := false;
    }

    /** `copy.deepcopy(linker)`: the copy owns a fresh settings object. */
    constructor DeepCopy(other: Linker)
      ensures fresh(settingsObj)
      ensures trainUUsingRandomSampleMode == other.trainUUsingRandomSampleMode
      ensures settingsObj.comparisons == other.settingsObj.comparisons
      ensures settingsObj.probabilityTwoRandomRecordsMatch == other.settingsObj.probabilityTwoRandomRecordsMatch
      ensures settingsObj.linkType == other.settingsObj.linkType
      ensures settingsObj.retainMatchingColumns == other.settingsObj.retainMatchingColumns
      ensures settingsObj.retainIntermediateCalculationColumns == other.settingsObj.retainIntermediateCalculationColumns
      ensures settingsObj.trainingMode == other.settingsObj.trainingMode
      ensures settingsObj.blockingRulesToGeneratePredictions == other.settingsObj.blockingRulesToGeneratePredictions
    {
      settingsObj := new SettingsObject.DeepCopy(other.settingsObj);
      trainUUsingRandomSampleMode := other.trainUUsingRandomSampleMode;
    }
  }
}
