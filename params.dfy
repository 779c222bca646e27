/**
 * The parameter store: the current parameters, their history over the EM iterations
 * and the settings, with the save/load key check, dict flattening, the convergence
 * test, the Bayes-factor history rows and the copy of saved m/u lists into settings.
 */
module ParamStore {
  import opened Outcomes
  import opened JsonValues

  // ---------------------------------------------------------------------------
  // _flatten_dict

  /** `f"{parent_key}_{k}" if parent_key else k`. */
  function Prefixed(parent: string, k: string): (key: string)
    ensures parent != "" ==> key == parent + "_" + k
    ensures parent == "" ==> key == k
  {
    if parent != "" then parent + "_" + k else k
  }

  /**
   * The assignments `accumulator[key] = value` that flattening the first i entries of
   * `d` makes, in order: a dict value is flattened under its key path, any other value
   * is stored under it.
   */
  function LeavesUpTo(d: Json, i: nat, parent: string): seq<(string, Json)>
    requires d.JDict? && i <= |d.entries|
    decreases d, i
  {
    if i == 0 then []
    else
      var entry := d.entries[i - 1];
      assert entry in d.entries;
      var key := Prefixed(parent, entry.0);
      LeavesUpTo(d, i - 1, parent)
      + if entry.1.JDict? then LeavesUpTo(entry.1, |entry.1.entries|, key) else [(key, entry.1)]
  }

  function Leaves(d: Json, parent: string): seq<(string, Json)>
    requires d.JDict?
  {
    LeavesUpTo(d, |d.entries|, parent)
  }

  /** Making the assignments in order on a dict. */
  function Assign(acc: Json, leaves: seq<(string, Json)>): (r: Json)
    requires acc.JDict?
    ensures r.JDict?
    decreases leaves
  {
    if leaves == [] then acc else Assign(Put(acc, leaves[0].0, leaves[0].1).value, leaves[1..])
  }

  /** `_flatten_dict(d)`: a fresh accumulator and no parent key. */
  function Flattened(d: Json): (r: Json)
    requires d.JDict?
    ensures r.JDict?
  {
    Assign(JDict([]), Leaves(d, ""))
  }

  lemma {:induction false} AssignAppend(acc: Json, a: seq<(string, Json)>, b: seq<(string, Json)>)
    requires acc.JDict?
    ensures Assign(acc, a + b) == Assign(Assign(acc, a), b)
    decreases a
  {
    if a != [] {
      assert (a + b)[1..] == a[1..] + b;
      AssignAppend(Put(acc, a[0].0, a[0].1).value, a[1..], b);
    } else {
      assert a + b == b;
    }
  }

  /**
   * `_flatten_dict(dictionary, accumulator, parent_key)`: walks the entries in order,
   * recursing into dict values with the extended key and storing every other value.
   */
  method FlattenDict(dictionary: Json, accumulator: Json, parentKey: string) returns (r: Json)
    requires dictionary.JDict? && accumulator.JDict?
    ensures r == Assign(accumulator, Leaves(dictionary, parentKey))
    decreases dictionary
  {
    r := accumulator;
    for i := 0 to |dictionary.entries|
      invariant r == Assign(accumulator, LeavesUpTo(dictionary, i, parentKey))
    {
      var (k, v) := dictionary.entries[i];
      assert dictionary.entries[i] in dictionary.entries;
      var key := Prefixed(parentKey, k);
      var done := LeavesUpTo(dictionary, i, parentKey);
      if v.JDict? {
        AssignAppend(accumulator, done, Leaves(v, key));
        r := FlattenDict(v, r, key);
        continue;
      }
      AssignAppend(accumulator, done, [(key, v)]);
      r := StoreLeaf(r, key, v);
    }
  }

  /** `accumulator[k] = v`, the one assignment of a value that is not a dict. */
  function StoreLeaf(acc: Json, key: string, v: Json): (r: Json)
    requires acc.JDict?
    ensures r == Assign(acc, [(key, v)])
  {
    assert [(key, v)][1..] == [];
    Put(acc, key, v).value
  }

  /** No assignment stores a dict. */
  lemma {:induction false} LeavesAreNotDicts(d: Json, i: nat, parent: string)
    requires d.JDict? && i <= |d.entries|
    ensures forall j :: 0 <= j < |LeavesUpTo(d, i, parent)| ==> !LeavesUpTo(d, i, parent)[j].1.JDict?
    decreases d, i
  {
    if i > 0 {
      var entry := d.entries[i - 1];
      assert entry in d.entries;
      LeavesAreNotDicts(d, i - 1, parent);
      if entry.1.JDict? {
        LeavesAreNotDicts(entry.1, |entry.1.entries|, Prefixed(parent, entry.0));
      }
    }
  }

  /** A top-level entry whose value is not a dict is assigned under its own key. */
  lemma TopLevelLeaf(d: Json, i: nat)
    requires d.JDict? && i < |d.entries| && !d.entries[i].1.JDict?
    ensures d.entries[i] in Leaves(d, "")
  {
    LeavesPrefix(d, i + 1, |d.entries|, "");
    var before := LeavesUpTo(d, i, "");
    assert LeavesUpTo(d, i + 1, "") == before + [d.entries[i]];
    assert LeavesUpTo(d, i + 1, "")[|before|] == d.entries[i];
  }

  /** A leaf one level down is assigned under `<key>_<inner key>`. */
  lemma NestedLeaf(d: Json, i: nat, j: nat, parent: string)
    requires d.JDict? && i < |d.entries| && d.entries[i].1.JDict?
    requires j < |d.entries[i].1.entries| && !d.entries[i].1.entries[j].1.JDict?
    ensures var (k, inner) := d.entries[i];
      (Prefixed(Prefixed(parent, k), inner.entries[j].0), inner.entries[j].1) in Leaves(d, parent)
  {
    var (k, inner) := d.entries[i];
    var key := Prefixed(parent, k);
    LeavesPrefix(inner, j + 1, |inner.entries|, key);
    var innerBefore := LeavesUpTo(inner, j, key);
    assert LeavesUpTo(inner, j + 1, key)[|innerBefore|] == (Prefixed(key, inner.entries[j].0), inner.entries[j].1);
    LeavesPrefix(d, i + 1, |d.entries|, parent);
    var before := LeavesUpTo(d, i, parent);
    var nested := LeavesUpTo(inner, |inner.entries|, key);
    assert LeavesUpTo(d, i + 1, parent) == before + nested;
    assert LeavesUpTo(d, i + 1, parent)[|before| + |innerBefore|] == nested[|innerBefore|];
  }

  /** The assignments for fewer entries are a prefix of those for more. */
  lemma {:induction false} LeavesPrefix(d: Json, i: nat, n: nat, parent: string)
    requires d.JDict? && i <= n <= |d.entries|
    ensures LeavesUpTo(d, i, parent) <= LeavesUpTo(d, n, parent)
    decreases n
  {
    if i < n {
      LeavesPrefix(d, i, n - 1, parent);
    }
  }

  /** The value of the last assignment to `key`, if there is one. */
  function LastAssigned(leaves: seq<(string, Json)>, key: string): Option<Json>
  {
    if leaves == [] then None
    else if leaves[|leaves| - 1].0 == key then Some(leaves[|leaves| - 1].1)
    else LastAssigned(leaves[..|leaves| - 1], key)
  }

  /** After the assignments, a key holds the last value assigned to it, or what it held before. */
  lemma {:induction false} GetAfterAssign(acc: Json, leaves: seq<(string, Json)>, key: string)
    requires acc.JDict?
    ensures Get(Assign(acc, leaves), key)
      == match LastAssigned(leaves, key) case Some(v) => Success(v) case None => Get(acc, key)
  {
    if leaves != [] {
      var init := leaves[..|leaves| - 1];
      var last := leaves[|leaves| - 1];
      assert leaves == init + [last];
      AssignAppend(acc, init, [last]);
      GetAfterAssign(acc, init, key);
      var before := Assign(acc, init);
      assert Assign(before, [last]) == Put(before, last.0, last.1).value by {
        assert [last][1..] == [];
      }
      GetAfterPut(before, last.0, last.1, key);
    }
  }

  /** Every flattened value stored is not a dict, and each key holds its last assignment. */
  lemma FlattenedValues(d: Json, key: string)
    requires d.JDict?
    ensures Get(Flattened(d), key)
      == match LastAssigned(Leaves(d, ""), key) case Some(v) => Success(v) case None => Failure(KeyError(key))
    ensures Get(Flattened(d), key).Success? ==> !Get(Flattened(d), key).value.JDict?
  {
    GetAfterAssign(JDict([]), Leaves(d, ""), key);
    LeavesAreNotDicts(d, |d.entries|, "");
    LastAssignedIsLeaf(Leaves(d, ""), key);
  }

  lemma {:induction false} LastAssignedIsLeaf(leaves: seq<(string, Json)>, key: string)
    ensures LastAssigned(leaves, key).Some? ==> (key, LastAssigned(leaves, key).value) in leaves
  {
    if leaves != [] {
      var init := leaves[..|leaves| - 1];
      LastAssignedIsLeaf(init, key);
      if LastAssigned(init, key).Some? && leaves[|leaves| - 1].0 != key {
        var j :| 0 <= j < |init| && init[j] == (key, LastAssigned(init, key).value);
        assert leaves[j] == init[j];
      }
    }
  }

  // ---------------------------------------------------------------------------
  // Keys of the saved dict

  const CurrentParamsKey := "current_params"
  const HistoricalParamsKey := "historical_params"
  const SettingsKey := "settings"
  const SettingsOriginalKey := "settings_original"
  const ExpectedKeys: set<string> := {CurrentParamsKey, SettingsOriginalKey, SettingsKey, HistoricalParamsKey}
  const CorruptedMessage := "Your saved params seem to be corrupted"

  lemma SavedKeysDistinct()
    ensures CurrentParamsKey != HistoricalParamsKey && CurrentParamsKey != SettingsKey
    ensures CurrentParamsKey != SettingsOriginalKey && HistoricalParamsKey != SettingsKey
    ensures HistoricalParamsKey != SettingsOriginalKey && SettingsKey != SettingsOriginalKey
  {
    assert CurrentParamsKey[0] != HistoricalParamsKey[0] && CurrentParamsKey[0] != SettingsKey[0];
    assert CurrentParamsKey[0] != SettingsOriginalKey[0] && HistoricalParamsKey[0] != SettingsKey[0];
    assert HistoricalParamsKey[0] != SettingsOriginalKey[0] && |SettingsKey| != |SettingsOriginalKey|;
  }

  /** The four parts the store saves and loads. */
  datatype StoredParams = StoredParams(currentParams: Json, historicalParams: Json, settings: Json, settingsOriginal: Json)

  /** `_to_dict`: the four parts under their keys. */
  function ToDictOf(p: StoredParams): (d: Json)
    ensures d.JDict? && KeySet(d.entries) == ExpectedKeys
    ensures Get(d, CurrentParamsKey) == Success(p.currentParams)
    ensures Get(d, HistoricalParamsKey) == Success(p.historicalParams)
    ensures Get(d, SettingsKey) == Success(p.settings)
    ensures Get(d, SettingsOriginalKey) == Success(p.settingsOriginal)
  {
    var e := [(CurrentParamsKey, p.currentParams), (HistoricalParamsKey, p.historicalParams),
              (SettingsKey, p.settings), (SettingsOriginalKey, p.settingsOriginal)];
    SavedKeysDistinct();
    assert KeySet(e[3..]) == {SettingsOriginalKey} by { assert e[3..][1..] == []; }
    assert KeySet(e[2..]) == {SettingsKey, SettingsOriginalKey} by { assert e[2..][1..] == e[3..]; }
    assert KeySet(e[1..]) == {HistoricalParamsKey, SettingsKey, SettingsOriginalKey} by { assert e[1..][1..] == e[2..]; }
    JDict(e)
  }

  /**
   * The key check of `load_params_from_dict` and the values it takes: the dict must
   * have exactly the four keys; a non-dict has no `keys()`.
   */
  function LoadFields(paramDict: Json): (r: Result<StoredParams>)
    ensures r.Success? <==> paramDict.JDict? && KeySet(paramDict.entries) == ExpectedKeys
    ensures paramDict.JDict? && KeySet(paramDict.entries) != ExpectedKeys ==> r == Failure(ValueError(CorruptedMessage))
    ensures r.Success? ==>
      && Get(paramDict, CurrentParamsKey) == Success(r.value.currentParams)
      && Get(paramDict, HistoricalParamsKey) == Success(r.value.historicalParams)
      && Get(paramDict, SettingsKey) == Success(r.value.settings)
      && Get(paramDict, SettingsOriginalKey) == Success(r.value.settingsOriginal)
  {
    if !paramDict.JDict? then Failure(AttributeError("keys"))
    else if KeySet(paramDict.entries) != ExpectedKeys then Failure(ValueError(CorruptedMessage))
    else
      assert Has(paramDict, CurrentParamsKey) && Has(paramDict, HistoricalParamsKey);
      assert Has(paramDict, SettingsKey) && Has(paramDict, SettingsOriginalKey);
      Success(StoredParams(Get(paramDict, CurrentParamsKey).value, Get(paramDict, HistoricalParamsKey).value,
                           Get(paramDict, SettingsKey).value, Get(paramDict, SettingsOriginalKey).value))
  }

  /** What `_to_dict` writes, loading reads back unchanged. */
  lemma {:induction false} LoadToDict(p: StoredParams)
    ensures LoadFields(ToDictOf(p)) == Success(p)
  {
    var d := ToDictOf(p);
    assert Get(d, CurrentParamsKey) == Success(p.currentParams);
  }

  /** A dict missing one of the four keys, or with any other key, is rejected. */
  lemma LoadRejectsOtherKeys(paramDict: Json, key: string)
    requires paramDict.JDict?
    requires (key in ExpectedKeys && !Has(paramDict, key)) || (key !in ExpectedKeys && Has(paramDict, key))
    ensures LoadFields(paramDict) == Failure(ValueError(CorruptedMessage))
  {
  }

  // ---------------------------------------------------------------------------
  // is_converged

  function LowerChar(c: char): char
  {
    if 'A' <= c <= 'Z' then (c as int + 32) as char else c
  }

  /** `key.lower()` for ASCII letters. */
  function Lower(s: string): (r: string)
    ensures |r| == |s| && forall i :: 0 <= i < |s| ==> r[i] == LowerChar(s[i])
  {
    seq(|s|, i requires 0 <= i < |s| => LowerChar(s[i]))
  }

  predicate IsProbabilityKey(key: string)
  {
    Contains(Lower(key), "_probability")
  }

  /** `{key: value for key, value in d.items() if "_probability" in key.lower()}`, in order. */
  function ProbabilityEntries(entries: seq<(string, Json)>): (r: seq<(string, Json)>)
    ensures forall e :: e in r <==> e in entries && IsProbabilityKey(e.0)
  {
    if entries == [] then []
    else (if IsProbabilityKey(entries[0].0) then [entries[0]] else []) + ProbabilityEntries(entries[1..])
  }

  function Abs(x: real): real
  {
    if x < 0.0 then -x else x
  }

  /** Entry i of `p_new` and its counterpart in `p_old` are numbers, and so is the threshold. */
  predicate ComparableAt(pNew: seq<(string, Json)>, i: nat, pOld: Json, threshold: Json)
    requires i < |pNew|
  {
    && IsNumber(pNew[i].1) && IsNumber(threshold)
    && Has(pOld, pNew[i].0) && IsNumber(Get(pOld, pNew[i].0).value)
  }

  /** `abs(p_new[item] - p_old[item])`. */
  function ChangeAt(pNew: seq<(string, Json)>, i: nat, pOld: Json, threshold: Json): real
    requires i < |pNew| && ComparableAt(pNew, i, pOld, threshold)
  {
    Abs(NumberValue(pNew[i].1) - NumberValue(Get(pOld, pNew[i].0).value))
  }

  /** Every entry of `p_new` can be compared with its counterpart in `p_old`. */
  predicate Comparable(pNew: seq<(string, Json)>, pOld: Json, threshold: Json)
  {
    forall i :: 0 <= i < |pNew| ==> ComparableAt(pNew, i, pOld, threshold)
  }

  /** `all(diff)`: every probability moved by strictly less than the threshold. */
  predicate AllBelow(pNew: seq<(string, Json)>, pOld: Json, threshold: Json)
    requires Comparable(pNew, pOld, threshold)
  {
    forall i :: 0 <= i < |pNew| ==> ChangeAt(pNew, i, pOld, threshold) < NumberValue(threshold)
  }

  /** The flattened probability entries of a parameter dict (`p_new`, and `p_old` as a dict). */
  function ProbabilityView(d: Json): seq<(string, Json)>
    requires d.JDict?
  {
    ProbabilityEntries(Flattened(d).entries)
  }

  lemma {:induction false} AssignKeepsUniqueKeys(acc: Json, leaves: seq<(string, Json)>)
    requires acc.JDict? && UniqueKeys(acc.entries)
    ensures UniqueKeys(Assign(acc, leaves).entries)
    decreases leaves
  {
    if leaves != [] {
      PutKeepsUniqueKeys(acc, leaves[0].0, leaves[0].1);
      AssignKeepsUniqueKeys(Put(acc, leaves[0].0, leaves[0].1).value, leaves[1..]);
    }
  }

  lemma {:induction false} ProbabilityEntriesUnique(entries: seq<(string, Json)>)
    requires UniqueKeys(entries)
    ensures UniqueKeys(ProbabilityEntries(entries))
  {
    if entries != [] {
      var rest := ProbabilityEntries(entries[1..]);
      ProbabilityEntriesUnique(entries[1..]);
      if IsProbabilityKey(entries[0].0) {
        forall j | 0 <= j < |rest| ensures rest[j].0 != entries[0].0 {
          assert rest[j] in entries[1..];
        }
        assert ProbabilityEntries(entries) == [entries[0]] + rest;
      }
    }
  }

  /**
   * Parameters that did not move since the last snapshot are converged for any
   * positive threshold, provided their probabilities are numbers.
   */
  lemma UnchangedParamsConverge(d: Json, threshold: Json)
    requires d.JDict? && IsNumber(threshold) && NumberValue(threshold) > 0.0
    requires forall i :: 0 <= i < |ProbabilityView(d)| ==> IsNumber(ProbabilityView(d)[i].1)
    ensures Comparable(ProbabilityView(d), JDict(ProbabilityView(d)), threshold)
    ensures AllBelow(ProbabilityView(d), JDict(ProbabilityView(d)), threshold)
  {
    var pNew := ProbabilityView(d);
    AssignKeepsUniqueKeys(JDict([]), Leaves(d, ""));
    ProbabilityEntriesUnique(Flattened(d).entries);
    forall i | 0 <= i < |pNew| ensures Get(JDict(pNew), pNew[i].0) == Success(pNew[i].1) {
      FindUnique(pNew, i);
    }
  }

  /**
   * `diff = [abs(p_new[item] - p_old[item]) < threshold for item in p_new]` and `all(diff)`:
   * the first entry missing from `p_old` raises KeyError, the first that is not a
   * number raises TypeError.
   */
  method CompareProbabilities(pNew: seq<(string, Json)>, pOld: Json, threshold: Json) returns (r: Result<bool>)
    requires pOld.JDict?
    ensures r.Success? <==> Comparable(pNew, pOld, threshold)
    ensures r.Success? ==> (r.value <==> AllBelow(pNew, pOld, threshold))
  {
    var allBelow := true;
    for i := 0 to |pNew|
      invariant forall j :: 0 <= j < i ==> ComparableAt(pNew, j, pOld, threshold)
      invariant allBelow <==> forall j :: 0 <= j < i ==>
        ComparableAt(pNew, j, pOld, threshold) && ChangeAt(pNew, j, pOld, threshold) < NumberValue(threshold)
    {
      if !Has(pOld, pNew[i].0) {
        assert !ComparableAt(pNew, i, pOld, threshold);
        return Failure(KeyError(pNew[i].0));
      }
      if !IsNumber(pNew[i].1) || !IsNumber(Get(pOld, pNew[i].0).value) || !IsNumber(threshold) {
        assert !ComparableAt(pNew, i, pOld, threshold);
        return Failure(TypeError("unsupported operand type(s)"));
      }
      if !(ChangeAt(pNew, i, pOld, threshold) < NumberValue(threshold)) {
        allBelow := false;
      }
    }
    r := Success(allBelow);
  }

  /** The running maximum of `abs(p_new[key] - p_old[key])`, starting from 0. */
  method BiggestChange(pNew: seq<(string, Json)>, pOld: Json, threshold: Json) returns (biggestChange: real)
    requires Comparable(pNew, pOld, threshold)
    ensures forall i :: 0 <= i < |pNew| ==> ChangeAt(pNew, i, pOld, threshold) <= biggestChange
    ensures biggestChange == 0.0 || exists i :: 0 <= i < |pNew| && ChangeAt(pNew, i, pOld, threshold) == biggestChange
  {
    biggestChange := 0.0;
    for i := 0 to |pNew|
      invariant forall j :: 0 <= j < i ==> ChangeAt(pNew, j, pOld, threshold) <= biggestChange
      invariant biggestChange == 0.0 || exists j :: 0 <= j < i && ChangeAt(pNew, j, pOld, threshold) == biggestChange
    {
      var newChange := ChangeAt(pNew, i, pOld, threshold);
      if newChange > biggestChange {
        biggestChange := newChange;
      }
    }
  }

  /**
   * `param_history[-1]`: the last snapshot of a list; a dict has no key -1; the last
   * character of a string; IndexError when a list or string is empty.
   */
  function LastSnapshot(history: Json): Result<Json>
  {
    match history
    case JList(items) => if items == [] then Failure(IndexError) else Success(items[|items| - 1])
    case JDict(_) => Failure(KeyError("-1"))
    case JStr(s) => if s == [] then Failure(IndexError) else Success(JStr([s[|s| - 1]]))
    case _ => Failure(TypeError("object is not subscriptable"))
  }

  // ---------------------------------------------------------------------------
  // Bayes-factor iteration history

  /** One row of the Bayes-factor history chart data. */
  datatype BayesFactorRow = BayesFactorRow(
    iteration: nat, level: nat, numLevels: int, column: Json, m: Json, u: Json, bayesFactor: Option<real>, final: bool)

  /** `f"level_{l}"`. */
  function LevelKey(l: nat): string
  {
    "level_" + DecimalString(l)
  }

  lemma LevelKeyInjective(a: nat, b: nat)
    requires LevelKey(a) == LevelKey(b)
    ensures a == b
  {
    assert LevelKey(a)[6..] == DecimalString(a);
    assert LevelKey(b)[6..] == DecimalString(b);
    ParseDecimalString(a);
    ParseDecimalString(b);
  }

  /** `range(v)`: an int, or a bool; anything else raises TypeError. */
  function RangeBound(v: Json): Result<int>
  {
    match v
    case JInt(i) => Success(i)
    case JBool(b) => Success(if b then 1 else 0)
    case _ => Failure(TypeError("object cannot be interpreted as an integer"))
  }

  /**
   * A row as the history promises it: its iteration is one of the snapshots, `final`
   * marks exactly the last snapshot, its level is in range, and `bayes_factor` is m/u,
   * or None when u is zero.
   */
  predicate RowConsistent(row: BayesFactorRow, snapshots: nat)
  {
    && row.iteration < snapshots
    && (row.final <==> row.iteration == snapshots - 1)
    && 0 <= row.level < row.numLevels
    && IsNumber(row.m) && IsNumber(row.u)
    && row.bayesFactor == if NumberValue(row.u) == 0.0 then None else Some(NumberValue(row.m) / NumberValue(row.u))
  }

  /** `m / u`, or None on ZeroDivisionError; a non-number raises TypeError. */
  function BayesFactor(m: Json, u: Json): (r: Result<Option<real>>)
    ensures r.Success? ==> IsNumber(m) && IsNumber(u)
    ensures r.Success? ==> r.value == if NumberValue(u) == 0.0 then None else Some(NumberValue(m) / NumberValue(u))
  {
    if !IsNumber(m) || !IsNumber(u) then Failure(TypeError("unsupported operand type(s) for /"))
    else if NumberValue(u) == 0.0 then Success(None)
    else Success(Some(NumberValue(m) / NumberValue(u)))
  }

  /** One row, read from the comparison's own dict as the loop body reads it. */
  function GammaLevelRow(gamma: Json, t: nat, final: bool, numLevels: int, l: nat): Result<BayesFactorRow>
  {
    var column :- Get(gamma, "column_name");
    var m :- GetIn(gamma, [MatchDist, LevelKey(l), "probability"]);
    var u :- GetIn(gamma, [NonMatchDist, LevelKey(l), "probability"]);
    var bayesFactor :- BayesFactor(m, u);
    Success(BayesFactorRow(t, l, numLevels, column, m, u, bayesFactor, final))
  }

  /**
   * The row of level l of the comparison saved under g in a snapshot: its column, m
   * and u are what the snapshot holds at `[π, g, "column_name"]` and at the level's
   * match and non-match probability paths.
   */
  function LevelRow(snapshot: Json, t: nat, final: bool, g: string, numLevels: int, l: nat): Result<BayesFactorRow>
  {
    var column :- GetIn(snapshot, [PiKey, g, "column_name"]);
    var m :- GetIn(snapshot, ProbabilityPath(g, MatchDist, LevelKey(l)));
    var u :- GetIn(snapshot, ProbabilityPath(g, NonMatchDist, LevelKey(l)));
    var bayesFactor :- BayesFactor(m, u);
    Success(BayesFactorRow(t, l, numLevels, column, m, u, bayesFactor, final))
  }

  /** The rows of levels 0 .. n-1, in order; the first level that cannot be read decides the error. */
  function LevelRows(snapshot: Json, t: nat, final: bool, g: string, numLevels: int, n: nat): Result<seq<BayesFactorRow>>
  {
    if n == 0 then Success([])
    else
      var prev :- LevelRows(snapshot, t, final, g, numLevels, n - 1);
      var row :- LevelRow(snapshot, t, final, g, numLevels, n - 1);
      Success(prev + [row])
  }

  /** The rows of one comparison of a snapshot: one per level below its `num_levels`. */
  function ComparisonRows(snapshot: Json, t: nat, final: bool, g: string): Result<seq<BayesFactorRow>>
  {
    var numLevelsValue :- GetIn(snapshot, [PiKey, g, "num_levels"]);
    var numLevels :- RangeBound(numLevelsValue);
    LevelRows(snapshot, t, final, g, numLevels, if numLevels < 0 then 0 else numLevels)
  }

  /** The rows of the comparisons keys[..n] of a snapshot, whose `π` must be a dict. */
  function GammaRows(snapshot: Json, t: nat, final: bool, keys: seq<string>, n: nat): Result<seq<BayesFactorRow>>
    requires n <= |keys|
  {
    if n == 0 then Success([])
    else
      var prev :- GammaRows(snapshot, t, final, keys, n - 1);
      var pi :- Get(snapshot, PiKey);
      if !pi.JDict? then Failure(AttributeError("keys"))
      else
        var rows :- ComparisonRows(snapshot, t, final, keys[n - 1]);
        Success(prev + rows)
  }

  /** The comparison names of a snapshot's `π`, when it is a dict. */
  function PiKeys(snapshot: Json): Option<seq<string>>
  {
    match Get(snapshot, PiKey)
    case Success(JDict(entries)) => Some(Firsts(entries))
    case _ => None
  }

  /**
   * The comparisons listed for snapshot t: those of the current parameters for the
   * first snapshot, then those of the snapshot before; once the list is empty, no
   * snapshot is read and it stays empty.
   */
  function KeysAt(piKeys: seq<string>, history: seq<Json>, t: nat): seq<string>
    requires t <= |history|
  {
    if t == 0 then piKeys
    else
      var prev := KeysAt(piKeys, history, t - 1);
      if prev == [] then []
      else match PiKeys(history[t - 1])
        case Some(keys) => keys
        case None => []
  }

  /** The rows of snapshots 0 .. t-1, in snapshot order. */
  function SnapshotsRows(piKeys: seq<string>, history: seq<Json>, t: nat): Result<seq<BayesFactorRow>>
    requires t <= |history|
  {
    if t == 0 then Success([])
    else
      var prev :- SnapshotsRows(piKeys, history, t - 1);
      var keys := KeysAt(piKeys, history, t - 1);
      var rows :- GammaRows(history[t - 1], t - 1, t - 1 == |history| - 1, keys, |keys|);
      Success(prev + rows)
  }

  /**
   * The Bayes-factor history: the current parameters give the first list of comparisons.
   * A history that is not a list is still iterated: with nothing to iterate, or no
   * comparison to visit, no row is made; otherwise `param_history[0]` is a KeyError
   * on a dict and a one-character string on a string, which `["π"]` cannot index.
   */
  function HistoryRows(params: Json, paramHistory: Json): Result<seq<BayesFactorRow>>
  {
    var pi :- Get(params, PiKey);
    if !pi.JDict? then Failure(AttributeError("keys"))
    else match paramHistory
      case JList(items) => SnapshotsRows(Firsts(pi.entries), items, |items|)
      case JDict(entries) => if entries == [] || pi.entries == [] then Success([]) else Failure(KeyError("0"))
      case JStr(s) =>
        if s == [] || pi.entries == [] then Success([]) else Failure(TypeError("string indices must be integers"))
      case _ => Failure(TypeError("object is not iterable"))
  }

  /** Reading below two keys that are there is reading below the value they lead to. */
  lemma GetInThrough(d: Json, a: string, b: string, rest: seq<string>)
    requires Get(d, a).Success?
    ensures var x := Get(d, a).value;
      GetIn(d, [a, b] + rest) == if Get(x, b).Success? then GetIn(Get(x, b).value, rest) else Get(x, b)
  {
    assert ([a, b] + rest)[0] == a && ([a, b] + rest)[1..] == [b] + rest;
    assert ([b] + rest)[0] == b && ([b] + rest)[1..] == rest;
  }

  /** Reading a row along its paths is reading it from the comparison's dict. */
  lemma LevelRowFromGamma(snapshot: Json, t: nat, final: bool, g: string, numLevels: int, l: nat)
    requires Get(snapshot, PiKey).Success? && Get(Get(snapshot, PiKey).value, g).Success?
    ensures LevelRow(snapshot, t, final, g, numLevels, l)
      == GammaLevelRow(Get(Get(snapshot, PiKey).value, g).value, t, final, numLevels, l)
  {
    var gamma := Get(Get(snapshot, PiKey).value, g).value;
    assert [PiKey, g, "column_name"] == [PiKey, g] + ["column_name"];
    GetInThrough(snapshot, PiKey, g, ["column_name"]);
    GetInSingle(gamma, "column_name");
    assert ProbabilityPath(g, MatchDist, LevelKey(l)) == [PiKey, g] + [MatchDist, LevelKey(l), "probability"];
    assert ProbabilityPath(g, NonMatchDist, LevelKey(l)) == [PiKey, g] + [NonMatchDist, LevelKey(l), "probability"];
    GetInThrough(snapshot, PiKey, g, [MatchDist, LevelKey(l), "probability"]);
    GetInThrough(snapshot, PiKey, g, [NonMatchDist, LevelKey(l), "probability"]);
  }

  /** Reading `num_levels` along its path is reading it from `π`, then the comparison. */
  lemma NumLevelsFromGamma(snapshot: Json, g: string)
    requires Get(snapshot, PiKey).Success?
    ensures var pi := Get(snapshot, PiKey).value;
      GetIn(snapshot, [PiKey, g, "num_levels"])
      == if Get(pi, g).Success? then Get(Get(pi, g).value, "num_levels") else Get(pi, g)
  {
    assert [PiKey, g, "num_levels"] == [PiKey, g] + ["num_levels"];
    GetInThrough(snapshot, PiKey, g, ["num_levels"]);
    var pi := Get(snapshot, PiKey).value;
    if Get(pi, g).Success? {
      GetInSingle(Get(pi, g).value, "num_levels");
    }
  }

  lemma {:induction false} LevelRowsFailure(snapshot: Json, t: nat, final: bool, g: string, numLevels: int, n: nat, m: nat)
    requires n <= m && LevelRows(snapshot, t, final, g, numLevels, n).Failure?
    ensures LevelRows(snapshot, t, final, g, numLevels, m) == LevelRows(snapshot, t, final, g, numLevels, n)
  {
    if n < m {
      LevelRowsFailure(snapshot, t, final, g, numLevels, n, m - 1);
    }
  }

  lemma {:induction false} GammaRowsFailure(snapshot: Json, t: nat, final: bool, keys: seq<string>, n: nat, m: nat)
    requires n <= m <= |keys| && GammaRows(snapshot, t, final, keys, n).Failure?
    ensures GammaRows(snapshot, t, final, keys, m) == GammaRows(snapshot, t, final, keys, n)
  {
    if n < m {
      GammaRowsFailure(snapshot, t, final, keys, n, m - 1);
    }
  }

  lemma {:induction false} SnapshotsRowsFailure(piKeys: seq<string>, history: seq<Json>, n: nat, m: nat)
    requires n <= m <= |history| && SnapshotsRows(piKeys, history, n).Failure?
    ensures SnapshotsRows(piKeys, history, m) == SnapshotsRows(piKeys, history, n)
  {
    if n < m {
      SnapshotsRowsFailure(piKeys, history, n, m - 1);
    }
  }

  /** A row of snapshot t as the loop body builds it: level in range, Bayes factor m/u. */
  predicate RowAt(row: BayesFactorRow, t: nat, final: bool)
  {
    && row.iteration == t && row.final == final
    && 0 <= row.level < row.numLevels
    && IsNumber(row.m) && IsNumber(row.u)
    && row.bayesFactor == if NumberValue(row.u) == 0.0 then None else Some(NumberValue(row.m) / NumberValue(row.u))
  }

  /** A comparison gives one row per level 0 .. n-1, in level order. */
  lemma {:induction false} LevelRowsAt(snapshot: Json, t: nat, final: bool, g: string, numLevels: int, n: nat)
    requires n == 0 || n <= numLevels
    ensures var r := LevelRows(snapshot, t, final, g, numLevels, n);
      r.Success? ==> |r.value| == n && forall i :: 0 <= i < n ==>
        r.value[i].level == i && r.value[i].numLevels == numLevels && RowAt(r.value[i], t, final)
  {
    if n > 0 {
      LevelRowsAt(snapshot, t, final, g, numLevels, n - 1);
    }
  }

  lemma ComparisonRowsAt(snapshot: Json, t: nat, final: bool, g: string)
    ensures var r := ComparisonRows(snapshot, t, final, g);
      r.Success? ==> forall row :: row in r.value ==> RowAt(row, t, final)
  {
    var numLevelsValue := GetIn(snapshot, [PiKey, g, "num_levels"]);
    if numLevelsValue.Success? && RangeBound(numLevelsValue.value).Success? {
      var numLevels := RangeBound(numLevelsValue.value).value;
      LevelRowsAt(snapshot, t, final, g, numLevels, if numLevels < 0 then 0 else numLevels);
    }
  }

  lemma {:induction false} GammaRowsAt(snapshot: Json, t: nat, final: bool, keys: seq<string>, n: nat)
    requires n <= |keys|
    ensures var r := GammaRows(snapshot, t, final, keys, n);
      r.Success? ==> forall row :: row in r.value ==> RowAt(row, t, final)
  {
    if n > 0 {
      GammaRowsAt(snapshot, t, final, keys, n - 1);
      ComparisonRowsAt(snapshot, t, final, keys[n - 1]);
    }
  }

  /** Every row belongs to a snapshot before t and is consistent with n snapshots. */
  predicate RowsBelow(rows: seq<BayesFactorRow>, t: nat, n: nat)
  {
    forall i :: 0 <= i < |rows| ==> rows[i].iteration < t && RowConsistent(rows[i], n)
  }

  /** Iterations never decrease along the rows. */
  predicate IterationsAscend(rows: seq<BayesFactorRow>)
  {
    forall i, j :: 0 <= i <= j < |rows| ==> rows[i].iteration <= rows[j].iteration
  }

  lemma AppendSnapshotRows(prev: seq<BayesFactorRow>, rows: seq<BayesFactorRow>, t: nat, n: nat)
    requires t < n && RowsBelow(prev, t, n) && IterationsAscend(prev)
    requires forall row :: row in rows ==> RowAt(row, t, t == n - 1)
    ensures RowsBelow(prev + rows, t + 1, n) && IterationsAscend(prev + rows)
  {
    var all := prev + rows;
    forall i | |prev| <= i < |all| ensures all[i].iteration == t && RowConsistent(all[i], n) {
      assert all[i] == rows[i - |prev|];
      assert all[i] in rows;
    }
  }

  /** The rows of snapshots 0 .. t-1 come in snapshot order, each consistent with the history. */
  lemma {:induction false} SnapshotsRowsShape(piKeys: seq<string>, history: seq<Json>, t: nat, data: seq<BayesFactorRow>)
    requires t <= |history| && SnapshotsRows(piKeys, history, t) == Success(data)
    ensures RowsBelow(data, t, |history|) && IterationsAscend(data)
  {
    if t > 0 {
      var keys := KeysAt(piKeys, history, t - 1);
      var final := t - 1 == |history| - 1;
      var prev := SnapshotsRows(piKeys, history, t - 1).value;
      var rows := GammaRows(history[t - 1], t - 1, final, keys, |keys|).value;
      SnapshotsRowsShape(piKeys, history, t - 1, prev);
      GammaRowsAt(history[t - 1], t - 1, final, keys, |keys|);
      AppendSnapshotRows(prev, rows, t - 1, |history|);
    }
  }

  /**
   * Every row of the history belongs to one of its snapshots, with `final` exactly on
   * the last, a level below `num_levels` and the Bayes factor m/u; iterations never
   * decrease along the rows.
   */
  lemma HistoryRowsShape(params: Json, paramHistory: Json)
    ensures var r := HistoryRows(params, paramHistory);
      r.Success? && !paramHistory.JList? ==> r.value == []
    ensures var r := HistoryRows(params, paramHistory);
      r.Success? && paramHistory.JList? ==>
        && (forall i :: 0 <= i < |r.value| ==> RowConsistent(r.value[i], |paramHistory.items|))
        && IterationsAscend(r.value)
  {
    var pi := Get(params, PiKey);
    if pi.Success? && pi.value.JDict? && paramHistory.JList? {
      var r := HistoryRows(params, paramHistory);
      if r.Success? {
        SnapshotsRowsShape(Firsts(pi.value.entries), paramHistory.items, |paramHistory.items|, r.value);
      }
    }
  }

  /**
   * The outer loop of the history: the rows of every snapshot in order, starting
   * from the comparison names `gk` of the current parameters.
   */
  method AllSnapshotsHistoryRows(gk: seq<string>, history: seq<Json>) returns (r: Result<seq<BayesFactorRow>>)
    ensures r == SnapshotsRows(gk, history, |history|)
  {
    var keys := gk;
    var data: seq<BayesFactorRow> := [];
    for itNum := 0 to |history|
      invariant SnapshotsRows(gk, history, itNum) == Success(data)
      invariant keys == KeysAt(gk, history, itNum)
    {
      var rows, next := SnapshotHistoryRows(history[itNum], itNum, itNum == |history| - 1, keys);
      if rows.Failure? {
        SnapshotsRowsFailure(gk, history, itNum + 1, |history|);
        return Failure(rows.error);
      }
      SnapshotStep(gk, history, itNum, data, rows.value, next);
      keys := next;
      data := data + rows.value;
    }
    r := Success(data);
  }

  /** One more snapshot read: its rows follow, and its comparison names are the next list. */
  lemma SnapshotStep(keys0: seq<string>, history: seq<Json>, t: nat, data: seq<BayesFactorRow>, rows: seq<BayesFactorRow>, next: seq<string>)
    requires t < |history| && SnapshotsRows(keys0, history, t) == Success(data)
    requires var keys := KeysAt(keys0, history, t);
      && GammaRows(history[t], t, t == |history| - 1, keys, |keys|) == Success(rows)
      && (keys == [] ==> next == keys)
      && (keys != [] ==> PiKeys(history[t]) == Some(next))
    ensures SnapshotsRows(keys0, history, t + 1) == Success(data + rows)
    ensures KeysAt(keys0, history, t + 1) == next
  {
  }

  /**
   * The innermost loop of the history: the rows of levels 0 .. numLevels-1 of one
   * comparison, read from its dict `thisGamma` (the value saved under g in the
   * snapshot's `π`).
   */
  method ComparisonHistoryRows(snapshot: Json, t: nat, final: bool, g: string, thisGamma: Json, numLevels: int)
    returns (r: Result<seq<BayesFactorRow>>)
    requires Get(snapshot, PiKey).Success? && Get(Get(snapshot, PiKey).value, g) == Success(thisGamma)
    ensures r == LevelRows(snapshot, t, final, g, numLevels, if numLevels < 0 then 0 else numLevels)
  {
    var count := if numLevels < 0 then 0 else numLevels;
    var data: seq<BayesFactorRow> := [];
    for l := 0 to count
      invariant LevelRows(snapshot, t, final, g, numLevels, l) == Success(data)
    {
      LevelRowFromGamma(snapshot, t, final, g, numLevels, l);
      var row := GammaLevelRow(thisGamma, t, final, numLevels, l);
      if row.Failure? {
        LevelRowsFailure(snapshot, t, final, g, numLevels, l + 1, count);
        return Failure(row.error);
      }
      data := data + [row.value];
    }
    r := Success(data);
  }

  /**
   * The middle loop of the history: the rows of the comparisons `keys` of one snapshot,
   * and the snapshot's own comparison names, which `gk` holds afterwards once a
   * comparison has been read.
   */
  method SnapshotHistoryRows(snapshot: Json, t: nat, final: bool, keys: seq<string>)
    returns (r: Result<seq<BayesFactorRow>>, gk: seq<string>)
    ensures r == GammaRows(snapshot, t, final, keys, |keys|)
    ensures keys == [] ==> gk == keys
    ensures r.Success? && keys != [] ==> PiKeys(snapshot) == Some(gk)
  {
    gk := keys;
    var data: seq<BayesFactorRow> := [];
    for gi := 0 to |keys|
      invariant GammaRows(snapshot, t, final, keys, gi) == Success(data)
      invariant gi == 0 ==> gk == keys
      invariant gi > 0 ==> PiKeys(snapshot) == Some(gk)
    {
      var snapshotPi := Get(snapshot, PiKey);
      if snapshotPi.Failure? || !snapshotPi.value.JDict? {
        GammaRowsFailure(snapshot, t, final, keys, gi + 1, |keys|);
        return (if snapshotPi.Failure? then Failure(snapshotPi.error) else Failure(AttributeError("keys"))), gk;
      }
      gk := Firsts(snapshotPi.value.entries);
      NumLevelsFromGamma(snapshot, keys[gi]);
      var thisGamma := Get(snapshotPi.value, keys[gi]);
      if thisGamma.Failure? {
        GammaRowsFailure(snapshot, t, final, keys, gi + 1, |keys|);
        return Failure(thisGamma.error), gk;
      }
      var numLevelsValue := Get(thisGamma.value, "num_levels");
      if numLevelsValue.Failure? {
        GammaRowsFailure(snapshot, t, final, keys, gi + 1, |keys|);
        return Failure(numLevelsValue.error), gk;
      }
      var numLevels := RangeBound(numLevelsValue.value);
      if numLevels.Failure? {
        GammaRowsFailure(snapshot, t, final, keys, gi + 1, |keys|);
        return Failure(numLevels.error), gk;
      }
      var rows := ComparisonHistoryRows(snapshot, t, final, keys[gi], thisGamma.value, numLevels.value);
      if rows.Failure? {
        GammaRowsFailure(snapshot, t, final, keys, gi + 1, |keys|);
        return Failure(rows.error), gk;
      }
      data := data + rows.value;
    }
    r := Success(data);
  }

  // ---------------------------------------------------------------------------
  // Maximisation step

  /** A row of the maximisation step's result. */
  datatype MaximisationRow = MaximisationRow(
    columnName: string, gammaValue: nat, newProbabilityMatch: Json, newProbabilityNonMatch: Json)

  const ProportionKey := "proportion_of_matches"
  const PiKey := "π"

  function MPath(row: MaximisationRow): seq<string>
  {
    ProbabilityPath(row.columnName, MatchDist, LevelKey(row.gammaValue))
  }

  function UPath(row: MaximisationRow): seq<string>
  {
    ProbabilityPath(row.columnName, NonMatchDist, LevelKey(row.gammaValue))
  }

  /** No later row sets the same comparison level. */
  predicate LastForLevel(rows: seq<MaximisationRow>, j: nat, upTo: nat)
    requires j < upTo <= |rows|
  {
    forall k :: j < k < upTo ==> rows[k].columnName != rows[j].columnName || rows[k].gammaValue != rows[j].gammaValue
  }

  /** The probabilities of a row are where the store keeps that level's m and u. */
  predicate RowStored(params: Json, row: MaximisationRow)
  {
    GetIn(params, MPath(row)) == Success(row.newProbabilityMatch)
    && GetIn(params, UPath(row)) == Success(row.newProbabilityNonMatch)
  }

  /** Probability paths of different levels, of m and u, and the proportion key lead to different places. */
  lemma PathsDiverge(a: MaximisationRow, b: MaximisationRow)
    ensures Diverge(MPath(a), UPath(b)) && Diverge(UPath(a), MPath(b))
    ensures Diverge(MPath(a), [ProportionKey]) && Diverge(UPath(a), [ProportionKey])
    ensures a.columnName != b.columnName || a.gammaValue != b.gammaValue ==>
      Diverge(MPath(a), MPath(b)) && Diverge(UPath(a), UPath(b))
  {
    assert MPath(a)[2] != UPath(b)[2] && UPath(a)[2] != MPath(b)[2];
    assert |PiKey| != |ProportionKey|;
    assert MPath(a)[0] != [ProportionKey][0] && UPath(a)[0] != [ProportionKey][0];
    if a.columnName != b.columnName {
      assert MPath(a)[1] != MPath(b)[1] && UPath(a)[1] != UPath(b)[1];
    } else if a.gammaValue != b.gammaValue {
      if LevelKey(a.gammaValue) == LevelKey(b.gammaValue) {
        LevelKeyInjective(a.gammaValue, b.gammaValue);
      }
      assert MPath(a)[3] != MPath(b)[3] && UPath(a)[3] != UPath(b)[3];
    }
  }

  /** Setting one row's m and u keeps the proportion and every other level's values. */
  lemma SetRowFrame(params: Json, row: MaximisationRow, other: MaximisationRow)
    requires SetIn(params, MPath(row), row.newProbabilityMatch).Success?
    requires SetIn(SetIn(params, MPath(row), row.newProbabilityMatch).value, UPath(row), row.newProbabilityNonMatch).Success?
    ensures var after := SetIn(SetIn(params, MPath(row), row.newProbabilityMatch).value, UPath(row), row.newProbabilityNonMatch).value;
      && RowStored(after, row)
      && GetIn(after, [ProportionKey]) == GetIn(params, [ProportionKey])
      && (other.columnName != row.columnName || other.gammaValue != row.gammaValue ==>
           GetIn(after, MPath(other)) == GetIn(params, MPath(other)) && GetIn(after, UPath(other)) == GetIn(params, UPath(other)))
  {
    var mid := SetIn(params, MPath(row), row.newProbabilityMatch).value;
    PathsDiverge(row, other);
    PathsDiverge(row, row);
    GetInAfterSetIn(params, MPath(row), row.newProbabilityMatch);
    GetInAfterSetIn(mid, UPath(row), row.newProbabilityNonMatch);
    SetInFrame(mid, UPath(row), row.newProbabilityNonMatch, MPath(row));
    SetInFrame(params, MPath(row), row.newProbabilityMatch, [ProportionKey]);
    SetInFrame(mid, UPath(row), row.newProbabilityNonMatch, [ProportionKey]);
    if other.columnName != row.columnName || other.gammaValue != row.gammaValue {
      SetInFrame(params, MPath(row), row.newProbabilityMatch, MPath(other));
      SetInFrame(mid, UPath(row), row.newProbabilityNonMatch, MPath(other));
      SetInFrame(params, MPath(row), row.newProbabilityMatch, UPath(other));
      SetInFrame(mid, UPath(row), row.newProbabilityNonMatch, UPath(other));
    }
  }

  /**
   * One step of the populate loop: after row i is stored, every row up to i that no
   * later row up to i overrides is still stored, and so is the proportion.
   */
  lemma StoreRowKeepsLaterRows(before: Json, rows: seq<MaximisationRow>, i: nat, lambdaValue: Json)
    requires i < |rows|
    requires SetIn(before, MPath(rows[i]), rows[i].newProbabilityMatch).Success?
    requires SetIn(SetIn(before, MPath(rows[i]), rows[i].newProbabilityMatch).value, UPath(rows[i]), rows[i].newProbabilityNonMatch).Success?
    requires GetIn(before, [ProportionKey]) == Success(lambdaValue)
    requires forall j :: 0 <= j < i && LastForLevel(rows, j, i) ==> RowStored(before, rows[j])
    ensures var after := SetIn(SetIn(before, MPath(rows[i]), rows[i].newProbabilityMatch).value, UPath(rows[i]), rows[i].newProbabilityNonMatch).value;
      && GetIn(after, [ProportionKey]) == Success(lambdaValue)
      && forall j :: 0 <= j < i + 1 && LastForLevel(rows, j, i + 1) ==> RowStored(after, rows[j])
  {
    SetRowFrame(before, rows[i], rows[i]);
    forall j | 0 <= j < i && LastForLevel(rows, j, i + 1)
      ensures RowStored(SetIn(SetIn(before, MPath(rows[i]), rows[i].newProbabilityMatch).value, UPath(rows[i]), rows[i].newProbabilityNonMatch).value, rows[j])
    {
      assert LastForLevel(rows, j, i);
      SetRowFrame(before, rows[i], rows[j]);
    }
  }

  /** The level dicts a row's m and u go into. */
  function MLevelPath(row: MaximisationRow): seq<string>
  {
    LevelPath(row.columnName, MatchDist, LevelKey(row.gammaValue))
  }

  function ULevelPath(row: MaximisationRow): seq<string>
  {
    LevelPath(row.columnName, NonMatchDist, LevelKey(row.gammaValue))
  }

  /** Both level dicts a row writes into are there. */
  predicate LevelsPresent(params: Json, row: MaximisationRow)
  {
    DictAt(params, MLevelPath(row)) && DictAt(params, ULevelPath(row))
  }

  /** None of the first `upTo` rows writes to `q`. */
  predicate Unwritten(rows: seq<MaximisationRow>, upTo: nat, q: seq<string>)
    requires upTo <= |rows|
  {
    forall j :: 0 <= j < upTo ==> MPath(rows[j]) != q && UPath(rows[j]) != q
  }

  /** Every key other than the proportion and `π` reads alike in both. */
  ghost predicate SameOtherParams(a: Json, b: Json)
  {
    forall k :: k != ProportionKey && k != PiKey ==> Get(a, k) == Get(b, k)
  }

  /**
   * The state of the populate loop after `upTo` rows, from the reset parameters `start`
   * of the parameters `original`: λ in place, the rows so far stored (last one wins),
   * the level dicts as in `start`, the probabilities no row wrote still None, and
   * nothing outside `π` touched.
   */
  ghost predicate Populated(params: Json, start: Json, original: Json, rows: seq<MaximisationRow>, upTo: nat, lambdaValue: Json)
    requires upTo <= |rows|
  {
    && GetIn(params, [ProportionKey]) == Success(lambdaValue)
    && StoredUpTo(params, rows, upTo)
    && LevelDictsAsIn(params, start, rows)
    && NullsKept(params, start, rows, upTo)
    && SameOtherParams(params, original)
  }

  /** Every row so far that no later row so far overrides is stored. */
  predicate StoredUpTo(params: Json, rows: seq<MaximisationRow>, upTo: nat)
    requires upTo <= |rows|
  {
    forall j :: 0 <= j < upTo && LastForLevel(rows, j, upTo) ==> RowStored(params, rows[j])
  }

  /** Every row's level dicts are there exactly when they are in `start`. */
  predicate LevelDictsAsIn(params: Json, start: Json, rows: seq<MaximisationRow>)
  {
    forall j :: 0 <= j < |rows| ==>
      (DictAt(params, MLevelPath(rows[j])) <==> DictAt(start, MLevelPath(rows[j])))
      && (DictAt(params, ULevelPath(rows[j])) <==> DictAt(start, ULevelPath(rows[j])))
  }

  /** A place that reads None in `start` and that no row so far writes still reads None. */
  ghost predicate NullsKept(params: Json, start: Json, rows: seq<MaximisationRow>, upTo: nat)
    requires upTo <= |rows|
  {
    forall q :: |q| == 5 && GetIn(start, q) == Success(JNull) && Unwritten(rows, upTo, q) ==> GetIn(params, q) == Success(JNull)
  }

  /** After λ and the reset, the loop starts from the state it keeps. */
  lemma PopulateStart(original: Json, rows: seq<MaximisationRow>, lambdaValue: Json)
    requires original.JDict?
    ensures var start := ResetAllProbabilities(Put(original, ProportionKey, lambdaValue).value);
      && Populated(start, start, original, rows, 0, lambdaValue)
      && (forall j :: 0 <= j < |rows| ==> (LevelsPresent(start, rows[j]) <==> LevelsPresent(original, rows[j])))
      && forall g, dist, lk :: (dist == MatchDist || dist == NonMatchDist) && GetIn(original, ProbabilityPath(g, dist, lk)).Success? ==>
           GetIn(start, ProbabilityPath(g, dist, lk)) == Success(JNull)
  {
    var withLambda := Put(original, ProportionKey, lambdaValue).value;
    var start := ResetAllProbabilities(withLambda);
    assert |PiKey| != |ProportionKey|;
    GetAfterPut(original, ProportionKey, lambdaValue, ProportionKey);
    GetInSingle(start, ProportionKey);
    PutFrame(original, ProportionKey, lambdaValue);
    assert SetIn(original, [ProportionKey], lambdaValue) == Put(original, ProportionKey, lambdaValue);
    forall g, dist, lk | dist == MatchDist || dist == NonMatchDist
      ensures DictAt(start, LevelPath(g, dist, lk)) <==> DictAt(original, LevelPath(g, dist, lk))
      ensures GetIn(original, ProbabilityPath(g, dist, lk)).Success? ==> GetIn(start, ProbabilityPath(g, dist, lk)) == Success(JNull)
    {
      assert LevelPath(g, dist, lk)[0] != ProportionKey && ProbabilityPath(g, dist, lk)[0] != ProportionKey;
      SetInFrame(original, [ProportionKey], lambdaValue, LevelPath(g, dist, lk));
      SetInFrame(original, [ProportionKey], lambdaValue, ProbabilityPath(g, dist, lk));
      ResetKeepsLevelDicts(withLambda, g, dist, lk);
      if GetIn(original, ProbabilityPath(g, dist, lk)).Success? {
        ResetNullsProbabilities(withLambda, g, dist, lk);
      }
    }
  }

  /** Storing row i keeps the loop's state, one row further on; it succeeds exactly when row i's level dicts are there. */
  lemma PopulateStep(d: Json, start: Json, original: Json, rows: seq<MaximisationRow>, i: nat, lambdaValue: Json)
    requires i < |rows| && Populated(d, start, original, rows, i, lambdaValue)
    ensures var setM := SetIn(d, MPath(rows[i]), rows[i].newProbabilityMatch);
      && (setM.Success? <==> DictAt(start, MLevelPath(rows[i])))
      && (setM.Success? ==>
           var setU := SetIn(setM.value, UPath(rows[i]), rows[i].newProbabilityNonMatch);
           && (setU.Success? <==> DictAt(start, ULevelPath(rows[i])))
           && (setU.Success? ==> Populated(setU.value, start, original, rows, i + 1, lambdaValue))
           && (setU.Success? && PresentUpTo(start, rows, i) ==> PresentUpTo(start, rows, i + 1)))
  {
    var row := rows[i];
    assert MPath(row)[..4] == MLevelPath(row) && UPath(row)[..4] == ULevelPath(row);
    SetInSucceeds(d, MPath(row), row.newProbabilityMatch);
    var setM := SetIn(d, MPath(row), row.newProbabilityMatch);
    if setM.Success? {
      var d1 := setM.value;
      SetInKeepsDicts(d, MPath(row), row.newProbabilityMatch, ULevelPath(row));
      SetInSucceeds(d1, UPath(row), row.newProbabilityNonMatch);
      var setU := SetIn(d1, UPath(row), row.newProbabilityNonMatch);
      if setU.Success? {
        PopulateStepKeeps(d, d1, setU.value, start, original, rows, i, lambdaValue);
      }
    }
  }

  lemma PopulateStepKeeps(d: Json, d1: Json, d2: Json, start: Json, original: Json, rows: seq<MaximisationRow>, i: nat, lambdaValue: Json)
    requires i < |rows| && Populated(d, start, original, rows, i, lambdaValue)
    requires SetIn(d, MPath(rows[i]), rows[i].newProbabilityMatch) == Success(d1)
    requires SetIn(d1, UPath(rows[i]), rows[i].newProbabilityNonMatch) == Success(d2)
    ensures Populated(d2, start, original, rows, i + 1, lambdaValue)
  {
    assert GetIn(d2, [ProportionKey]) == Success(lambdaValue) && StoredUpTo(d2, rows, i + 1) by {
      StoreRowKeepsLaterRows(d, rows, i, lambdaValue);
    }
    StepKeepsLevelDicts(d, d1, d2, start, rows, i);
    StepKeepsNulls(d, d1, d2, start, rows, i);
    StepKeepsOtherParams(d, d1, d2, original, rows[i]);
  }

  /** Storing a row keeps every row's level dicts as they were. */
  lemma StepKeepsLevelDicts(d: Json, d1: Json, d2: Json, start: Json, rows: seq<MaximisationRow>, i: nat)
    requires i < |rows| && LevelDictsAsIn(d, start, rows)
    requires SetIn(d, MPath(rows[i]), rows[i].newProbabilityMatch) == Success(d1)
    requires SetIn(d1, UPath(rows[i]), rows[i].newProbabilityNonMatch) == Success(d2)
    ensures LevelDictsAsIn(d2, start, rows)
  {
    var row := rows[i];
    forall j | 0 <= j < |rows|
      ensures DictAt(d2, MLevelPath(rows[j])) <==> DictAt(d, MLevelPath(rows[j]))
      ensures DictAt(d2, ULevelPath(rows[j])) <==> DictAt(d, ULevelPath(rows[j]))
    {
      SetInKeepsDicts(d, MPath(row), row.newProbabilityMatch, MLevelPath(rows[j]));
      SetInKeepsDicts(d1, UPath(row), row.newProbabilityNonMatch, MLevelPath(rows[j]));
      SetInKeepsDicts(d, MPath(row), row.newProbabilityMatch, ULevelPath(rows[j]));
      SetInKeepsDicts(d1, UPath(row), row.newProbabilityNonMatch, ULevelPath(rows[j]));
    }
  }

  /** Storing row i keeps None wherever no row up to i writes. */
  lemma StepKeepsNulls(d: Json, d1: Json, d2: Json, start: Json, rows: seq<MaximisationRow>, i: nat)
    requires i < |rows| && NullsKept(d, start, rows, i)
    requires SetIn(d, MPath(rows[i]), rows[i].newProbabilityMatch) == Success(d1)
    requires SetIn(d1, UPath(rows[i]), rows[i].newProbabilityNonMatch) == Success(d2)
    ensures NullsKept(d2, start, rows, i + 1)
  {
    var row := rows[i];
    forall q | |q| == 5 && GetIn(start, q) == Success(JNull) && Unwritten(rows, i + 1, q)
      ensures GetIn(d2, q) == Success(JNull)
    {
      assert Unwritten(rows, i, q);
      SameLengthDiverge(MPath(row), q);
      SameLengthDiverge(UPath(row), q);
      SetInFrame(d, MPath(row), row.newProbabilityMatch, q);
      SetInFrame(d1, UPath(row), row.newProbabilityNonMatch, q);
    }
  }

  /** Storing a row touches nothing outside `π`. */
  lemma StepKeepsOtherParams(d: Json, d1: Json, d2: Json, original: Json, row: MaximisationRow)
    requires SameOtherParams(d, original)
    requires SetIn(d, MPath(row), row.newProbabilityMatch) == Success(d1)
    requires SetIn(d1, UPath(row), row.newProbabilityNonMatch) == Success(d2)
    ensures SameOtherParams(d2, original)
  {
    forall k | k != ProportionKey && k != PiKey
      ensures Get(d2, k) == Get(original, k)
    {
      assert MPath(row)[0] != [k][0] && UPath(row)[0] != [k][0];
      SetInFrame(d, MPath(row), row.newProbabilityMatch, [k]);
      SetInFrame(d1, UPath(row), row.newProbabilityNonMatch, [k]);
      GetInSingle(d, k);
      GetInSingle(d1, k);
      GetInSingle(d2, k);
    }
  }

  /** The first n rows' level dicts are all there. */
  predicate PresentUpTo(params: Json, rows: seq<MaximisationRow>, n: nat)
    requires n <= |rows|
  {
    forall j :: 0 <= j < n ==> LevelsPresent(params, rows[j])
  }

  /** The parameters are a dict holding every level dict a row names. */
  predicate PopulateGoesThrough(params: Json, rows: seq<MaximisationRow>)
  {
    params.JDict? && forall j :: 0 <= j < |rows| ==> LevelsPresent(params, rows[j])
  }

  /** Every m or u probability readable in `before` that no row writes reads None in `after`. */
  ghost predicate UnwrittenReadNone(before: Json, after: Json, rows: seq<MaximisationRow>)
  {
    forall g, dist, lk ::
      ((dist == MatchDist || dist == NonMatchDist) && GetIn(before, ProbabilityPath(g, dist, lk)).Success?
       && Unwritten(rows, |rows|, ProbabilityPath(g, dist, lk))) ==> GetIn(after, ProbabilityPath(g, dist, lk)) == Success(JNull)
  }

  /** When every row is stored, the probabilities of levels no row mentions are None. */
  lemma PopulatedNulls(params: Json, start: Json, original: Json, rows: seq<MaximisationRow>, lambdaValue: Json)
    requires Populated(params, start, original, rows, |rows|, lambdaValue)
    requires forall g, dist, lk :: (dist == MatchDist || dist == NonMatchDist) && GetIn(original, ProbabilityPath(g, dist, lk)).Success? ==>
      GetIn(start, ProbabilityPath(g, dist, lk)) == Success(JNull)
    ensures UnwrittenReadNone(original, params, rows)
  {
    forall g, dist, lk | (dist == MatchDist || dist == NonMatchDist) && GetIn(original, ProbabilityPath(g, dist, lk)).Success?
      && Unwritten(rows, |rows|, ProbabilityPath(g, dist, lk))
      ensures GetIn(params, ProbabilityPath(g, dist, lk)) == Success(JNull)
    {
      assert |ProbabilityPath(g, dist, lk)| == 5;
    }
  }

  /** A level dict that has a `probability` gets None there; anything else is left alone. */
  function ResetLevel(level: Json): (r: Json)
    ensures r.JDict? <==> level.JDict?
  {
    if Has(level, "probability") then Put(level, "probability", JNull).value else level
  }

  function ResetLevels(levels: seq<(string, Json)>): (r: seq<(string, Json)>)
    ensures |r| == |levels|
    ensures forall i :: 0 <= i < |levels| ==> r[i] == (levels[i].0, ResetLevel(levels[i].1))
  {
    if levels == [] then []
    else [(levels[0].0, ResetLevel(levels[0].1))] + ResetLevels(levels[1..])
  }

  const MatchDist := "prob_dist_match"
  const NonMatchDist := "prob_dist_non_match"

  function ResetDistribution(gamma: Json, key: string): (r: Json)
    requires gamma.JDict?
    ensures r.JDict?
  {
    if Has(gamma, key) && Get(gamma, key).value.JDict?
    then Put(gamma, key, JDict(ResetLevels(Get(gamma, key).value.entries))).value
    else gamma
  }

  /** A comparison's match and non-match levels reset; a value that is not a dict is left alone. */
  function ResetGamma(gamma: Json): Json
  {
    if gamma.JDict? then ResetDistribution(ResetDistribution(gamma, MatchDist), NonMatchDist) else gamma
  }

  function ResetGammas(gammas: seq<(string, Json)>): (r: seq<(string, Json)>)
    ensures |r| == |gammas|
    ensures forall i :: 0 <= i < |gammas| ==> r[i] == (gammas[i].0, ResetGamma(gammas[i].1))
  {
    if gammas == [] then []
    else [(gammas[0].0, ResetGamma(gammas[0].1))] + ResetGammas(gammas[1..])
  }

  /** `[π, g, dist, lk]`: the dict of one level of one comparison. */
  function LevelPath(g: string, dist: string, lk: string): seq<string>
  {
    [PiKey, g, dist, lk]
  }

  /** `[π, g, dist, lk, "probability"]`: where that level keeps its probability. */
  function ProbabilityPath(g: string, dist: string, lk: string): (p: seq<string>)
    ensures p == LevelPath(g, dist, lk) + ["probability"]
  {
    [PiKey, g, dist, lk, "probability"]
  }

  /** Looking a key up in reset entries finds the reset value, or fails as before. */
  lemma GetResetLevels(levels: seq<(string, Json)>, key: string)
    ensures var before := Get(JDict(levels), key);
      Get(JDict(ResetLevels(levels)), key) == if before.Success? then Success(ResetLevel(before.value)) else before
  {
    FindSameKeys(levels, ResetLevels(levels), key);
  }

  lemma GetResetGammas(gammas: seq<(string, Json)>, key: string)
    ensures var before := Get(JDict(gammas), key);
      Get(JDict(ResetGammas(gammas)), key) == if before.Success? then Success(ResetGamma(before.value)) else before
  {
    FindSameKeys(gammas, ResetGammas(gammas), key);
  }

  /** Resetting one distribution leaves the other key as it was. */
  lemma ResetDistributionFrame(gamma: Json, key: string, other: string)
    requires gamma.JDict? && other != key
    ensures Get(ResetDistribution(gamma, key), other) == Get(gamma, other)
  {
    if Has(gamma, key) && Get(gamma, key).value.JDict? {
      GetAfterPut(gamma, key, JDict(ResetLevels(Get(gamma, key).value.entries)), other);
    }
  }

  /** Resetting a distribution makes its levels the reset levels, when it is a dict. */
  lemma ResetDistributionAt(gamma: Json, key: string)
    requires gamma.JDict?
    ensures var before := Get(gamma, key);
      Get(ResetDistribution(gamma, key), key)
      == if before.Success? && before.value.JDict? then Success(JDict(ResetLevels(before.value.entries))) else before
  {
    if Has(gamma, key) && Get(gamma, key).value.JDict? {
      GetAfterPut(gamma, key, JDict(ResetLevels(Get(gamma, key).value.entries)), key);
    }
  }

  /** A reset comparison's distribution holds the reset levels, when it is a dict. */
  lemma ResetGammaAt(gamma: Json, dist: string)
    requires dist == MatchDist || dist == NonMatchDist
    ensures var before := Get(gamma, dist);
      Get(ResetGamma(gamma), dist)
      == if before.Success? && before.value.JDict? then Success(JDict(ResetLevels(before.value.entries))) else before
  {
    if gamma.JDict? {
      var half := ResetDistribution(gamma, MatchDist);
      assert MatchDist[10] != NonMatchDist[10];
      if dist == MatchDist {
        ResetDistributionAt(gamma, MatchDist);
        ResetDistributionFrame(half, NonMatchDist, MatchDist);
      } else {
        ResetDistributionFrame(gamma, MatchDist, NonMatchDist);
        ResetDistributionAt(half, NonMatchDist);
      }
    }
  }

  /** Within a comparison: the reset level where there was a level, the same failure otherwise. */
  lemma ResetGammaPath(gamma: Json, dist: string, lk: string)
    requires dist == MatchDist || dist == NonMatchDist
    ensures var before := GetIn(gamma, [dist, lk]);
      GetIn(ResetGamma(gamma), [dist, lk]) == if before.Success? then Success(ResetLevel(before.value)) else before
  {
    GetInPair(gamma, dist, lk);
    GetInPair(ResetGamma(gamma), dist, lk);
    ResetGammaAt(gamma, dist);
    var before := Get(gamma, dist);
    if before.Success? && before.value.JDict? {
      GetResetLevels(before.value.entries, lk);
    }
  }

  lemma GetInPair(d: Json, a: string, b: string)
    ensures GetIn(d, [a, b]) == if Get(d, a).Success? then Get(Get(d, a).value, b) else Get(d, a)
  {
    assert [a, b][1..] == [b] && [b][1..] == [];
    if Get(d, a).Success? {
      var child := Get(d, a).value;
      if Get(child, b).Success? {
        assert GetIn(Get(child, b).value, []) == Success(Get(child, b).value);
      }
    }
  }

  /** Within `π`: the same, one key up. */
  lemma ResetGammasPath(gammas: seq<(string, Json)>, g: string, dist: string, lk: string)
    requires dist == MatchDist || dist == NonMatchDist
    ensures var before := GetIn(JDict(gammas), [g, dist, lk]);
      GetIn(JDict(ResetGammas(gammas)), [g, dist, lk]) == if before.Success? then Success(ResetLevel(before.value)) else before
  {
    assert [g, dist, lk][1..] == [dist, lk];
    GetResetGammas(gammas, g);
    match Get(JDict(gammas), g)
    case Failure(_) =>
    case Success(gamma) => ResetGammaPath(gamma, dist, lk);
  }

  /**
   * What the reset leaves at a level path: the reset level where there was a level,
   * and the same failure where there was none.
   */
  lemma ResetAt(params: Json, g: string, dist: string, lk: string)
    requires params.JDict? && (dist == MatchDist || dist == NonMatchDist)
    ensures var before := GetIn(params, LevelPath(g, dist, lk));
      GetIn(ResetAllProbabilities(params), LevelPath(g, dist, lk))
      == if before.Success? then Success(ResetLevel(before.value)) else before
  {
    var path := LevelPath(g, dist, lk);
    assert path[0] == PiKey && path[1..] == [g, dist, lk];
    if Has(params, PiKey) && Get(params, PiKey).value.JDict? {
      var pi := Get(params, PiKey).value;
      GetAfterPut(params, PiKey, JDict(ResetGammas(pi.entries)), PiKey);
      ResetGammasPath(pi.entries, g, dist, lk);
    }
  }

  /**
   * `reset_all_probabilities`: the m and u probability of every level of every
   * comparison under `π` becomes None; every level dict stays a dict and no new
   * one appears; nothing outside `π` changes.
   */
  function ResetAllProbabilities(params: Json): (r: Json)
    requires params.JDict?
    ensures r.JDict?
    ensures forall k :: k != PiKey ==> Get(r, k) == Get(params, k)
  {
    if Has(params, PiKey) && Get(params, PiKey).value.JDict?
    then
      var r := Put(params, PiKey, JDict(ResetGammas(Get(params, PiKey).value.entries))).value;
      PutFrame(params, PiKey, JDict(ResetGammas(Get(params, PiKey).value.entries)));
      r
    else params
  }

  /** After the reset, every probability that could be read reads None. */
  lemma ResetNullsProbabilities(params: Json, g: string, dist: string, lk: string)
    requires params.JDict? && (dist == MatchDist || dist == NonMatchDist)
    requires GetIn(params, ProbabilityPath(g, dist, lk)).Success?
    ensures GetIn(ResetAllProbabilities(params), ProbabilityPath(g, dist, lk)) == Success(JNull)
  {
    var r := ResetAllProbabilities(params);
    ResetAt(params, g, dist, lk);
    GetInAppend(params, LevelPath(g, dist, lk), "probability");
    GetInAppend(r, LevelPath(g, dist, lk), "probability");
    var level := GetIn(params, LevelPath(g, dist, lk)).value;
    GetAfterPut(level, "probability", JNull, "probability");
  }

  /** The reset keeps the level dicts exactly where they were. */
  lemma ResetKeepsLevelDicts(params: Json, g: string, dist: string, lk: string)
    requires params.JDict? && (dist == MatchDist || dist == NonMatchDist)
    ensures DictAt(ResetAllProbabilities(params), LevelPath(g, dist, lk)) <==> DictAt(params, LevelPath(g, dist, lk))
  {
    ResetAt(params, g, dist, lk);
  }

  /** `[π, g]`: a comparison's entry. */
  function ComparisonPath(g: string): seq<string>
  {
    [PiKey, g]
  }

  /** `[π, g, k]`: a key of a comparison's dict, such as `num_levels` or `column_name`. */
  function FieldPath(g: string, k: string): seq<string>
  {
    [PiKey, g, k]
  }

  /** `[π, g, dist, lk, k]`: a key of one level's dict. */
  function LevelFieldPath(g: string, dist: string, lk: string, k: string): (p: seq<string>)
    ensures p == LevelPath(g, dist, lk) + [k]
  {
    [PiKey, g, dist, lk, k]
  }

  /**
   * `π` alike in both apart from the m and u probabilities: the same comparisons,
   * every other key of a comparison alike, the same levels in each distribution, and
   * every key of a level other than `probability` alike.
   */
  ghost predicate SamePiShape(a: Json, b: Json)
  {
    && (forall g :: GetIn(a, ComparisonPath(g)).Success? <==> GetIn(b, ComparisonPath(g)).Success?)
    && (forall g, k :: k != MatchDist && k != NonMatchDist ==> GetIn(a, FieldPath(g, k)) == GetIn(b, FieldPath(g, k)))
    && (forall g, dist, lk :: (dist == MatchDist || dist == NonMatchDist) ==>
          (GetIn(a, LevelPath(g, dist, lk)).Success? <==> GetIn(b, LevelPath(g, dist, lk)).Success?))
    && (forall g, dist, lk, k :: (dist == MatchDist || dist == NonMatchDist) && k != "probability" ==>
          GetIn(a, LevelFieldPath(g, dist, lk, k)) == GetIn(b, LevelFieldPath(g, dist, lk, k)))
  }

  lemma SamePiShapeTrans(a: Json, b: Json, c: Json)
    requires SamePiShape(a, b) && SamePiShape(b, c)
    ensures SamePiShape(a, c)
  {
  }

  /** Writing one m or u probability keeps the shape of `π`. */
  lemma WriteKeepsPiShape(d: Json, g0: string, dist0: string, lk0: string, v: Json)
    requires dist0 == MatchDist || dist0 == NonMatchDist
    requires SetIn(d, ProbabilityPath(g0, dist0, lk0), v).Success?
    ensures SamePiShape(SetIn(d, ProbabilityPath(g0, dist0, lk0), v).value, d)
  {
    var path := ProbabilityPath(g0, dist0, lk0);
    forall g ensures GetIn(SetIn(d, path, v).value, ComparisonPath(g)).Success? <==> GetIn(d, ComparisonPath(g)).Success? {
      SetInKeepsKeys(d, path, v, ComparisonPath(g));
    }
    forall g, k | k != MatchDist && k != NonMatchDist
      ensures GetIn(SetIn(d, path, v).value, FieldPath(g, k)) == GetIn(d, FieldPath(g, k))
    {
      assert path[2] != FieldPath(g, k)[2];
      SetInFrame(d, path, v, FieldPath(g, k));
    }
    forall g, dist, lk | dist == MatchDist || dist == NonMatchDist
      ensures GetIn(SetIn(d, path, v).value, LevelPath(g, dist, lk)).Success? <==> GetIn(d, LevelPath(g, dist, lk)).Success?
    {
      SetInKeepsKeys(d, path, v, LevelPath(g, dist, lk));
    }
    forall g, dist, lk, k | (dist == MatchDist || dist == NonMatchDist) && k != "probability"
      ensures GetIn(SetIn(d, path, v).value, LevelFieldPath(g, dist, lk, k)) == GetIn(d, LevelFieldPath(g, dist, lk, k))
    {
      assert path[4] != LevelFieldPath(g, dist, lk, k)[4];
      SetInFrame(d, path, v, LevelFieldPath(g, dist, lk, k));
    }
  }

  /** Storing a row keeps the shape of `π`. */
  lemma StepKeepsPiShape(d: Json, d1: Json, d2: Json, original: Json, row: MaximisationRow)
    requires SamePiShape(d, original)
    requires SetIn(d, MPath(row), row.newProbabilityMatch) == Success(d1)
    requires SetIn(d1, UPath(row), row.newProbabilityNonMatch) == Success(d2)
    ensures SamePiShape(d2, original)
  {
    WriteKeepsPiShape(d, row.columnName, MatchDist, LevelKey(row.gammaValue), row.newProbabilityMatch);
    WriteKeepsPiShape(d1, row.columnName, NonMatchDist, LevelKey(row.gammaValue), row.newProbabilityNonMatch);
    SamePiShapeTrans(d1, d, original);
    SamePiShapeTrans(d2, d1, original);
  }

  /** Writing `proportion_of_matches` keeps the shape of `π`. */
  lemma ProportionKeepsPiShape(d: Json, lambdaValue: Json)
    requires d.JDict?
    ensures SamePiShape(Put(d, ProportionKey, lambdaValue).value, d)
  {
    var path := [ProportionKey];
    assert SetIn(d, path, lambdaValue) == Put(d, ProportionKey, lambdaValue);
    assert |PiKey| != |ProportionKey|;
    forall g ensures GetIn(SetIn(d, path, lambdaValue).value, ComparisonPath(g)) == GetIn(d, ComparisonPath(g)) {
      assert path[0] != ComparisonPath(g)[0];
      SetInFrame(d, path, lambdaValue, ComparisonPath(g));
    }
    forall g, k ensures GetIn(SetIn(d, path, lambdaValue).value, FieldPath(g, k)) == GetIn(d, FieldPath(g, k)) {
      assert path[0] != FieldPath(g, k)[0];
      SetInFrame(d, path, lambdaValue, FieldPath(g, k));
    }
    forall g, dist, lk ensures GetIn(SetIn(d, path, lambdaValue).value, LevelPath(g, dist, lk)) == GetIn(d, LevelPath(g, dist, lk)) {
      assert path[0] != LevelPath(g, dist, lk)[0];
      SetInFrame(d, path, lambdaValue, LevelPath(g, dist, lk));
    }
    forall g, dist, lk, k
      ensures GetIn(SetIn(d, path, lambdaValue).value, LevelFieldPath(g, dist, lk, k)) == GetIn(d, LevelFieldPath(g, dist, lk, k))
    {
      assert path[0] != LevelFieldPath(g, dist, lk, k)[0];
      SetInFrame(d, path, lambdaValue, LevelFieldPath(g, dist, lk, k));
    }
  }

  /** Resetting a comparison touches none of its keys but the two distributions. */
  lemma ResetGammaFrame(gamma: Json, k: string)
    requires k != MatchDist && k != NonMatchDist
    ensures Get(ResetGamma(gamma), k) == Get(gamma, k)
  {
    if gamma.JDict? {
      ResetDistributionFrame(gamma, MatchDist, k);
      ResetDistributionFrame(ResetDistribution(gamma, MatchDist), NonMatchDist, k);
    }
  }

  /** Resetting a level touches none of its keys but `probability`. */
  lemma ResetLevelFrame(level: Json, k: string)
    requires k != "probability"
    ensures Get(ResetLevel(level), k) == Get(level, k)
  {
    if Has(level, "probability") {
      GetAfterPut(level, "probability", JNull, k);
    }
  }

  /** The reset keeps the comparisons and their other keys. */
  lemma ResetKeepsComparisons(params: Json, g: string, k: string)
    requires params.JDict? && k != MatchDist && k != NonMatchDist
    ensures GetIn(ResetAllProbabilities(params), ComparisonPath(g)).Success? <==> GetIn(params, ComparisonPath(g)).Success?
    ensures GetIn(ResetAllProbabilities(params), FieldPath(g, k)) == GetIn(params, FieldPath(g, k))
  {
    var r := ResetAllProbabilities(params);
    if Has(params, PiKey) && Get(params, PiKey).value.JDict? {
      var pi := Get(params, PiKey).value;
      GetAfterPut(params, PiKey, JDict(ResetGammas(pi.entries)), PiKey);
      GetInPair(r, PiKey, g);
      GetInPair(params, PiKey, g);
      GetResetGammas(pi.entries, g);
      assert FieldPath(g, k) == [PiKey, g] + [k];
      GetInThrough(r, PiKey, g, [k]);
      GetInThrough(params, PiKey, g, [k]);
      var gamma := Get(pi, g);
      if gamma.Success? {
        GetInSingle(gamma.value, k);
        GetInSingle(ResetGamma(gamma.value), k);
        ResetGammaFrame(gamma.value, k);
      }
    }
  }

  /** The reset keeps the levels and their other keys. */
  lemma ResetKeepsLevelFields(params: Json, g: string, dist: string, lk: string, k: string)
    requires params.JDict? && (dist == MatchDist || dist == NonMatchDist) && k != "probability"
    ensures GetIn(ResetAllProbabilities(params), LevelPath(g, dist, lk)).Success? <==> GetIn(params, LevelPath(g, dist, lk)).Success?
    ensures GetIn(ResetAllProbabilities(params), LevelFieldPath(g, dist, lk, k)) == GetIn(params, LevelFieldPath(g, dist, lk, k))
  {
    var r := ResetAllProbabilities(params);
    ResetAt(params, g, dist, lk);
    GetInAppend(params, LevelPath(g, dist, lk), k);
    GetInAppend(r, LevelPath(g, dist, lk), k);
    var before := GetIn(params, LevelPath(g, dist, lk));
    if before.Success? {
      ResetLevelFrame(before.value, k);
    }
  }

  /** `reset_all_probabilities` keeps the shape of `π`. */
  lemma ResetKeepsPiShape(params: Json)
    requires params.JDict?
    ensures SamePiShape(ResetAllProbabilities(params), params)
  {
    var r := ResetAllProbabilities(params);
    forall g ensures GetIn(r, ComparisonPath(g)).Success? <==> GetIn(params, ComparisonPath(g)).Success? {
      ResetKeepsComparisons(params, g, "num_levels");
    }
    forall g, k | k != MatchDist && k != NonMatchDist ensures GetIn(r, FieldPath(g, k)) == GetIn(params, FieldPath(g, k)) {
      ResetKeepsComparisons(params, g, k);
    }
    forall g, dist, lk | dist == MatchDist || dist == NonMatchDist
      ensures GetIn(r, LevelPath(g, dist, lk)).Success? <==> GetIn(params, LevelPath(g, dist, lk)).Success?
    {
      ResetKeepsLevelFields(params, g, dist, lk, "label");
    }
    forall g, dist, lk, k | (dist == MatchDist || dist == NonMatchDist) && k != "probability"
      ensures GetIn(r, LevelFieldPath(g, dist, lk, k)) == GetIn(params, LevelFieldPath(g, dist, lk, k))
    {
      ResetKeepsLevelFields(params, g, dist, lk, k);
    }
  }

  // ---------------------------------------------------------------------------
  // get_or_update_settings

  /** `"gamma_" + comp["col_name"]`, or the custom name when there is no `col_name`. */
  function ComparisonLabel(comp: Json): Result<string>
  {
    if !comp.JDict? then Failure(AttributeError("keys"))
    else
      var name :- if Has(comp, "col_name") then Get(comp, "col_name") else Get(comp, "custom_name");
      if name.JStr? then Success("gamma_" + name.s)
      else Failure(TypeError("can only concatenate str (not another type) to str"))
  }

  /** `[val["probability"] for key, val in dist.items()]`. */
  function ProbabilityList(dist: Json): (r: Result<seq<Json>>)
    ensures r.Success? ==> dist.JDict? && |r.value| == |dist.entries|
    ensures r.Success? ==> forall i :: 0 <= i < |dist.entries| ==> Get(dist.entries[i].1, "probability") == Success(r.value[i])
  {
    if !dist.JDict? then Failure(AttributeError("items"))
    else ProbabilityListOf(dist.entries)
  }

  function ProbabilityListOf(entries: seq<(string, Json)>): (r: Result<seq<Json>>)
    ensures r.Success? ==> |r.value| == |entries|
    ensures r.Success? ==> forall i :: 0 <= i < |entries| ==> Get(entries[i].1, "probability") == Success(r.value[i])
  {
    if entries == [] then Success([])
    else
      var first :- Get(entries[0].1, "probability");
      var rest :- ProbabilityListOf(entries[1..]);
      Success([first] + rest)
  }

  /**
   * The saved comparison for a settings comparison, when its label is among the
   * saved comparisons and the level counts agree (`num_levels` from the comparison,
   * else the default).
   */
  predicate CopiesSaved(comp: Json, pi: Json, defaultNumLevels: Json)
  {
    && ComparisonLabel(comp).Success?
    && Has(pi, ComparisonLabel(comp).value)
    && var saved := Get(pi, ComparisonLabel(comp).value).value;
      var numLevels := if Has(comp, "num_levels") then Get(comp, "num_levels").value else defaultNumLevels;
      Get(saved, "num_levels").Success? && PyEquals(numLevels, Get(saved, "num_levels").value)
  }

  /** The saved m and u probability lists of the comparison saved under `gammaLabel`. */
  function SavedProbabilities(pi: Json, gammaLabel: string): Result<(seq<Json>, seq<Json>)>
  {
    var saved :- Get(pi, gammaLabel);
    var matchDist :- Get(saved, "prob_dist_match");
    var mProbs :- ProbabilityList(matchDist);
    var nonMatchDist :- Get(saved, "prob_dist_non_match");
    var uProbs :- ProbabilityList(nonMatchDist);
    Success((mProbs, uProbs))
  }

  /**
   * One pass of the loop body: copy the saved m and u probability lists into the
   * comparison when the label is saved with the same number of levels; otherwise
   * (a warning in the source) leave the comparison as it is.
   */
  function UpdatedComparison(comp: Json, params: Json, defaultNumLevels: Json): Result<Json>
  {
    var gammaLabel :- ComparisonLabel(comp);
    var numLevels := if Has(comp, "num_levels") then Get(comp, "num_levels").value else defaultNumLevels;
    var pi :- Get(params, PiKey);
    if !pi.JDict? then Failure(AttributeError("keys"))
    else if !Has(pi, gammaLabel) then Success(comp)
    else
      var savedLevels :- Get(Get(pi, gammaLabel).value, "num_levels");
      if !PyEquals(numLevels, savedLevels) then Success(comp)
      else
        var probs :- SavedProbabilities(pi, gammaLabel);
        var withM :- Put(comp, "m_probabilities", JList(probs.0));
        Put(withM, "u_probabilities", JList(probs.1))
  }

  /**
   * An update that goes through copies the saved m and u lists when the label is
   * saved with the same level count, and otherwise leaves the comparison as it is.
   */
  lemma UpdatedComparisonCopies(comp: Json, params: Json, defaultNumLevels: Json)
    requires UpdatedComparison(comp, params, defaultNumLevels).Success?
    ensures var r := UpdatedComparison(comp, params, defaultNumLevels).value;
      && comp.JDict? && r.JDict? && Get(params, PiKey).Success?
      && (!CopiesSaved(comp, Get(params, PiKey).value, defaultNumLevels) ==> r == comp)
      && (CopiesSaved(comp, Get(params, PiKey).value, defaultNumLevels) ==>
            var saved := SavedProbabilities(Get(params, PiKey).value, ComparisonLabel(comp).value);
            && saved.Success?
            && Get(r, "m_probabilities") == Success(JList(saved.value.0))
            && Get(r, "u_probabilities") == Success(JList(saved.value.1)))
  {
    var pi := Get(params, PiKey).value;
    if CopiesSaved(comp, pi, defaultNumLevels) {
      var probs := SavedProbabilities(pi, ComparisonLabel(comp).value).value;
      var withM := Put(comp, "m_probabilities", JList(probs.0)).value;
      GetAfterPut(comp, "m_probabilities", JList(probs.0), "u_probabilities");
      GetAfterPut(withM, "u_probabilities", JList(probs.1), "m_probabilities");
    }
  }

  /** Copying the saved lists touches no key of the comparison but the m and u lists. */
  lemma UpdatedComparisonFrame(comp: Json, params: Json, defaultNumLevels: Json, k: string)
    requires UpdatedComparison(comp, params, defaultNumLevels).Success?
    requires k != "m_probabilities" && k != "u_probabilities"
    ensures Get(UpdatedComparison(comp, params, defaultNumLevels).value, k) == Get(comp, k)
  {
    var pi := Get(params, PiKey).value;
    if CopiesSaved(comp, pi, defaultNumLevels) {
      var probs := SavedProbabilities(pi, ComparisonLabel(comp).value).value;
      var withM := Put(comp, "m_probabilities", JList(probs.0)).value;
      GetAfterPut(comp, "m_probabilities", JList(probs.0), k);
      GetAfterPut(withM, "u_probabilities", JList(probs.1), k);
    }
  }

  /** `for comp in v`: a list's items, a dict's keys, a string's characters. */
  function Iterated(v: Json): Result<seq<Json>>
  {
    match v
    case JList(items) => Success(items)
    case JDict(entries) => Success(seq(|entries|, i requires 0 <= i < |entries| => JStr(entries[i].0)))
    case JStr(s) => Success(seq(|s|, i requires 0 <= i < |s| => JStr([s[i]])))
    case _ => Failure(TypeError("object is not iterable"))
  }

  const ComparisonColumnsKey := "comparison_columns"

  /**
   * The settings' comparisons after the copy: a list keeps its length and each
   * comparison is its `UpdatedComparison`; an empty dict or string (iterable, but
   * with nothing to update) is left as it is.
   */
  predicate ComparisonsCopied(before: Json, after: Json, params: Json, defaultNumLevels: Json)
  {
    && Get(before, ComparisonColumnsKey).Success?
    && Get(after, ComparisonColumnsKey).Success?
    && var b := Get(before, ComparisonColumnsKey).value;
       var a := Get(after, ComparisonColumnsKey).value;
       if b.JList? then
         && a.JList? && |a.items| == |b.items|
         && forall i :: 0 <= i < |b.items| ==> UpdatedComparison(b.items[i], params, defaultNumLevels) == Success(a.items[i])
       else a == b && Iterated(b) == Success([])
  }

  /** `out` is `item` with the saved lists copied in. */
  predicate UpdatesTo(item: Json, params: Json, defaultNumLevels: Json, out: Json)
  {
    UpdatedComparison(item, params, defaultNumLevels) == Success(out)
  }

  /** The first |done| comparisons, each updated. */
  predicate UpdatedPrefix(items: seq<Json>, done: seq<Json>, params: Json, defaultNumLevels: Json)
  {
    |done| <= |items| && forall j :: 0 <= j < |done| ==> UpdatesTo(items[j], params, defaultNumLevels, done[j])
  }

  /** Every settings key other than the proportion and the comparisons reads alike in both. */
  ghost predicate SameOtherSettings(a: Json, b: Json)
  {
    forall k :: k != ProportionKey && k != ComparisonColumnsKey ==> Get(a, k) == Get(b, k)
  }

  lemma SettingsKeysDistinct()
    ensures ProportionKey != ComparisonColumnsKey
  {
    assert ProportionKey[0] != ComparisonColumnsKey[0];
  }

  /** `if not settings: settings = params.settings`. */
  function ChosenSettings(settingsArg: Option<Json>, own: Json): Json
  {
    if settingsArg.None? || !Truthy(settingsArg.value) then own else settingsArg.value
  }

  /** Each comparison of the list updated in turn; the first that fails decides the error. */
  function UpdatedList(items: seq<Json>, params: Json, defaultNumLevels: Json): Result<seq<Json>>
  {
    if items == [] then Success([])
    else
      var first :- UpdatedComparison(items[0], params, defaultNumLevels);
      var rest :- UpdatedList(items[1..], params, defaultNumLevels);
      Success([first] + rest)
  }

  /** `done` followed by the outcome for the rest, or the rest's error. */
  function Prepended(done: seq<Json>, rest: Result<seq<Json>>): Result<seq<Json>>
  {
    var tail :- rest;
    Success(done + tail)
  }

  /**
   * The settings `get_or_update_settings` returns from the chosen settings: λ stored
   * as `proportion_of_matches`, then the comparisons iterated and updated.
   */
  function UpdatedSettings(chosen: Json, params: Json, defaultNumLevels: Json): Result<Json>
  {
    var lambda :- Get(params, "λ");
    var current :- Put(chosen, ProportionKey, lambda);
    var comparisons :- Get(current, ComparisonColumnsKey);
    if !comparisons.JList? then
      var elements :- Iterated(comparisons);
      if elements != [] then Failure(AttributeError("keys")) else Success(current)
    else
      var updated :- UpdatedList(comparisons.items, params, defaultNumLevels);
      Put(current, ComparisonColumnsKey, JList(updated))
  }

  /**
   * When the update goes through: λ is readable, the settings are a dict holding the
   * comparisons, and each listed comparison can be updated (a value that is not a
   * list must iterate to nothing).
   */
  predicate SettingsUpdateGoesThrough(chosen: Json, params: Json, defaultNumLevels: Json)
  {
    && Get(params, "λ").Success?
    && chosen.JDict?
    && Has(chosen, ComparisonColumnsKey)
    && var comparisons := Get(chosen, ComparisonColumnsKey).value;
       if comparisons.JList? then
         forall i :: 0 <= i < |comparisons.items| ==> UpdatedComparison(comparisons.items[i], params, defaultNumLevels).Success?
       else Iterated(comparisons) == Success([])
  }

  /** Updating one more comparison moves it from the rest of the list into `done`. */
  lemma UpdatedListStep(items: seq<Json>, i: nat, done: seq<Json>, updated: Json, params: Json, defaultNumLevels: Json)
    requires i < |items|
    requires UpdatesTo(items[i], params, defaultNumLevels, updated)
    ensures Prepended(done, UpdatedList(items[i..], params, defaultNumLevels))
         == Prepended(done + [updated], UpdatedList(items[i + 1..], params, defaultNumLevels))
  {
    assert items[i..][0] == items[i] && items[i..][1..] == items[i + 1..];
    var rest := UpdatedList(items[i + 1..], params, defaultNumLevels);
    if rest.Success? {
      assert done + ([updated] + rest.value) == done + [updated] + rest.value;
    }
  }

  /**
   * The list update succeeds exactly when every comparison can be updated, and then
   * gives each comparison's update, in order.
   */
  lemma {:induction false} UpdatedListSucceeds(items: seq<Json>, params: Json, defaultNumLevels: Json)
    ensures UpdatedList(items, params, defaultNumLevels).Success? <==>
      forall i :: 0 <= i < |items| ==> UpdatedComparison(items[i], params, defaultNumLevels).Success?
    ensures UpdatedList(items, params, defaultNumLevels).Success? ==>
      UpdatedPrefix(items, UpdatedList(items, params, defaultNumLevels).value, params, defaultNumLevels)
      && |UpdatedList(items, params, defaultNumLevels).value| == |items|
  {
    if items != [] {
      UpdatedListSucceeds(items[1..], params, defaultNumLevels);
      assert forall i :: 1 <= i < |items| ==> items[i] == items[1..][i - 1];
      var r := UpdatedList(items, params, defaultNumLevels);
      if r.Success? {
        var rest := UpdatedList(items[1..], params, defaultNumLevels).value;
        forall j | 0 <= j < |r.value| ensures UpdatesTo(items[j], params, defaultNumLevels, r.value[j]) {
          if j > 0 {
            assert r.value[j] == rest[j - 1];
          }
        }
      }
    }
  }

  /** `get_or_update_settings` goes through exactly when `SettingsUpdateGoesThrough` holds. */
  lemma UpdatedSettingsSucceeds(chosen: Json, params: Json, defaultNumLevels: Json)
    ensures UpdatedSettings(chosen, params, defaultNumLevels).Success? <==> SettingsUpdateGoesThrough(chosen, params, defaultNumLevels)
  {
    var lambda := Get(params, "λ");
    if lambda.Success? && chosen.JDict? {
      SettingsKeysDistinct();
      GetAfterPut(chosen, ProportionKey, lambda.value, ComparisonColumnsKey);
      var comparisons := Get(chosen, ComparisonColumnsKey);
      if comparisons.Success? && comparisons.value.JList? {
        UpdatedListSucceeds(comparisons.value.items, params, defaultNumLevels);
      }
    }
  }

  /**
   * What the update promises: `proportion_of_matches` is λ, each listed comparison is
   * its `UpdatedComparison`, and every other settings key is unchanged.
   */
  lemma UpdatedSettingsMeaning(chosen: Json, params: Json, defaultNumLevels: Json)
    requires UpdatedSettings(chosen, params, defaultNumLevels).Success?
    ensures var r := UpdatedSettings(chosen, params, defaultNumLevels).value;
      && Get(r, ProportionKey) == Get(params, "λ")
      && ComparisonsCopied(chosen, r, params, defaultNumLevels)
      && SameOtherSettings(r, chosen)
  {
    var lambda := Get(params, "λ").value;
    var current := Put(chosen, ProportionKey, lambda).value;
    SettingsKeysDistinct();
    GetAfterPut(chosen, ProportionKey, lambda, ProportionKey);
    GetAfterPut(chosen, ProportionKey, lambda, ComparisonColumnsKey);
    PutFrame(chosen, ProportionKey, lambda);
    var comparisons := Get(current, ComparisonColumnsKey).value;
    if comparisons.JList? {
      UpdatedListSucceeds(comparisons.items, params, defaultNumLevels);
      var updated := UpdatedList(comparisons.items, params, defaultNumLevels).value;
      GetAfterPut(current, ComparisonColumnsKey, JList(updated), ComparisonColumnsKey);
      GetAfterPut(current, ComparisonColumnsKey, JList(updated), ProportionKey);
      PutFrame(current, ComparisonColumnsKey, JList(updated));
      assert forall i :: 0 <= i < |comparisons.items| ==> UpdatesTo(comparisons.items[i], params, defaultNumLevels, updated[i]);
    }
  }

  /**
   * The loop over a list of comparisons, on the dict `start` that holds them: each is
   * updated and written back in turn. `current` is the dict as far as the loop got,
   * which a failure part-way leaves with the comparisons before it updated.
   */
  method UpdateComparisons(start: Json, items: seq<Json>, params: Json, defaultNumLevels: Json)
    returns (current: Json, r: Result<Json>)
    requires start.JDict? && Get(start, ComparisonColumnsKey) == Success(JList(items))
    ensures var updated := UpdatedList(items, params, defaultNumLevels);
      r == if updated.Failure? then Failure(updated.error) else Put(start, ComparisonColumnsKey, JList(updated.value))
    ensures r.Success? ==> current == r.value
  {
    current := start;
    var done: seq<Json> := [];
    PutExistingValue(start, ComparisonColumnsKey, JList(items));
    assert done + items[0..] == items;
    assert items[0..] == items;
    var whole := UpdatedList(items, params, defaultNumLevels);
    assert whole.Success? ==> done + whole.value == whole.value;
    for i := 0 to |items|
      invariant |done| == i
      invariant current == Put(start, ComparisonColumnsKey, JList(done + items[i..])).value
      invariant UpdatedList(items, params, defaultNumLevels) == Prepended(done, UpdatedList(items[i..], params, defaultNumLevels))
    {
      var attempt := UpdatedComparison(items[i], params, defaultNumLevels);
      if attempt.Failure? {
        assert items[i..][0] == items[i];
        return current, Failure(attempt.error);
      }
      var updated := attempt.value;
      var list := JList(done + [updated] + items[i + 1..]);
      PutTwice(start, ComparisonColumnsKey, JList(done + items[i..]), list);
      current := Put(current, ComparisonColumnsKey, list).value;
      UpdatedListStep(items, i, done, updated, params, defaultNumLevels);
      done := done + [updated];
    }
    assert done + items[|items|..] == done;
    assert items[|items|..] == [];
    r := Success(current);
  }

  /**
   * `get_or_update_settings`: the given settings, or the store's own settings when
   * none (or an empty dict) is given, with `proportion_of_matches` set to λ and the
   * saved m and u lists copied into each comparison whose level count matches.
   * The store's settings dict is updated in place when it is the one used, so a
   * failure part-way leaves the comparisons before it updated. `defaultNumLevels`
   * is the default `num_levels` of a column setting.
   */
  method GetOrUpdateSettings(p: Params, settingsArg: Option<Json>, defaultNumLevels: Json) returns (r: Result<Json>)
    modifies p
    ensures r == UpdatedSettings(ChosenSettings(settingsArg, old(p.settings)), p.params, defaultNumLevels)
    ensures r.Success? <==> SettingsUpdateGoesThrough(ChosenSettings(settingsArg, old(p.settings)), p.params, defaultNumLevels)
    ensures p.params == old(p.params) && p.paramHistory == old(p.paramHistory)
    ensures p.settingsOriginal == old(p.settingsOriginal) && p.iteration == old(p.iteration)
    ensures r.Success? ==> Get(r.value, ProportionKey) == Get(p.params, "λ")
    ensures r.Success? ==> ComparisonsCopied(ChosenSettings(settingsArg, old(p.settings)), r.value, p.params, defaultNumLevels)
    ensures r.Success? ==> SameOtherSettings(r.value, ChosenSettings(settingsArg, old(p.settings)))
    ensures settingsArg.Some? && Truthy(settingsArg.value) ==> p.settings == old(p.settings)
    ensures (settingsArg.None? || !Truthy(settingsArg.value)) && r.Success? ==> p.settings == r.value
  {
    var aliased := settingsArg.None? || !Truthy(settingsArg.value);
    var chosen := ChosenSettings(settingsArg, p.settings);
    UpdatedSettingsSucceeds(chosen, p.params, defaultNumLevels);
    if UpdatedSettings(chosen, p.params, defaultNumLevels).Success? {
      UpdatedSettingsMeaning(chosen, p.params, defaultNumLevels);
    }
    var lambda :- Get(p.params, "λ");
    var current :- Put(chosen, ProportionKey, lambda);
    if aliased {
      p.settings := current;
    }
    var comparisons :- Get(current, ComparisonColumnsKey);
    if !comparisons.JList? {
      var elements :- Iterated(comparisons);
      if elements != [] {
        return Failure(AttributeError("keys"));
      }
      return Success(current);
    }
    var reached, outcome := UpdateComparisons(current, comparisons.items, p.params, defaultNumLevels);
    if aliased {
      p.settings := reached;
    }
    r := outcome;
  }

  // ---------------------------------------------------------------------------
  // The store

  /** Where the store keeps a row's probabilities before the first maximisation step. */
  class Params {
    var params: Json
    var paramHistory: Json
    var settings: Json
    var settingsOriginal: Json
    var iteration: int
    var logLikelihoodExists: bool

    /**
     * `Params(settings, spark)`: the original settings kept as given, and the completed
     * settings (what `complete_settings_dict` returns, passed in) as both the settings
     * and the starting parameters; no history yet.
     */
    constructor (settingsDict: Json, completedSettings: Json)
      ensures settingsOriginal == settingsDict
      ensures settings == completedSettings && params == completedSettings
      ensures paramHistory == JList([]) && iteration == 0 && !logLikelihoodExists
    {
      paramHistory := JList([]);
      iteration := 0;
      settingsOriginal := settingsDict;
      settings := completedSettings;
      params := completedSettings;
      logLikelihoodExists := false;
    }

    function Stored(): StoredParams
      reads this
    {
      StoredParams(params, paramHistory, settings, settingsOriginal)
    }

    /** `_to_dict`: exactly the four keys, so its output always passes the load check. */
    function ToDict(): (d: Json)
      reads this
      ensures LoadFields(d) == Success(Stored())
    {
      LoadToDict(Stored());
      ToDictOf(Stored())
    }

    /**
     * The decision part of `save_params_to_json_file`: no path, or an existing file
     * without `overwrite`, raises ValueError; otherwise the `_to_dict` output is what
     * gets written. `fileExists` stands for `os.path.isfile(path)`.
     */
    method SaveParamsToJsonFile(path: Option<string>, overwrite: bool, fileExists: bool) returns (written: Result<Json>)
      ensures path.None? || path.value == "" ==> written == Failure(ValueError("Must provide a path to write to"))
      ensures path.Some? && path.value != "" && fileExists && !overwrite ==>
        written == Failure(ValueError("The path " + path.value + " already exists. Please provide a different path."))
      ensures written.Success? <==> path.Some? && path.value != "" && (!fileExists || overwrite)
      ensures written.Success? ==> LoadFields(written.value) == Success(Stored())
    {
      var proceedWithWrite := false;
      if path.None? || path.value == "" {
        return Failure(ValueError("Must provide a path to write to"));
      }
      if fileExists {
        if overwrite {
          proceedWithWrite := true;
        } else {
          return Failure(ValueError("The path " + path.value + " already exists. Please provide a different path."));
        }
      } else {
        proceedWithWrite := true;
      }
      written := Success(ToDict());
    }

    /**
     * `is_converged`: fails as the source raises (no history, no `em_convergence`,
     * a probability missing from the previous snapshot, a value that is not a number);
     * otherwise true iff every flattened `_probability` entry moved by strictly less
     * than the threshold. `biggestChange` is the largest move, the value it logs.
     */
    method IsConverged() returns (converged: Result<bool>, biggestChange: real)
      ensures LastSnapshot(paramHistory).Failure? ==> converged == Failure(LastSnapshot(paramHistory).error)
      ensures LastSnapshot(paramHistory).Success? && !Has(settings, "em_convergence") ==> converged.Failure?
      ensures converged.Success? <==>
        && LastSnapshot(paramHistory).Success? && Get(settings, "em_convergence").Success?
        && params.JDict? && LastSnapshot(paramHistory).value.JDict?
        && Comparable(ProbabilityView(params), JDict(ProbabilityView(LastSnapshot(paramHistory).value)),
                      Get(settings, "em_convergence").value)
      ensures converged.Success? ==>
        var pNew := ProbabilityView(params);
        var pOld := JDict(ProbabilityView(LastSnapshot(paramHistory).value));
        var threshold := Get(settings, "em_convergence").value;
        && (converged.value <==> AllBelow(pNew, pOld, threshold))
        && (forall i :: 0 <= i < |pNew| ==> ChangeAt(pNew, i, pOld, threshold) <= biggestChange)
        && (biggestChange == 0.0 || exists i :: 0 <= i < |pNew| && ChangeAt(pNew, i, pOld, threshold) == biggestChange)
    {
      biggestChange := 0.0;
      var previous := LastSnapshot(paramHistory);
      if previous.Failure? {
        return Failure(previous.error), 0.0;
      }
      var threshold := Get(settings, "em_convergence");
      if threshold.Failure? {
        return Failure(threshold.error), 0.0;
      }
      if !params.JDict? || !previous.value.JDict? {
        return Failure(AttributeError("items")), 0.0;
      }
      var flatNew := FlattenDict(params, JDict([]), "");
      var flatOld := FlattenDict(previous.value, JDict([]), "");
      var pNew := ProbabilityEntries(flatNew.entries);
      var pOld := JDict(ProbabilityEntries(flatOld.entries));
      assert pNew == ProbabilityView(params) && pOld == JDict(ProbabilityView(previous.value));
      var t := threshold.value;
      var allBelow :- CompareProbabilities(pNew, pOld, t);
      biggestChange := BiggestChange(pNew, pOld, t);
      converged := Success(allBelow);
    }

    /**
     * `_convert_params_dict_to_bayes_factor_iteration_history`: one row per level of
     * each comparison of each snapshot, in snapshot order, or the error of the first
     * read that fails. The comparisons listed for snapshot 0 are those of the current
     * parameters, and for snapshot t > 0 those of snapshot t - 1, as the reassignment
     * of `gk` inside the loop makes them.
     */
    method BayesFactorIterationHistory() returns (r: Result<seq<BayesFactorRow>>)
      ensures r == HistoryRows(params, paramHistory)
    {
      var pi :- Get(params, PiKey);
      if !pi.JDict? {
        return Failure(AttributeError("keys"));
      }
      var gk := Firsts(pi.entries);
      match paramHistory {
        case JList(items) =>
          r := AllSnapshotsHistoryRows(gk, items);
        case JDict(entries) =>
          r := if entries == [] || gk == [] then Success([]) else Failure(KeyError("0"));
        case JStr(chars) =>
          r := if chars == [] || gk == [] then Success([]) else Failure(TypeError("string indices must be integers"));
        case _ =>
          r := Failure(TypeError("object is not iterable"));
      }
    }

    /**
     * `_populate_params_from_maximisation_step`: λ becomes `proportion_of_matches`,
     * every m and u probability is reset, then each row's probabilities are set at
     * its level; when a level appears in several rows, the last one stays. It goes
     * through exactly when the parameters are a dict holding every level dict a row
     * names; on a failure part-way the rows before stay written, as in place.
     */
    method PopulateParamsFromMaximisationStep(lambdaValue: Json, rows: seq<MaximisationRow>) returns (outcome: Outcome)
      modifies this
      ensures settings == old(settings) && settingsOriginal == old(settingsOriginal)
      ensures paramHistory == old(paramHistory) && iteration == old(iteration)
      ensures outcome.Pass? <==> PopulateGoesThrough(old(params), rows)
      ensures outcome.Pass? ==> Get(params, ProportionKey) == Success(lambdaValue)
      ensures outcome.Pass? ==> forall j :: 0 <= j < |rows| && LastForLevel(rows, j, |rows|) ==> RowStored(params, rows[j])
      ensures outcome.Pass? ==> UnwrittenReadNone(old(params), params, rows)
      ensures outcome.Pass? ==> SameOtherParams(params, old(params))
      ensures outcome.Pass? ==> SamePiShape(params, old(params))
    {
      var withLambda := Put(params, ProportionKey, lambdaValue);
      if withLambda.Failure? {
        return Fail(withLambda.error);
      }
      PopulateStart(params, rows, lambdaValue);
      ProportionKeepsPiShape(params, lambdaValue);
      ResetKeepsPiShape(withLambda.value);
      SamePiShapeTrans(ResetAllProbabilities(withLambda.value), withLambda.value, params);
      params := ResetAllProbabilities(withLambda.value);
      ghost var start := params;
      for i := 0 to |rows|
        invariant settings == old(settings) && settingsOriginal == old(settingsOriginal)
        invariant paramHistory == old(paramHistory) && iteration == old(iteration)
        invariant Populated(params, start, old(params), rows, i, lambdaValue)
        invariant PresentUpTo(start, rows, i)
        invariant SamePiShape(params, old(params))
      {
        var row := rows[i];
        PopulateStep(params, start, old(params), rows, i, lambdaValue);
        var setM := SetIn(params, MPath(row), row.newProbabilityMatch);
        if setM.Failure? {
          return Fail(setM.error);
        }
        ghost var before := params;
        params := setM.value;
        var setU := SetIn(params, UPath(row), row.newProbabilityNonMatch);
        if setU.Failure? {
          return Fail(setU.error);
        }
        StepKeepsPiShape(before, params, setU.value, old(params), row);
        params := setU.value;
      }
      PopulatedNulls(params, start, old(params), rows, lambdaValue);
      GetInSingle(params, ProportionKey);
      outcome := Pass;
    }
  }

  /**
   * `load_params_from_dict`: with exactly the four keys, a new store built from the
   * saved settings (completed by `complete_settings_dict`, passed in) whose current
   * parameters, history and original settings are the saved values verbatim.
   */
  method LoadParamsFromDict(paramDict: Json, completedSettings: Json) returns (r: Result<Params>)
    ensures r.Success? <==> LoadFields(paramDict).Success?
    ensures r.Failure? ==> r.error == LoadFields(paramDict).error
    ensures r.Success? ==>
      && fresh(r.value)
      && r.value.params == LoadFields(paramDict).value.currentParams
      && r.value.paramHistory == LoadFields(paramDict).value.historicalParams
      && r.value.settingsOriginal == LoadFields(paramDict).value.settingsOriginal
      && r.value.settings == completedSettings
      && r.value.iteration == 0
      && !r.value.logLikelihoodExists
  {
    var fields := LoadFields(paramDict);
    if fields.Failure? {
      return Failure(fields.error);
    }
    var p := new Params(fields.value.settings, completedSettings);
    p.params := fields.value.currentParams;
    p.paramHistory := fields.value.historicalParams;
    p.settingsOriginal := fields.value.settingsOriginal;
    r := Success(p);
  }
}
