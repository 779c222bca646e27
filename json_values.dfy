/**
 * JSON-like values as the parameter store handles them: Python dicts (ordered,
 * assignment replaces a key's value in place or appends a new key), lists, numbers
 * that are ints or floats, strings, booleans and None.
 */
module JsonValues {
  import opened Outcomes

  datatype Json =
    | JNull
    | JBool(b: bool)
    | JInt(i: int)
    | JFloat(x: real)
    | JStr(s: string)
    | JList(items: seq<Json>)
    | JDict(entries: seq<(string, Json)>)

  /** Python numbers: ints, floats and booleans (a bool is an int). */
  predicate IsNumber(v: Json)
  {
    v.JInt? || v.JFloat? || v.JBool?
  }

  /** The value of a number, as a real. */
  function NumberValue(v: Json): real
    requires IsNumber(v)
  {
    match v
    case JInt(i) => i as real
    case JFloat(x) => x
    case JBool(b) => if b then 1.0 else 0.0
  }

  /** Python `==` on values: numbers compare by value across int, float and bool. */
  predicate PyEquals(a: Json, b: Json)
  {
    if IsNumber(a) && IsNumber(b) then NumberValue(a) == NumberValue(b) else a == b
  }

  /** Position of the entry for `key`, if the dict has one. */
  function Find(entries: seq<(string, Json)>, key: string): (r: Option<nat>)
    ensures r.Some? ==> r.value < |entries| && entries[r.value].0 == key
    ensures r.None? <==> forall j :: 0 <= j < |entries| ==> entries[j].0 != key
  {
    if entries == [] then None
    else if entries[0].0 == key then Some(0)
    else match Find(entries[1..], key)
      case None => None
      case Some(j) => Some(j + 1)
  }

  /** `Find` lands on the first entry with the key: none before it has that key. */
  lemma {:induction false} FindFirst(entries: seq<(string, Json)>, key: string)
    ensures Find(entries, key).Some? ==> forall j :: 0 <= j < Find(entries, key).value ==> entries[j].0 != key
  {
    if entries != [] && entries[0].0 != key {
      FindFirst(entries[1..], key);
      if Find(entries, key).Some? {
        forall j | 0 <= j < Find(entries, key).value ensures entries[j].0 != key {
          if j > 0 {
            assert entries[j] == entries[1..][j - 1];
          }
        }
      }
    }
  }

  /** The dict's keys, as `set(d.keys())`. */
  function KeySet(entries: seq<(string, Json)>): (ks: set<string>)
    ensures forall k :: k in ks <==> Find(entries, k).Some?
  {
    if entries == [] then {} else {entries[0].0} + KeySet(entries[1..])
  }

  /** `d[key]`: TypeError on a non-dict, KeyError for a missing key. */
  function Get(d: Json, key: string): Result<Json>
  {
    if !d.JDict? then Failure(TypeError("object is not subscriptable"))
    else match Find(d.entries, key)
      case None => Failure(KeyError(key))
      case Some(j) => Success(d.entries[j].1)
  }

  /** `key in d` for a dict. */
  predicate Has(d: Json, key: string)
  {
    d.JDict? && Find(d.entries, key).Some?
  }

  /** `d[key] = v`: an existing key keeps its place, a new key goes last. */
  function Put(d: Json, key: string, v: Json): (r: Result<Json>)
    ensures r.Success? <==> d.JDict?
    ensures r.Success? ==> r.value.JDict?
  {
    if !d.JDict? then Failure(TypeError("object does not support item assignment"))
    else match Find(d.entries, key)
      case None => Success(JDict(d.entries + [(key, v)]))
      case Some(j) => Success(JDict(d.entries[j := (key, v)]))
  }

  /** After `d[key] = v`, `d[key]` is v and every other key reads as before. */
  lemma GetAfterPut(d: Json, key: string, v: Json, other: string)
    requires d.JDict?
    ensures Get(Put(d, key, v).value, key) == Success(v)
    ensures other != key ==> Get(Put(d, key, v).value, other) == Get(d, other)
  {
    var e := d.entries;
    match Find(e, key)
    case None =>
      FindAppend(e, key, v, key);
      FindAppend(e, key, v, other);
    case Some(j) =>
      FindReplace(e, j, key, v, key);
      FindReplace(e, j, key, v, other);
  }

  /** `d[key] = v` leaves every other key as it was. */
  lemma PutFrame(d: Json, key: string, v: Json)
    requires d.JDict?
    ensures forall other :: other != key ==> Get(Put(d, key, v).value, other) == Get(d, other)
  {
    forall other | other != key ensures Get(Put(d, key, v).value, other) == Get(d, other) {
      GetAfterPut(d, key, v, other);
    }
  }

  /** `d[key] = v` adds `key` to the keys and no other. */
  lemma KeySetAfterPut(d: Json, key: string, v: Json)
    requires d.JDict?
    ensures KeySet(Put(d, key, v).value.entries) == KeySet(d.entries) + {key}
  {
    var e := d.entries;
    var e' := Put(d, key, v).value.entries;
    forall k ensures k in KeySet(e') <==> k in KeySet(e) + {key} {
      match Find(e, key)
      case None => FindAppend(e, key, v, k);
      case Some(j) => FindReplace(e, j, key, v, k);
    }
  }

  /** Writing back the value a key already holds changes nothing. */
  lemma PutExistingValue(d: Json, key: string, v: Json)
    requires Get(d, key) == Success(v)
    ensures Put(d, key, v) == Success(d)
  {
    var j := Find(d.entries, key).value;
    assert d.entries[j := (key, v)] == d.entries;
  }

  /** A second write to a key overrides the first. */
  lemma PutTwice(d: Json, key: string, v: Json, w: Json)
    requires d.JDict?
    ensures Put(Put(d, key, v).value, key, w) == Put(d, key, w)
  {
    var e := d.entries;
    match Find(e, key)
    case None =>
      FindAppend(e, key, v, key);
      assert (e + [(key, v)])[|e| := (key, w)] == e + [(key, w)];
    case Some(j) =>
      FindReplace(e, j, key, v, key);
      assert e[j := (key, v)][j := (key, w)] == e[j := (key, w)];
  }

  lemma {:induction false} FindAppend(e: seq<(string, Json)>, key: string, v: Json, k: string)
    requires Find(e, key).None?
    ensures Find(e + [(key, v)], k) == if k == key then Some(|e|) else Find(e, k)
  {
    if e != [] {
      assert (e + [(key, v)])[1..] == e[1..] + [(key, v)];
      FindAppend(e[1..], key, v, k);
    }
  }

  lemma {:induction false} FindReplace(e: seq<(string, Json)>, j: nat, key: string, v: Json, k: string)
    requires Find(e, key) == Some(j)
    ensures Find(e[j := (key, v)], k) == Find(e, k)
  {
    if j > 0 {
      assert e[j := (key, v)][1..] == e[1..][j - 1 := (key, v)];
      FindReplace(e[1..], j - 1, key, v, k);
    }
  }

  /** No key occurs twice, as in any Python dict. */
  predicate UniqueKeys(entries: seq<(string, Json)>)
  {
    forall i, j :: 0 <= i < j < |entries| ==> entries[i].0 != entries[j].0
  }

  /** Assignment keeps the keys of a dict distinct. */
  lemma PutKeepsUniqueKeys(d: Json, key: string, v: Json)
    requires d.JDict? && UniqueKeys(d.entries)
    ensures UniqueKeys(Put(d, key, v).value.entries)
  {
  }

  /** In a dict with distinct keys, an entry's key finds that entry. */
  lemma FindUnique(entries: seq<(string, Json)>, i: nat)
    requires UniqueKeys(entries) && i < |entries|
    ensures Find(entries, entries[i].0) == Some(i)
  {
  }

  /** `d[p0][p1]...[pn]`. */
  function GetIn(d: Json, path: seq<string>): Result<Json>
  {
    if path == [] then Success(d)
    else
      var child :- Get(d, path[0]);
      GetIn(child, path[1..])
  }

  /** `d[p0]...[pn-1][pn] = v`, the enclosing dicts updated in place. */
  function SetIn(d: Json, path: seq<string>, v: Json): (r: Result<Json>)
    requires path != []
    ensures r.Success? ==> r.value.JDict?
  {
    if |path| == 1 then Put(d, path[0], v)
    else
      var child :- Get(d, path[0]);
      var updated :- SetIn(child, path[1..], v);
      Put(d, path[0], updated)
  }

  /** Neither path is a prefix of the other: they lead to different places. */
  predicate Diverge(p: seq<string>, q: seq<string>)
  {
    exists i :: 0 <= i < |p| && i < |q| && p[i] != q[i]
  }

  /** After a nested assignment succeeds, the path reads the value just written. */
  lemma {:induction false} GetInAfterSetIn(d: Json, path: seq<string>, v: Json)
    requires path != [] && SetIn(d, path, v).Success?
    ensures GetIn(SetIn(d, path, v).value, path) == Success(v)
  {
    var d' := SetIn(d, path, v).value;
    if |path| == 1 {
      GetAfterPut(d, path[0], v, path[0]);
      assert path[1..] == [];
    } else {
      var child := Get(d, path[0]).value;
      GetInAfterSetIn(child, path[1..], v);
      GetAfterPut(d, path[0], SetIn(child, path[1..], v).value, path[0]);
    }
  }

  /** A nested assignment leaves every place on a diverging path as it was. */
  lemma {:induction false} SetInFrame(d: Json, path: seq<string>, v: Json, q: seq<string>)
    requires path != [] && SetIn(d, path, v).Success? && Diverge(path, q)
    ensures GetIn(SetIn(d, path, v).value, q) == GetIn(d, q)
  {
    var d' := SetIn(d, path, v).value;
    if |path| == 1 {
      assert path[0] != q[0];
      GetAfterPut(d, path[0], v, q[0]);
    } else {
      var child := Get(d, path[0]).value;
      var updated := SetIn(child, path[1..], v).value;
      GetAfterPut(d, path[0], updated, q[0]);
      if path[0] == q[0] {
        var i :| 0 <= i < |path| && i < |q| && path[i] != q[i];
        assert path[1..][i - 1] != q[1..][i - 1];
        SetInFrame(child, path[1..], v, q[1..]);
      }
    }
  }

  /** The path leads to a dict. */
  predicate DictAt(d: Json, path: seq<string>)
  {
    GetIn(d, path).Success? && GetIn(d, path).value.JDict?
  }

  /** Reading one key further is reading the path, then that key. */
  lemma {:induction false} GetInAppend(d: Json, path: seq<string>, key: string)
    ensures GetIn(d, path + [key]) == if GetIn(d, path).Success? then Get(GetIn(d, path).value, key) else GetIn(d, path)
  {
    if path == [] {
      assert [] + [key] == [key];
      assert [key][1..] == [];
    } else {
      assert (path + [key])[0] == path[0];
      assert (path + [key])[1..] == path[1..] + [key];
      match Get(d, path[0])
      case Failure(_) =>
      case Success(child) => GetInAppend(child, path[1..], key);
    }
  }

  lemma GetInSingle(d: Json, key: string)
    ensures GetIn(d, [key]) == Get(d, key)
  {
    assert [key][1..] == [];
    if Get(d, key).Success? {
      assert GetIn(Get(d, key).value, []) == Get(d, key);
    }
  }

  /** Entry lists with the same keys in the same order find a key at the same place. */
  lemma {:induction false} FindSameKeys(a: seq<(string, Json)>, b: seq<(string, Json)>, key: string)
    requires |a| == |b| && forall i :: 0 <= i < |a| ==> a[i].0 == b[i].0
    ensures Find(a, key) == Find(b, key)
  {
    if a != [] {
      assert forall i :: 0 <= i < |a| - 1 ==> a[1..][i].0 == b[1..][i].0 by {
        forall i | 0 <= i < |a| - 1 ensures a[1..][i].0 == b[1..][i].0 {
          assert a[1..][i] == a[i + 1] && b[1..][i] == b[i + 1];
        }
      }
      FindSameKeys(a[1..], b[1..], key);
    }
  }

  /** A nested assignment succeeds exactly when the path up to its last key leads to a dict. */
  lemma {:induction false} SetInSucceeds(d: Json, path: seq<string>, v: Json)
    requires path != []
    ensures SetIn(d, path, v).Success? <==> DictAt(d, path[..|path| - 1])
  {
    if |path| == 1 {
      assert path[..0] == [];
    } else {
      assert path[..|path| - 1][0] == path[0];
      assert path[..|path| - 1][1..] == path[1..][..|path| - 2];
      match Get(d, path[0])
      case Failure(_) =>
      case Success(child) => SetInSucceeds(child, path[1..], v);
    }
  }

  /** A nested assignment that goes through adds or removes no key above the written one. */
  lemma {:induction false} SetInKeepsKeys(d: Json, path: seq<string>, v: Json, q: seq<string>)
    requires path != [] && SetIn(d, path, v).Success? && |q| < |path|
    ensures GetIn(SetIn(d, path, v).value, q).Success? <==> GetIn(d, q).Success?
  {
    if q != [] {
      var d' := SetIn(d, path, v).value;
      var child := Get(d, path[0]).value;
      var updated := SetIn(child, path[1..], v).value;
      GetAfterPut(d, path[0], updated, q[0]);
      if path[0] == q[0] {
        SetInKeepsKeys(child, path[1..], v, q[1..]);
      }
    }
  }

  /**
   * A nested assignment keeps, at every path one key shorter than its own, a dict
   * where there was one and none where there was none.
   */
  lemma SetInKeepsDicts(d: Json, path: seq<string>, v: Json, q: seq<string>)
    requires path != [] && SetIn(d, path, v).Success? && |q| == |path| - 1
    ensures DictAt(SetIn(d, path, v).value, q) <==> DictAt(d, q)
  {
    var d' := SetIn(d, path, v).value;
    if q == path[..|path| - 1] {
      SetInSucceeds(d, path, v);
      GetInAfterSetIn(d, path, v);
      assert q + [path[|path| - 1]] == path;
      GetInAppend(d', q, path[|path| - 1]);
    } else {
      var i :| 0 <= i < |q| && q[i] != path[..|path| - 1][i];
      SetInFrame(d, path, v, q);
    }
  }

  /** Distinct paths of the same length diverge. */
  lemma SameLengthDiverge(p: seq<string>, q: seq<string>)
    requires |p| == |q| && p != q
    ensures Diverge(p, q)
  {
    if forall i :: 0 <= i < |p| ==> p[i] == q[i] {
      assert false;
    }
  }

  /** Python truthiness of a value. */
  predicate Truthy(v: Json)
  {
    match v
    case JNull => false
    case JBool(b) => b
    case JInt(i) => i != 0
    case JFloat(x) => x != 0.0
    case JStr(s) => s != ""
    case JList(items) => items != []
    case JDict(entries) => entries != []
  }

  /** The decimal digits of a natural number, as `str(n)` writes them. */
  function DecimalString(n: nat): (s: string)
    ensures |s| >= 1 && forall i :: 0 <= i < |s| ==> '0' <= s[i] <= '9'
  {
    if n < 10 then [Digit(n)] else DecimalString(n / 10) + [Digit(n % 10)]
  }

  function Digit(d: nat): (c: char)
    requires d < 10
    ensures '0' <= c <= '9' && c as int - '0' as int == d
  {
    ('0' as int + d) as char
  }

  /** Reading the digits back gives the number: `str` is injective on naturals. */
  function ParseDecimal(s: string): nat
    requires forall i :: 0 <= i < |s| ==> '0' <= s[i] <= '9'
  {
    if s == [] then 0 else 10 * ParseDecimal(s[..|s| - 1]) + (s[|s| - 1] as int - '0' as int)
  }

  lemma {:induction false} ParseDecimalString(n: nat)
    ensures ParseDecimal(DecimalString(n)) == n
  {
    if n >= 10 {
      var s := DecimalString(n);
      assert s[..|s| - 1] == DecimalString(n / 10);
      ParseDecimalString(n / 10);
    }
  }
}
