/** The update-document builder of yadm/common.py: five optional modifier
    arguments become one MongoDB update document keyed by update operators. */
module UpdateQuery {
  import opened Values

  const SET := "$set"
  const UNSET := "$unset"
  const INC := "$inc"
  const PUSH := "$push"
  const PULL := "$pull"

  /** The operator keys an update document may carry. */
  const Operators: set<string> := {SET, UNSET, INC, PUSH, PULL}

  /** The two call forms of the `unset` argument: a sequence of field names,
      or a dict whose keys are the field names. */
  datatype Unset = UnsetList(names: seq<string>) | UnsetMap(fields: Fields)

  /** An update document: operator key to the fields it applies to. */
  type Query = map<string, Fields>

  /** Python truthiness of the optional `unset` argument. */
  predicate UnsetTruthy(arg: Option<Unset>): (b: bool)
    ensures b <==> arg.Some? && UnsetNames(arg.value) != {}
  {
    match arg
    case None => false
    case Some(UnsetList(ns)) =>
      assert ns != [] ==> ns[0] in UnsetNames(arg.value);
      ns != []
    case Some(UnsetMap(m)) =>
      assert m != map[] ==> exists f :: f in m;
      m != map[]
  }

  /** The field names an `unset` argument asks to remove, whatever its form. */
  function UnsetNames(u: Unset): (r: set<string>)
    ensures u.UnsetList? ==> forall f :: f in r <==> f in u.names
    ensures u.UnsetMap? ==> forall f :: f in r <==> f in u.fields
  {
    match u
    case UnsetList(ns) => set f | f in ns
    case UnsetMap(m) => m.Keys
  }

  /** The dict comprehension `{f: True for f in names}`, folded in iteration order. */
  function MarkUnset(names: seq<string>): (r: Fields)
    ensures r.Keys == set f | f in names
    ensures forall f :: f in r ==> r[f] == Bool(true)
  {
    if names == [] then map[]
    else MarkUnset(names[..|names| - 1])[names[|names| - 1] := Bool(true)]
  }

  /** The value placed under `$unset`: a dict passes through, a name list is marked true. */
  function UnsetFields(u: Unset): (r: Fields)
    ensures r.Keys == UnsetNames(u)
    ensures u.UnsetMap? ==> r == u.fields
    ensures u.UnsetList? ==> forall f :: f in r ==> r[f] == Bool(true)
  {
    match u
    case UnsetMap(m) => m
    case UnsetList(ns) => MarkUnset(ns)
  }

  /** `build_update_query(set, unset, inc, push, pull)`: each truthy argument is
      stored under its operator key; an empty document collapses to None. */
  function BuildUpdateQuery(toSet: Option<Fields>, toUnset: Option<Unset>, toInc: Option<Fields>,
                            toPush: Option<Fields>, toPull: Option<Fields>): (r: Option<Query>)
    ensures r.None? <==>
      !Truthy(toSet) && !UnsetTruthy(toUnset) && !Truthy(toInc) && !Truthy(toPush) && !Truthy(toPull)
    ensures r.Some? ==> r.value != map[] && r.value.Keys <= Operators
    ensures (r.Some? && SET in r.value) <==> Truthy(toSet)
    ensures Truthy(toSet) ==> r.Some? && r.value[SET] == toSet.value
    ensures (r.Some? && UNSET in r.value) <==> UnsetTruthy(toUnset)
    ensures UnsetTruthy(toUnset) ==> r.Some? && r.value[UNSET] == UnsetFields(toUnset.value)
    ensures (r.Some? && INC in r.value) <==> Truthy(toInc)
    ensures Truthy(toInc) ==> r.Some? && r.value[INC] == toInc.value
    ensures (r.Some? && PUSH in r.value) <==> Truthy(toPush)
    ensures Truthy(toPush) ==> r.Some? && r.value[PUSH] == toPush.value
    ensures (r.Some? && PULL in r.value) <==> Truthy(toPull)
    ensures Truthy(toPull) ==> r.Some? && r.value[PULL] == toPull.value
  {
    var q0: Query := map[];
    var q1 := if Truthy(toSet) then q0[SET := toSet.value] else q0;
    var q2 := if UnsetTruthy(toUnset) then q1[UNSET := UnsetFields(toUnset.value)] else q1;
    var q3 := if Truthy(toInc) then q2[INC := toInc.value] else q2;
    var q4 := if Truthy(toPush) then q3[PUSH := toPush.value] else q3;
    var q5 := if Truthy(toPull) then q4[PULL := toPull.value] else q4;
    assert q5.Keys == q0.Keys + (if Truthy(toSet) then {SET} else {})
      + (if UnsetTruthy(toUnset) then {UNSET} else {}) + (if Truthy(toInc) then {INC} else {})
      + (if Truthy(toPush) then {PUSH} else {}) + (if Truthy(toPull) then {PULL} else {});
    if q5 == map[] then None else Some(q5)
  }

  /** A non-empty name list always yields a non-empty `$unset` dict, so list
      truthiness and dict truthiness agree on the value placed in the query. */
  lemma UnsetTruthyMeansNonEmpty(u: Unset)
    ensures UnsetTruthy(Some(u)) <==> UnsetFields(u) != map[]
  {
  }

  /** Duplicate names collapse: the marked dict never has more entries than
      the list, and has exactly as many precisely when the names are distinct. */
  lemma {:induction false} MarkUnsetSize(names: seq<string>)
    ensures |MarkUnset(names)| <= |names|
    ensures |MarkUnset(names)| == |names| <==> Distinct(names)
  {
    if names != [] {
      var init, last := names[..|names| - 1], names[|names| - 1];
      assert names == init + [last];
      MarkUnsetSize(init);
      if last in MarkUnset(init) {
        assert !Distinct(names) by {
          var j :| 0 <= j < |init| && init[j] == last;
          assert names[j] == names[|names| - 1];
        }
      } else {
        assert last !in init;
        DistinctSnoc(init, last);
      }
    }
  }

  predicate Distinct(s: seq<string>)
  {
    forall i, j :: 0 <= i < j < |s| ==> s[i] != s[j]
  }

  lemma DistinctSnoc(s: seq<string>, x: string)
    requires x !in s
    ensures Distinct(s + [x]) <==> Distinct(s)
  {
    var t := s + [x];
    if Distinct(s) {
      forall i, j | 0 <= i < j < |t| ensures t[i] != t[j] {
        if j == |s| { assert t[i] == s[i]; }
      }
    }
    if Distinct(t) {
      forall i, j | 0 <= i < j < |s| ensures s[i] != s[j] {
        assert s[i] == t[i] && s[j] == t[j];
      }
    }
  }

  /** The two `unset` call forms are equivalent: a name list and a dict with the
      same keys produce documents with the same operators and the same set of
      unset field names, and the same document outright when the dict's values
      are all `True` (the `['i']` versus `{'i': True}` calls). */
  lemma UnsetFormsAgree(toSet: Option<Fields>, names: seq<string>, m: Fields,
                        toInc: Option<Fields>, toPush: Option<Fields>, toPull: Option<Fields>)
    requires m.Keys == (set f | f in names)
    ensures var byList := BuildUpdateQuery(toSet, Some(UnsetList(names)), toInc, toPush, toPull);
            var byMap := BuildUpdateQuery(toSet, Some(UnsetMap(m)), toInc, toPush, toPull);
            && byList.None? == byMap.None?
            && (byList.Some? ==> byList.value.Keys == byMap.value.Keys)
            && (byList.Some? && UNSET in byList.value ==>
                  byList.value[UNSET].Keys == byMap.value[UNSET].Keys)
            && ((forall f :: f in m ==> m[f] == Bool(true)) ==> byList == byMap)
  {
    var byList := BuildUpdateQuery(toSet, Some(UnsetList(names)), toInc, toPush, toPull);
    var byMap := BuildUpdateQuery(toSet, Some(UnsetMap(m)), toInc, toPush, toPull);
    UnsetTruthyMeansNonEmpty(UnsetList(names));
    UnsetTruthyMeansNonEmpty(UnsetMap(m));
    if forall f :: f in m ==> m[f] == Bool(true) {
      assert MarkUnset(names) == m;
      if byList.Some? {
        assert byList.value == byMap.value;
      }
    }
  }

  /** Each operator entry depends on its own argument only: changing the other
      four arguments leaves that entry as it was. */
  lemma EntriesIndependent(toSet: Option<Fields>, toUnset: Option<Unset>, toInc: Option<Fields>,
                           toPush: Option<Fields>, toPull: Option<Fields>,
                           toSet': Option<Fields>, toUnset': Option<Unset>, toInc': Option<Fields>,
                           toPush': Option<Fields>, toPull': Option<Fields>, op: string)
    requires op == SET ==> toSet == toSet'
    requires op == UNSET ==> toUnset == toUnset'
    requires op == INC ==> toInc == toInc'
    requires op == PUSH ==> toPush == toPush'
    requires op == PULL ==> toPull == toPull'
    ensures var q := BuildUpdateQuery(toSet, toUnset, toInc, toPush, toPull);
            var q' := BuildUpdateQuery(toSet', toUnset', toInc', toPush', toPull');
            && (q.Some? && op in q.value <==> q'.Some? && op in q'.value)
            && (q.Some? && op in q.value ==> q.value[op] == q'.value[op])
  {
    var q := BuildUpdateQuery(toSet, toUnset, toInc, toPush, toPull);
    var q' := BuildUpdateQuery(toSet', toUnset', toInc', toPush', toPull');
    if op == SET {
    } else if op == UNSET {
    } else if op == INC {
    } else if op == PUSH {
    } else if op == PULL {
    } else {
      assert q.Some? ==> op !in q.value;
      assert q'.Some? ==> op !in q'.value;
    }
  }

}
