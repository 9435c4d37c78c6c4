// Whom the conditions of a flag are evaluated for, and what a matching one
// gives.

module Placement {

  import opened Wrappers
  import opened Reasons
  import opened Folding
  import opened FlagFolding
  import opened Filters
  import opened Definitions
  import opened CohortScan
  import opened Bucketing
  import opened Evaluator

  /**
   * A group named by a condition and the same group named by a flag are
   * evaluated for the same key and properties, given the group's properties.
   */
  lemma ConditionAndFlagAgree(w: World, flag: Flag, index: nat, call: Call)
    requires flag.aggregation == Some(index) && GroupPlace(w, index, call.groups).At?
    ensures var place := GroupPlace(w, index, call.groups);
            SubjectOf(w, flag, call) == Subject(Ctx(place.id, None, place.props))
  {
  }

  /** They differ when the group's properties were not passed: the flag goes on with the key alone. */
  lemma WithoutGroupProperties(w: World, flag: Flag, index: nat, call: Call)
    requires flag.aggregation == Some(index) && GroupPlace(w, index, call.groups).Unknown?
    ensures var key := call.groups.keys[w.scope.defs.groupTypes[index]];
            match GroupKey(w, key)
            case None => SubjectOf(w, flag, call) == NoSubject(Broken)
            case Some(id) => SubjectOf(w, flag, call) == Subject(Ctx(id, None, map["$group_key" := key]))
  {
  }

  lemma {:induction false} CoveringIsDeclared(table: seq<Band>, hash: real, key: string)
    requires FirstCovering(table, hash) == Variant(key)
    ensures exists i :: 0 <= i < |table| && table[i].key == key
  {
    if !Covers(table[0], hash) {
      CoveringIsDeclared(table[1..], hash, key);
      var i :| 0 <= i < |table[1..]| && table[1..][i].key == key;
      assert table[i + 1].key == key;
    }
  }

  /** A matching condition gives true or one of the flag's own variants, its override first. */
  lemma ValueIsDeclared(w: World, flag: Flag, c: Condition, id: string)
    ensures var v := ConditionValue(w, flag, c, id);
            v == Boolean(true) || exists i :: 0 <= i < |flag.variants| && v == Variant(flag.variants[i].0)
    ensures forall i :: 0 <= i < |flag.variants| && c.variant == Some(flag.variants[i].0) ==>
              ConditionValue(w, flag, c, id) == Variant(flag.variants[i].0)
  {
    var v := ConditionValue(w, flag, c, id);
    if v == MatchingVariant(w.digest, flag, id) && v.Variant? {
      var table := Bands(flag.variants, 0.0);
      var hash := FlagHash(w.digest, flag.key, id, "variant");
      CoveringIsDeclared(table, hash, v.key);
      var i :| 0 <= i < |table| && table[i].key == v.key;
      BandAt(flag.variants, 0.0, i);
    } else {
      CoveringIsBoolean(Bands(flag.variants, 0.0), FlagHash(w.digest, flag.key, id, "variant"));
    }
  }

  lemma {:induction false} CoveringIsBoolean(table: seq<Band>, hash: real)
    ensures FirstCovering(table, hash).Boolean? ==> FirstCovering(table, hash) == Boolean(true)
  {
    if |table| > 0 {
      CoveringIsBoolean(table[1..], hash);
    }
  }
}
