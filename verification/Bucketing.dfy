// Which identities a rollout, a holdout or a variant takes in: all three hash a
// bucketing value into [0, 1]. Percentages and hashes are exact here.

module Bucketing {

  import opened Wrappers
  import opened Reasons
  import opened Definitions
  import opened FlagFolding

  /** The first 60 bits of a digest: any function of the text will do. */
  type Digest = string -> nat

  const LONG_SCALE: nat := 0xfff_ffff_ffff_ffff

  /** The largest digest hashes to exactly 1. */
  function Hash(digest: Digest, input: string): (h: real)
    ensures 0.0 <= h <= 1.0
  {
    var bits := digest(input) % (LONG_SCALE + 1);
    bits as real / LONG_SCALE as real
  }

  function FlagHash(digest: Digest, key: string, id: string, salt: string): real {
    Hash(digest, key + "." + id + salt)
  }

  function HoldoutHash(digest: Digest, id: string): real {
    Hash(digest, "holdout-" + id)
  }

  // ------------------------------------------------------------ rollouts

  /** checkIfSimpleFlagEnabled */
  predicate InRollout(digest: Digest, key: string, id: string, percentage: real) {
    FlagHash(digest, key, id, "") <= percentage / 100.0
  }

  /** Raising a rollout keeps everyone in it; at 100 everyone is in, and below 0 no one. */
  lemma RolloutOnlyGrows(digest: Digest, key: string, id: string, p: real, q: real)
    ensures p <= q && InRollout(digest, key, id, p) ==> InRollout(digest, key, id, q)
    ensures q >= 100.0 ==> InRollout(digest, key, id, q)
    ensures p < 0.0 ==> !InRollout(digest, key, id, p)
  {
  }

  // ------------------------------------------------------------ variants

  datatype Band = Band(min: real, max: real, key: string)

  /** The table that getVariantLookupTable builds, from `min` on. */
  function Bands(variants: seq<(string, real)>, min: real): (table: seq<Band>)
    ensures |table| == |variants|
  {
    if |variants| == 0 then [] else
      var max := min + variants[0].1 / 100.0;
      [Band(min, max, variants[0].0)] + Bands(variants[1..], max)
  }

  lemma Regroup<T>(x: seq<T>, y: seq<T>, z: seq<T>)
    ensures (x + y) + z == x + (y + z)
  {
  }

  method VariantLookupTable(variants: seq<(string, real)>) returns (table: seq<Band>)
    ensures table == Bands(variants, 0.0)
  {
    table := [];
    var valueMin, i := 0.0, 0;
    while i < |variants|
      invariant i <= |variants|
      invariant table + Bands(variants[i..], valueMin) == Bands(variants, 0.0)
    {
      var valueMax := valueMin + variants[i].1 / 100.0;
      var band := Band(valueMin, valueMax, variants[i].0);
      assert variants[i..][1..] == variants[i + 1..];
      assert Bands(variants[i..], valueMin) == [band] + Bands(variants[i + 1..], valueMax);
      Regroup(table, [band], Bands(variants[i + 1..], valueMax));
      table := table + [band];
      valueMin := valueMax;
      i := i + 1;
    }
  }

  predicate Covers(b: Band, hash: real) {
    b.min <= hash < b.max
  }

  function Sum(variants: seq<(string, real)>): real {
    if |variants| == 0 then 0.0 else variants[0].1 + Sum(variants[1..])
  }

  ghost predicate NonNegative(variants: seq<(string, real)>) {
    forall i :: 0 <= i < |variants| ==> variants[i].1 >= 0.0
  }

  lemma {:induction false} SumOfPrefix(variants: seq<(string, real)>, i: nat)
    requires i < |variants|
    ensures Sum(variants[..i + 1]) == Sum(variants[..i]) + variants[i].1
  {
    if i == 0 {
      assert variants[..1][1..] == [] && variants[..0] == [];
    } else {
      SumOfPrefix(variants[1..], i - 1);
      assert variants[..i + 1][1..] == variants[1..][..i];
      assert variants[..i][1..] == variants[1..][..i - 1];
    }
  }

  lemma {:induction false} SumGrows(variants: seq<(string, real)>, i: nat, j: nat)
    requires NonNegative(variants) && i <= j <= |variants|
    ensures Sum(variants[..i]) <= Sum(variants[..j])
    decreases j - i
  {
    if i < j {
      SumGrows(variants, i, j - 1);
      SumOfPrefix(variants, j - 1);
    }
  }

  /** Band i runs from the percentages before it to those up to it. */
  lemma {:induction false} BandAt(variants: seq<(string, real)>, min: real, i: nat)
    requires i < |variants|
    ensures Bands(variants, min)[i]
         == Band(min + Sum(variants[..i]) / 100.0, min + Sum(variants[..i + 1]) / 100.0, variants[i].0)
  {
    if i == 0 {
      assert variants[..1][1..] == [];
    } else {
      BandAt(variants[1..], min + variants[0].1 / 100.0, i - 1);
      assert variants[..i][1..] == variants[1..][..i - 1];
      assert variants[..i + 1][1..] == variants[1..][..i];
    }
  }

  /** The loop of getMatchingVariant. */
  function FirstCovering(table: seq<Band>, hash: real): FlagValue {
    if |table| == 0 then Boolean(true)
    else if Covers(table[0], hash) then Variant(table[0].key)
    else FirstCovering(table[1..], hash)
  }

  function MatchingVariant(digest: Digest, flag: Flag, id: string): FlagValue {
    FirstCovering(Bands(flag.variants, 0.0), FlagHash(digest, flag.key, id, "variant"))
  }

  method GetMatchingVariant(digest: Digest, flag: Flag, id: string) returns (value: FlagValue)
    ensures value == MatchingVariant(digest, flag, id)
  {
    if |flag.variants| == 0 {
      return Boolean(true);
    }
    var table := VariantLookupTable(flag.variants);
    var hash := FlagHash(digest, flag.key, id, "variant");
    var i := 0;
    while i < |table|
      invariant i <= |table|
      invariant FirstCovering(table, hash) == FirstCovering(table[i..], hash)
    {
      assert table[i..][1..] == table[i + 1..];
      if Covers(table[i], hash) {
        return Variant(table[i].key);
      }
      i := i + 1;
    }
    return Boolean(true);
  }

  lemma {:induction false} FirstCoveringMeans(table: seq<Band>, hash: real)
    ensures FirstCovering(table, hash) == Boolean(true) <==>
              forall i :: 0 <= i < |table| ==> !Covers(table[i], hash)
    ensures forall i :: 0 <= i < |table| && Covers(table[i], hash)
              && (forall j :: 0 <= j < |table| && Covers(table[j], hash) ==> i == j)
              ==> FirstCovering(table, hash) == Variant(table[i].key)
  {
    if |table| > 0 && !Covers(table[0], hash) {
      FirstCoveringMeans(table[1..], hash);
      assert forall i :: 0 < i < |table| ==> table[i] == table[1..][i - 1];
      forall i | 0 <= i < |table| && Covers(table[i], hash)
        && (forall j :: 0 <= j < |table| && Covers(table[j], hash) ==> i == j)
        ensures FirstCovering(table, hash) == Variant(table[i].key)
      {
        assert Covers(table[1..][i - 1], hash);
        assert forall j :: 0 <= j < |table[1..]| && Covers(table[1..][j], hash) ==> j == i - 1;
      }
    }
  }

  /** The share of variant i: from the percentages before it up to its own. */
  predicate Share(variants: seq<(string, real)>, i: nat, hash: real)
    requires i < |variants|
  {
    Sum(variants[..i]) / 100.0 <= hash < Sum(variants[..i + 1]) / 100.0
  }

  lemma {:induction false} SomeShareHolds(variants: seq<(string, real)>, n: nat, hash: real) returns (i: nat)
    requires n <= |variants| && 0.0 <= hash < Sum(variants[..n]) / 100.0
    ensures i < n && Share(variants, i, hash)
  {
    if Sum(variants[..n - 1]) / 100.0 <= hash {
      i := n - 1;
    } else {
      i := SomeShareHolds(variants, n - 1, hash);
    }
  }

  lemma SharesAreDisjoint(variants: seq<(string, real)>, i: nat, j: nat, hash: real)
    requires NonNegative(variants) && i < |variants| && j < |variants|
    requires Share(variants, i, hash) && Share(variants, j, hash)
    ensures i == j
  {
    if i < j {
      SumGrows(variants, i + 1, j);
    } else if j < i {
      SumGrows(variants, j + 1, i);
    }
  }

  lemma ShareIsBelowSum(variants: seq<(string, real)>, i: nat, hash: real)
    requires NonNegative(variants) && i < |variants| && Share(variants, i, hash)
    ensures hash < Sum(variants) / 100.0
  {
    SumGrows(variants, i + 1, |variants|);
    assert variants[..|variants|] == variants;
  }

  lemma BandsAreShares(variants: seq<(string, real)>, hash: real)
    ensures forall k :: 0 <= k < |variants| ==>
              && (Covers(Bands(variants, 0.0)[k], hash) <==> Share(variants, k, hash))
              && Bands(variants, 0.0)[k].key == variants[k].0
  {
    forall k: nat | k < |variants|
      ensures Covers(Bands(variants, 0.0)[k], hash) <==> Share(variants, k, hash)
      ensures Bands(variants, 0.0)[k].key == variants[k].0
    {
      BandAt(variants, 0.0, k);
    }
  }

  /** A hash in the share of a variant selects that variant. */
  lemma ShareSelects(variants: seq<(string, real)>, i: nat, hash: real)
    requires NonNegative(variants) && i < |variants| && Share(variants, i, hash)
    ensures FirstCovering(Bands(variants, 0.0), hash) == Variant(variants[i].0)
  {
    var table := Bands(variants, 0.0);
    BandsAreShares(variants, hash);
    FirstCoveringMeans(table, hash);
    forall j | 0 <= j < |table| && Covers(table[j], hash) ensures i == j {
      SharesAreDisjoint(variants, i, j, hash);
    }
    assert Covers(table[i], hash);
  }

  /**
   * The shares tile [0, sum/100): a hash below the sum lies in exactly one and
   * selects its variant; any other hash leaves the flag plainly true.
   */
  lemma VariantsTile(digest: Digest, flag: Flag, id: string)
    requires NonNegative(flag.variants)
    ensures var h, vs := FlagHash(digest, flag.key, id, "variant"), flag.variants;
            if h < Sum(vs) / 100.0
            then exists i ::
                   && 0 <= i < |vs| && Share(vs, i, h)
                   && MatchingVariant(digest, flag, id) == Variant(vs[i].0)
                   && (forall j :: 0 <= j < |vs| && Share(vs, j, h) ==> j == i)
            else MatchingVariant(digest, flag, id) == Boolean(true)
  {
    var h, vs := FlagHash(digest, flag.key, id, "variant"), flag.variants;
    if h < Sum(vs) / 100.0 {
      assert vs[..|vs|] == vs;
      var i := SomeShareHolds(vs, |vs|, h);
      ShareSelects(vs, i, h);
      forall j | 0 <= j < |vs| && Share(vs, j, h) ensures j == i {
        SharesAreDisjoint(vs, i, j, h);
      }
    } else {
      BandsAreShares(vs, h);
      FirstCoveringMeans(Bands(vs, 0.0), h);
      forall i | 0 <= i < |vs| ensures !Covers(Bands(vs, 0.0)[i], h) {
        if Share(vs, i, h) {
          ShareIsBelowSum(vs, i, h);
        }
      }
    }
  }

  // ------------------------------------------------------------ holdouts

  datatype Membership = NotHeld | Held(variant: string) | NeedsDevice

  function Clamp(percentage: real): real {
    var floored := if percentage < 0.0 then 0.0 else percentage;
    if floored > 100.0 then 100.0 else floored
  }

  /** getBucketingID */
  function BucketingId(flag: Flag, distinctId: string, deviceId: Option<string>): string {
    if flag.deviceBucketed && deviceId.Some? then deviceId.value else distinctId
  }

  /** getHoldoutVariant */
  function HoldoutVariant(digest: Digest, flag: Flag, distinctId: string, deviceId: Option<string>): Membership {
    if flag.holdout.None? || flag.holdout.value.percentage.None? || flag.holdout.value.id.None? then NotHeld
    else
      var percentage := Clamp(flag.holdout.value.percentage.value);
      if percentage != 100.0 && flag.aggregation.None? && flag.deviceBucketed && deviceId.GetOr("") == "" then NeedsDevice
      else if percentage != 100.0
        && HoldoutHash(digest, BucketingId(flag, distinctId, deviceId)) > percentage / 100.0 then NotHeld
      else Held("holdout-" + flag.holdout.value.id.value)
  }

  predicate Usable(h: Option<Holdout>) {
    h.Some? && h.value.percentage.Some? && h.value.id.Some?
  }

  /** The holdout of a flag at another percentage. */
  function AtPercentage(flag: Flag, p: real): Flag
    requires flag.holdout.Some?
  {
    flag.(holdout := Some(flag.holdout.value.(percentage := Some(p))))
  }

  /** Raising a holdout keeps everyone in it; from 100 on everyone is held, whatever the hash. */
  lemma HoldoutOnlyGrows(digest: Digest, flag: Flag, distinctId: string, deviceId: Option<string>, p: real, q: real)
    requires Usable(flag.holdout)
    ensures p <= q && HoldoutVariant(digest, AtPercentage(flag, p), distinctId, deviceId).Held? ==>
              HoldoutVariant(digest, AtPercentage(flag, q), distinctId, deviceId)
              == HoldoutVariant(digest, AtPercentage(flag, p), distinctId, deviceId)
    ensures q >= 100.0 ==> HoldoutVariant(digest, AtPercentage(flag, q), distinctId, deviceId).Held?
    ensures HoldoutVariant(digest, AtPercentage(flag, p), distinctId, deviceId)
         == HoldoutVariant(digest, AtPercentage(flag, Clamp(p)), distinctId, deviceId)
  {
  }

  /**
   * Where both can be told, two flags hold the same identities when the bucketing value and clamped
   * percentage agree.
   */
  lemma HoldoutIgnoresTheFlag(
      digest: Digest, a: Flag, b: Flag, idA: string, deviceA: Option<string>, idB: string, deviceB: Option<string>)
    requires Usable(a.holdout) && Usable(b.holdout)
    requires BucketingId(a, idA, deviceA) == BucketingId(b, idB, deviceB)
    requires Clamp(a.holdout.value.percentage.value) == Clamp(b.holdout.value.percentage.value)
    requires !HoldoutVariant(digest, a, idA, deviceA).NeedsDevice?
    requires !HoldoutVariant(digest, b, idB, deviceB).NeedsDevice?
    ensures HoldoutVariant(digest, a, idA, deviceA).Held? <==> HoldoutVariant(digest, b, idB, deviceB).Held?
  {
  }

  /** A device-bucketed person flag with a partial holdout is undecided exactly without a device. */
  lemma NeedsDeviceMeans(digest: Digest, flag: Flag, distinctId: string, deviceId: Option<string>)
    requires Usable(flag.holdout)
    ensures HoldoutVariant(digest, flag, distinctId, deviceId).NeedsDevice? <==>
              && flag.holdout.value.percentage.value < 100.0
              && flag.aggregation.None? && flag.deviceBucketed && (deviceId == None || deviceId == Some(""))
  {
  }
}
