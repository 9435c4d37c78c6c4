// What the list, text and version operators of property filters come to: text
// operators imply each other, and version ranges are intervals of an order.

module Operators {

  import opened Wrappers
  import opened Reasons
  import opened Filters

  function As(f: Filter, operator: string): Filter {
    f.(operator := operator)
  }

  function Answer(o: Oracle, f: Filter, operator: string, props: Properties, version: int): Outcome {
    MatchValue(o, As(f, operator), props, version)
  }

  /** A value that starts or ends with the text contains it. */
  lemma TextImplies(o: Oracle, f: Filter, props: Properties, version: int)
    requires f.key in props
    ensures Answer(o, f, "starts_with", props, version) == Decided(true) ==>
              Answer(o, f, "icontains", props, version) == Decided(true)
    ensures Answer(o, f, "ends_with", props, version) == Decided(true) ==>
              Answer(o, f, "icontains", props, version) == Decided(true)
  {
    var actual := Shown("icontains", props[f.key]);
    var value, wanted := AsciiLower(o.text(actual)), AsciiLower(o.text(f.value));
    if wanted <= value {
      assert FoundAt(value, wanted, 0);
    }
    if HasSuffix(value, wanted) {
      assert FoundAt(value, wanted, |value| - |wanted|);
    }
  }

  /** Versions are totally ordered. */
  lemma VersionsAreOrdered(a: Semver, b: Semver, c: Semver)
    ensures Compare(a, b) == -Compare(b, a) && (Compare(a, b) == 0 <==> a == b)
    ensures Compare(a, b) <= 0 && Compare(b, c) <= 0 ==> Compare(a, c) <= 0
  {
  }

  /** ~1.2.3 and ^1.2.3 hold just from that version to the next minor, or the next leftmost nonzero part. */
  lemma RangesAreIntervals(o: Oracle, value: Value, actual: Value)
    requires value.Str? && actual.Str? && o.semver(value.s).Some? && o.semver(actual.s).Some?
    ensures var v, found := o.semver(value.s).value, o.semver(actual.s).value;
            && (MatchVersion(o, "semver_tilde", value, actual) == Decided(true) <==>
                  found.major == v.major && found.minor == v.minor && found.patch >= v.patch)
            && (MatchVersion(o, "semver_caret", value, actual) == Decided(true) <==>
                  && Compare(found, v) >= 0 && found.major == v.major
                  && (v.major == 0 ==> found.minor == v.minor)
                  && (v.major == 0 && v.minor == 0 ==> found.patch == v.patch))
  {
  }

  /** A list matches by one unambiguous item, and fails to match only if no item was ambiguous. */
  lemma {:induction false} ExactListMeans(o: Oracle, items: seq<Value>, text: string, had: bool)
    ensures ExactList(o, items, text, had) == Decided(true) <==>
              exists i :: 0 <= i < |items| && !Ambiguous(items[i]) && o.exactText(items[i]) == text
    ensures ExactList(o, items, text, had) == Decided(false) <==>
              !had && forall i :: 0 <= i < |items| ==> !Ambiguous(items[i]) && o.exactText(items[i]) != text
    ensures ExactList(o, items, text, had) in {Decided(true), Decided(false), UNSUPPORTED}
  {
    if |items| > 0 {
      ExactListMeans(o, items[1..], text, had || Ambiguous(items[0]));
      assert forall i :: 0 < i < |items| ==> items[i] == items[1..][i - 1];
    }
  }
}
