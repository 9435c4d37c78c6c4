// The truncation algebra behind event pruning: long strings, wide collections
// and deep nesting are cut, and cutting twice is cutting once to the smaller
// depth.

module Truncation {

  import opened Utf8

  const MAX_DEPTH := 10
  const MAX_BREADTH: nat := 100
  const MAX_STRING_BYTES: nat := 32_768

  const SUFFIX: Bytes := [0x2E, 0x2E, 0x2E]   // "..."

  // ------------------------------------------------------------ strings

  /** The nearest place at or before `end` where a character starts. */
  function CutPoint(s: Bytes, end: nat): (cut: nat)
    requires end < |s|
    ensures cut <= end && (cut == 0 || RuneStart(s[cut]))
    ensures forall i :: cut < i <= end ==> !RuneStart(s[i])
  {
    if end > 0 && !RuneStart(s[end]) then CutPoint(s, end - 1) else end
  }

  function TruncateUtf8(value: Bytes, limit: nat): Bytes {
    var s := ToValid(value, false);
    if |s| <= limit then s
    else if limit <= |SUFFIX| then SUFFIX[..limit]
    else s[..CutPoint(s, limit - |SUFFIX|)] + SUFFIX
  }

  /** truncateUTF8, with the loop that walks the end back. */
  method TruncateUTF8(value: Bytes, limit: nat) returns (result: Bytes)
    ensures result == TruncateUtf8(value, limit)
  {
    var s := ToValid(value, false);
    if |s| <= limit {
      return s;
    }
    if limit <= |SUFFIX| {
      return SUFFIX[..limit];
    }
    var end: nat := limit - |SUFFIX|;
    while end > 0 && !RuneStart(s[end])
      invariant end <= limit - |SUFFIX|
      invariant CutPoint(s, end) == CutPoint(s, limit - |SUFFIX|)
    {
      end := end - 1;
    }
    return s[..end] + SUFFIX;
  }

  /** A truncated string is UTF-8 within the limit. */
  lemma TruncatedFits(value: Bytes, limit: nat)
    ensures Valid(TruncateUtf8(value, limit)) && |TruncateUtf8(value, limit)| <= limit
  {
    var s := ToValid(value, false);
    ToValidIsValid(value, false);
    if |s| > limit {
      if limit <= |SUFFIX| {
        AsciiIsValid(SUFFIX[..limit]);
      } else {
        var cut := CutPoint(s, limit - |SUFFIX|);
        CutIsValid(s, cut);
        AsciiIsValid(SUFFIX);
        ValidJoins(s[..cut], SUFFIX);
      }
    }
  }

  /** A string that fits and is UTF-8 is kept as it is. */
  lemma FittingIsKept(s: Bytes, limit: nat)
    requires Valid(s) && |s| <= limit
    ensures TruncateUtf8(s, limit) == s
  {
    ValidIsKept(s, false);
  }

  /** No shorter cut would do: the next character would not fit before the suffix. */
  lemma TruncatedIsMaximal(value: Bytes, limit: nat)
    requires |ToValid(value, false)| > limit > |SUFFIX|
    ensures var s := ToValid(value, false);
            exists cut: nat :: cut < |s| && TruncateUtf8(value, limit) == s[..cut] + SUFFIX
              && forall i :: cut < i < |s| && RuneStart(s[i]) ==> i + |SUFFIX| > limit
  {
    var s := ToValid(value, false);
    assert TruncateUtf8(value, limit) == s[..CutPoint(s, limit - |SUFFIX|)] + SUFFIX;
  }

  // ------------------------------------------------------------ nested values

  /** A decoded JSON value. A map is the list of its fields in the order of their keys, each key once. */
  datatype Value = Text(bytes: Bytes) | List(items: seq<Value>) | Object(fields: seq<Field>) | Other(id: int)
  datatype Field = Field(key: Bytes, value: Value)

  /** The byte-wise order of strings that sort.Strings uses. */
  predicate Before(a: Bytes, b: Bytes)
    decreases |a|
  {
    |b| > 0 && (|a| == 0 || a[0] < b[0] || (a[0] == b[0] && Before(a[1..], b[1..])))
  }

  ghost predicate Sorted(fs: seq<Field>) {
    forall i, j :: 0 <= i < j < |fs| ==> Before(fs[i].key, fs[j].key)
  }

  ghost predicate WellFormed(v: Value) {
    match v
    case List(items) => forall i :: 0 <= i < |items| ==> WellFormed(items[i])
    case Object(fields) => Sorted(fields) && forall i :: 0 <= i < |fields| ==> WellFormed(fields[i].value)
    case _ => true
  }

  /** result[key] = value */
  function Put(fs: seq<Field>, key: Bytes, value: Value): (r: seq<Field>)
    ensures |fs| <= |r| <= |fs| + 1
  {
    if |fs| == 0 then [Field(key, value)]
    else if fs[0].key == key then [Field(key, value)] + fs[1..]
    else if Before(key, fs[0].key) then [Field(key, value)] + fs
    else [fs[0]] + Put(fs[1..], key, value)
  }

  function Mark(s: string): Value
    requires forall i :: 0 <= i < |s| ==> s[i] < 128 as char
  {
    Text(Ascii(s))
  }

  const ARRAY_MARK := Mark("[Array]")
  const OBJECT_MARK := Mark("[Object]")
  const MORE_MARK := Mark("[MaxProperties ~]")

  /** How many of n elements are kept, when one must be left for the mark. */
  function Kept(n: nat): nat {
    if n > MAX_BREADTH then MAX_BREADTH - 1 else n
  }

  /** The fields kept of n, with the mark under the key "..." if some were dropped. */
  function Widened(kept: seq<Field>, n: nat): seq<Field> {
    if n > MAX_BREADTH then Put(kept, SUFFIX, MORE_MARK) else kept
  }

  function TruncateNested(v: Value, depth: int): Value
    decreases v
  {
    match v
    case Text(bytes) => Text(TruncateUtf8(bytes, MAX_STRING_BYTES))
    case List(items) =>
      if depth <= 0 then ARRAY_MARK
      else
        var kept := seq(Kept(|items|), i requires 0 <= i < Kept(|items|) => TruncateNested(items[i], depth - 1));
        List(if |items| > MAX_BREADTH then kept + [MORE_MARK] else kept)
    case Object(fields) =>
      if depth <= 0 then OBJECT_MARK
      else
        var kept := seq(Kept(|fields|), i requires 0 <= i < Kept(|fields|) =>
                          Field(fields[i].key, TruncateNested(fields[i].value, depth - 1)));
        Object(Widened(kept, |fields|))
    case Other(_) => v
  }

  function Min(a: int, b: int): int {
    if a < b then a else b
  }

  /** Every field truncated. */
  function TruncateFields(fs: seq<Field>, depth: int): (r: seq<Field>)
    ensures |r| == |fs|
  {
    seq(|fs|, i requires 0 <= i < |fs| => Field(fs[i].key, TruncateNested(fs[i].value, depth)))
  }

  function TruncateItems(items: seq<Value>, depth: int): (r: seq<Value>)
    ensures |r| == |items|
  {
    seq(|items|, i requires 0 <= i < |items| => TruncateNested(items[i], depth))
  }

  /** No deeper than `depth` levels of lists and objects. */
  ghost predicate Shallow(v: Value, depth: int) {
    match v
    case List(items) => depth > 0 && forall i :: 0 <= i < |items| ==> Shallow(items[i], depth - 1)
    case Object(fields) => depth > 0 && forall i :: 0 <= i < |fields| ==> Shallow(fields[i].value, depth - 1)
    case _ => true
  }

  /** Nothing too wide, no string too long, all of it UTF-8 (keys apart). */
  ghost predicate Bounded(v: Value) {
    match v
    case Text(bytes) => Valid(bytes) && |bytes| <= MAX_STRING_BYTES
    case List(items) => |items| <= MAX_BREADTH && forall i :: 0 <= i < |items| ==> Bounded(items[i])
    case Object(fields) => |fields| <= MAX_BREADTH && forall i :: 0 <= i < |fields| ==> Bounded(fields[i].value)
    case Other(_) => true
  }

  ghost predicate Fits(v: Value, depth: int) {
    Shallow(v, depth) && Bounded(v)
  }

  lemma MarkIsKept(s: string, depth: int)
    requires (forall i :: 0 <= i < |s| ==> s[i] < 128 as char) && |s| <= MAX_STRING_BYTES
    ensures TruncateNested(Mark(s), depth) == Mark(s) && Fits(Mark(s), depth)
  {
    AsciiIsValid(Ascii(s));
    FittingIsKept(Ascii(s), MAX_STRING_BYTES);
  }

  lemma {:induction false} PutCommutes(fs: seq<Field>, key: Bytes, value: Value, depth: int)
    ensures TruncateFields(Put(fs, key, value), depth) == Put(TruncateFields(fs, depth), key, TruncateNested(value, depth))
  {
    if |fs| > 0 {
      PutCommutes(fs[1..], key, value, depth);
      FieldsSplit(fs[0], fs[1..], depth);
      FieldsSplit(fs[0], Put(fs[1..], key, value), depth);
      FieldsSplit(Field(key, value), fs, depth);
      FieldsSplit(Field(key, value), fs[1..], depth);
      assert [fs[0]] + fs[1..] == fs;
    }
  }

  lemma FieldsSplit(f: Field, fs: seq<Field>, depth: int)
    ensures TruncateFields([f] + fs, depth) == [Field(f.key, TruncateNested(f.value, depth))] + TruncateFields(fs, depth)
  {
  }

  lemma ListTruncates(items: seq<Value>, depth: int)
    requires depth > 0
    ensures TruncateNested(List(items), depth)
         == List(TruncateItems(items[..Kept(|items|)], depth - 1) + More(|items|))
  {
  }

  lemma ObjectTruncates(fs: seq<Field>, depth: int)
    requires depth > 0
    ensures TruncateNested(Object(fs), depth) == Object(Widened(TruncateFields(fs[..Kept(|fs|)], depth - 1), |fs|))
  {
    var kept := TruncateFields(fs[..Kept(|fs|)], depth - 1);
    assert kept == seq(Kept(|fs|), i requires 0 <= i < Kept(|fs|) => Field(fs[i].key, TruncateNested(fs[i].value, depth - 1)));
  }

  lemma TextComposes(bytes: Bytes, a: int, b: int)
    ensures TruncateNested(TruncateNested(Text(bytes), a), b) == TruncateNested(Text(bytes), Min(a, b))
  {
    TruncatedFits(bytes, MAX_STRING_BYTES);
    FittingIsKept(TruncateUtf8(bytes, MAX_STRING_BYTES), MAX_STRING_BYTES);
  }

  /** Truncation composes: cutting at a and then at b is cutting once at the smaller. */
  lemma {:induction false} TruncationComposes(v: Value, a: int, b: int)
    ensures TruncateNested(TruncateNested(v, a), b) == TruncateNested(v, Min(a, b))
    decreases v
  {
    match v
    case Text(bytes) => TextComposes(bytes, a, b);
    case Other(_) =>
    case List(items) =>
      if a <= 0 {
        MarkIsKept("[Array]", b);
      } else if b > 0 {
        forall i | 0 <= i < |items|
          ensures TruncateNested(TruncateNested(items[i], a - 1), b - 1) == TruncateNested(items[i], Min(a - 1, b - 1))
        {
          TruncationComposes(items[i], a - 1, b - 1);
        }
        ListComposes(items, a, b);
      }
    case Object(fields) =>
      if a <= 0 {
        MarkIsKept("[Object]", b);
      } else if b > 0 {
        forall i | 0 <= i < |fields|
          ensures TruncateNested(TruncateNested(fields[i].value, a - 1), b - 1)
               == TruncateNested(fields[i].value, Min(a - 1, b - 1))
        {
          TruncationComposes(fields[i].value, a - 1, b - 1);
        }
        ObjectComposes(fields, a, b);
      }
  }

  lemma ItemsCompose(items: seq<Value>, a: int, b: int)
    requires forall i :: 0 <= i < |items| ==>
               TruncateNested(TruncateNested(items[i], a), b) == TruncateNested(items[i], Min(a, b))
    ensures TruncateItems(TruncateItems(items, a), b) == TruncateItems(items, Min(a, b))
  {
  }

  lemma FieldsCompose(fs: seq<Field>, a: int, b: int)
    requires forall i :: 0 <= i < |fs| ==>
               TruncateNested(TruncateNested(fs[i].value, a), b) == TruncateNested(fs[i].value, Min(a, b))
    ensures TruncateFields(TruncateFields(fs, a), b) == TruncateFields(fs, Min(a, b))
  {
  }

  lemma ItemsJoin(x: seq<Value>, y: seq<Value>, depth: int)
    ensures TruncateItems(x + y, depth) == TruncateItems(x, depth) + TruncateItems(y, depth)
  {
  }

  lemma MoreMarkIsKept(depth: int)
    ensures TruncateNested(MORE_MARK, depth) == MORE_MARK
  {
    MarkIsKept("[MaxProperties ~]", depth);
  }

  lemma MoreMarkFits(depth: int)
    ensures Fits(MORE_MARK, depth)
  {
    MarkIsKept("[MaxProperties ~]", depth);
  }

  /** The mark after a list that was too wide, if it was. */
  function More(n: nat): seq<Value> {
    if n > MAX_BREADTH then [MORE_MARK] else []
  }

  lemma MoreIsKept(n: nat, depth: int)
    ensures TruncateItems(More(n), depth) == More(n)
  {
    MoreMarkIsKept(depth);
  }

  lemma ListComposes(items: seq<Value>, a: int, b: int)
    requires a > 0 && b > 0
    requires forall i :: 0 <= i < |items| ==>
               TruncateNested(TruncateNested(items[i], a - 1), b - 1) == TruncateNested(items[i], Min(a - 1, b - 1))
    ensures TruncateNested(TruncateNested(List(items), a), b) == TruncateNested(List(items), Min(a, b))
  {
    var front := items[..Kept(|items|)];
    var kept := TruncateItems(front, a - 1);
    ListTruncates(items, a);
    MarkedList(kept, |items|, b);
    ItemsCompose(front, a - 1, b - 1);
    ListTruncates(items, Min(a, b));
  }

  lemma MarkedList(kept: seq<Value>, n: nat, depth: int)
    requires depth > 0 && |kept| == Kept(n)
    ensures TruncateNested(List(kept + More(n)), depth) == List(TruncateItems(kept, depth - 1) + More(n))
  {
    ItemsJoin(kept, More(n), depth - 1);
    MoreIsKept(n, depth - 1);
    NarrowListTruncates(kept + More(n), depth, TruncateItems(kept, depth - 1) + More(n));
  }

  lemma NarrowListTruncates(items: seq<Value>, depth: int, out: seq<Value>)
    requires depth > 0 && |items| <= MAX_BREADTH && out == TruncateItems(items, depth - 1)
    ensures TruncateNested(List(items), depth) == List(out)
  {
  }

  lemma ObjectComposes(fs: seq<Field>, a: int, b: int)
    requires a > 0 && b > 0
    requires forall i :: 0 <= i < |fs| ==>
               TruncateNested(TruncateNested(fs[i].value, a - 1), b - 1) == TruncateNested(fs[i].value, Min(a - 1, b - 1))
    ensures TruncateNested(TruncateNested(Object(fs), a), b) == TruncateNested(Object(fs), Min(a, b))
  {
    var front := fs[..Kept(|fs|)];
    var kept := TruncateFields(front, a - 1);
    ObjectTruncates(fs, a);
    WidenedObject(kept, |fs|, b);
    FieldsCompose(front, a - 1, b - 1);
    ObjectTruncates(fs, Min(a, b));
  }

  lemma WidenedObject(kept: seq<Field>, n: nat, depth: int)
    requires depth > 0 && |kept| == Kept(n)
    ensures TruncateNested(Object(Widened(kept, n)), depth) == Object(Widened(TruncateFields(kept, depth - 1), n))
  {
    WidenedFits(kept, n);
    WidenedTruncates(kept, n, depth - 1);
    NarrowTruncates(Widened(kept, n), depth, Widened(TruncateFields(kept, depth - 1), n));
  }

  lemma WidenedFits(kept: seq<Field>, n: nat)
    requires |kept| == Kept(n)
    ensures |Widened(kept, n)| <= MAX_BREADTH
  {
  }

  lemma NarrowTruncates(fs: seq<Field>, depth: int, out: seq<Field>)
    requires depth > 0 && |fs| <= MAX_BREADTH && out == TruncateFields(fs, depth - 1)
    ensures TruncateNested(Object(fs), depth) == Object(out)
  {
  }

  lemma WidenedTruncates(kept: seq<Field>, n: nat, depth: int)
    ensures TruncateFields(Widened(kept, n), depth) == Widened(TruncateFields(kept, depth), n)
  {
    PutCommutes(kept, SUFFIX, MORE_MARK, depth);
    MoreMarkIsKept(depth);
  }

  // ------------------------------------------------------------ bounds

  lemma {:induction false} PutHolds(fs: seq<Field>, key: Bytes, value: Value)
    ensures forall i :: 0 <= i < |Put(fs, key, value)| ==>
              Put(fs, key, value)[i].value == value || exists j :: 0 <= j < |fs| && fs[j].value == Put(fs, key, value)[i].value
  {
    if |fs| > 0 {
      PutHolds(fs[1..], key, value);
      var r := Put(fs, key, value);
      forall i | 0 <= i < |r| ensures r[i].value == value || exists j :: 0 <= j < |fs| && fs[j].value == r[i].value {
        if fs[0].key != key && !Before(key, fs[0].key) && i > 0 {
          var rest := Put(fs[1..], key, value);
          assert r[i] == rest[i - 1];
          if r[i].value != value {
            var j :| 0 <= j < |fs[1..]| && fs[1..][j].value == rest[i - 1].value;
            assert fs[j + 1].value == r[i].value;
          }
        } else if fs[0].key != key && Before(key, fs[0].key) && i > 0 {
          assert r[i] == fs[i - 1];
        }
      }
    }
  }

  ghost predicate ItemsFit(items: seq<Value>, depth: int) {
    forall i :: 0 <= i < |items| ==> Fits(items[i], depth)
  }

  ghost predicate FieldsFit(fs: seq<Field>, depth: int) {
    forall i :: 0 <= i < |fs| ==> Fits(fs[i].value, depth)
  }

  lemma ListOfFitting(items: seq<Value>, depth: int)
    requires depth > 0 && |items| <= MAX_BREADTH && ItemsFit(items, depth - 1)
    ensures Fits(List(items), depth)
  {
  }

  lemma ObjectOfFitting(fs: seq<Field>, depth: int)
    requires depth > 0 && |fs| <= MAX_BREADTH && FieldsFit(fs, depth - 1)
    ensures Fits(Object(fs), depth)
  {
  }

  lemma PutFits(fs: seq<Field>, key: Bytes, value: Value, depth: int)
    requires FieldsFit(fs, depth) && Fits(value, depth)
    ensures FieldsFit(Put(fs, key, value), depth)
  {
  }

  lemma WidenedFieldsFit(kept: seq<Field>, n: nat, depth: int)
    requires FieldsFit(kept, depth)
    ensures FieldsFit(Widened(kept, n), depth)
  {
    MoreMarkFits(depth);
    PutFits(kept, SUFFIX, MORE_MARK, depth);
  }

  lemma JoinedFit(x: seq<Value>, y: seq<Value>, depth: int)
    requires ItemsFit(x, depth) && ItemsFit(y, depth)
    ensures ItemsFit(x + y, depth)
  {
  }

  lemma MoreFits(n: nat, depth: int)
    ensures ItemsFit(More(n), depth)
  {
    MoreMarkFits(depth);
  }

  lemma ListFits(items: seq<Value>, depth: int)
    requires depth > 0 && ItemsFit(TruncateItems(items, depth - 1), depth - 1)
    ensures Fits(TruncateNested(List(items), depth), depth)
  {
    var kept := TruncateItems(items[..Kept(|items|)], depth - 1);
    assert kept == TruncateItems(items, depth - 1)[..Kept(|items|)];
    ListTruncates(items, depth);
    MoreFits(|items|, depth - 1);
    JoinedFit(kept, More(|items|), depth - 1);
    ListOfFitting(kept + More(|items|), depth);
  }

  lemma ObjectFits(fs: seq<Field>, depth: int)
    requires depth > 0 && FieldsFit(TruncateFields(fs, depth - 1), depth - 1)
    ensures Fits(TruncateNested(Object(fs), depth), depth)
  {
    var kept := TruncateFields(fs[..Kept(|fs|)], depth - 1);
    assert kept == TruncateFields(fs, depth - 1)[..Kept(|fs|)];
    ObjectTruncates(fs, depth);
    WidenedFieldsFit(kept, |fs|, depth - 1);
    WidenedFits(kept, |fs|);
    ObjectOfFitting(Widened(kept, |fs|), depth);
  }

  /** A truncated value keeps within the depth, breadth and byte bounds. */
  lemma {:induction false} TruncatedIsBounded(v: Value, depth: int)
    ensures Fits(TruncateNested(v, depth), depth)
    decreases v
  {
    match v
    case Text(bytes) => TruncatedFits(bytes, MAX_STRING_BYTES);
    case Other(_) =>
    case List(items) =>
      if depth <= 0 {
        MarkIsKept("[Array]", depth);
      } else {
        forall i | 0 <= i < |items| ensures Fits(TruncateNested(items[i], depth - 1), depth - 1) {
          TruncatedIsBounded(items[i], depth - 1);
        }
        assert ItemsFit(TruncateItems(items, depth - 1), depth - 1);
        ListFits(items, depth);
      }
    case Object(fields) =>
      if depth <= 0 {
        MarkIsKept("[Object]", depth);
      } else {
        forall i | 0 <= i < |fields| ensures Fits(TruncateNested(fields[i].value, depth - 1), depth - 1) {
          TruncatedIsBounded(fields[i].value, depth - 1);
        }
        assert FieldsFit(TruncateFields(fields, depth - 1), depth - 1);
        ObjectFits(fields, depth);
      }
  }

  /** What already keeps within the bounds is left alone. */
  lemma {:induction false} BoundedIsKept(v: Value, depth: int)
    requires Fits(v, depth)
    ensures TruncateNested(v, depth) == v
    decreases v
  {
    match v
    case Text(bytes) => FittingIsKept(bytes, MAX_STRING_BYTES);
    case Other(_) =>
    case List(items) =>
      forall i | 0 <= i < |items| ensures TruncateNested(items[i], depth - 1) == items[i] {
        BoundedIsKept(items[i], depth - 1);
      }
      assert TruncateNested(v, depth).items == items;
    case Object(fields) =>
      forall i | 0 <= i < |fields| ensures TruncateNested(fields[i].value, depth - 1) == fields[i].value {
        BoundedIsKept(fields[i].value, depth - 1);
      }
      assert TruncateNested(v, depth).fields == fields;
  }

  /** A list that is too wide keeps all that fits before the mark, in order. */
  lemma WideListKeepsMost(items: seq<Value>, depth: int, i: nat)
    requires depth > 0 && |items| > MAX_BREADTH && i < MAX_BREADTH - 1
    ensures var r := TruncateNested(List(items), depth);
            && r.List? && |r.items| == MAX_BREADTH && r.items[MAX_BREADTH - 1] == MORE_MARK
            && r.items[i] == TruncateNested(items[i], depth - 1)
  {
    ListTruncates(items, depth);
  }

  ghost predicate HasField(fs: seq<Field>, key: Bytes, value: Value) {
    exists i :: 0 <= i < |fs| && fs[i] == Field(key, value)
  }

  lemma {:induction false} PutKeepsOthers(fs: seq<Field>, key: Bytes, value: Value, i: nat)
    requires i < |fs|
    ensures HasField(Put(fs, key, value), key, value)
    ensures fs[i].key != key ==> HasField(Put(fs, key, value), fs[i].key, fs[i].value)
  {
    var r := Put(fs, key, value);
    if fs[0].key == key {
      assert r[0] == Field(key, value) && (i > 0 ==> r[i] == fs[i]);
    } else if Before(key, fs[0].key) {
      assert r[0] == Field(key, value) && r[i + 1] == fs[i];
    } else {
      var rest := Put(fs[1..], key, value);
      assert r[0] == fs[0];
      if |fs| > 1 {
        PutKeepsOthers(fs[1..], key, value, if i > 0 then i - 1 else 0);
      }
      var m :| 0 <= m < |rest| && rest[m] == Field(key, value);
      assert r[m + 1] == rest[m];
      if i > 0 && fs[i].key != key {
        var n :| 0 <= n < |rest| && rest[n] == fs[i];
        assert r[n + 1] == rest[n];
      }
    }
  }

  /** A map that is too wide is marked, and keeps the fields of the first keys, all but one of the mark's own key. */
  lemma WideMapKeepsMost(fields: seq<Field>, depth: int, i: nat)
    requires depth > 0 && |fields| > MAX_BREADTH && i < MAX_BREADTH - 1
    ensures var r := TruncateNested(Object(fields), depth);
            && r.Object? && HasField(r.fields, SUFFIX, MORE_MARK)
            && (fields[i].key != SUFFIX ==>
                  HasField(r.fields, fields[i].key, TruncateNested(fields[i].value, depth - 1)))
  {
    ObjectTruncates(fields, depth);
    PutKeepsOthers(TruncateFields(fields[..Kept(|fields|)], depth - 1), SUFFIX, MORE_MARK, i);
  }

  // ------------------------------------------------------------ maps stay maps

  lemma {:induction false} BeforeIsTransitive(a: Bytes, b: Bytes, c: Bytes)
    requires Before(a, b) && Before(b, c)
    ensures Before(a, c)
    decreases |a|
  {
    if |a| > 0 && a[0] == b[0] == c[0] {
      BeforeIsTransitive(a[1..], b[1..], c[1..]);
    }
  }

  lemma {:induction false} BeforeIsTotal(a: Bytes, b: Bytes)
    ensures Before(a, b) || Before(b, a) || a == b
    ensures !(Before(a, b) && Before(b, a)) && !Before(a, a)
    decreases |a|
  {
    if |a| > 0 && |b| > 0 && a[0] == b[0] {
      BeforeIsTotal(a[1..], b[1..]);
      assert a == [a[0]] + a[1..] && b == [b[0]] + b[1..];
      BeforeIsTotal(a[1..], a[1..]);
    } else if |a| > 0 {
      BeforeIsTotal(a[1..], a[1..]);
    }
  }

  lemma {:induction false} PutStaysSorted(fs: seq<Field>, key: Bytes, value: Value)
    requires Sorted(fs)
    ensures Sorted(Put(fs, key, value))
    ensures forall i :: 0 <= i < |Put(fs, key, value)| ==>
              Put(fs, key, value)[i].key == key || exists j :: 0 <= j < |fs| && fs[j].key == Put(fs, key, value)[i].key
  {
    if |fs| > 0 {
      var r := Put(fs, key, value);
      if fs[0].key == key {
        assert forall i :: 0 < i < |r| ==> r[i] == fs[i];
      } else if Before(key, fs[0].key) {
        assert forall i :: 0 < i < |r| ==> r[i] == fs[i - 1];
        forall i | 0 < i < |r| ensures Before(key, r[i].key) {
          if i > 1 {
            BeforeIsTransitive(key, fs[0].key, fs[i - 1].key);
          }
        }
      } else {
        var rest := Put(fs[1..], key, value);
        PutStaysSorted(fs[1..], key, value);
        BeforeIsTotal(fs[0].key, key);
        forall i | 0 <= i < |rest|
          ensures Before(fs[0].key, rest[i].key)
          ensures rest[i].key == key || exists j :: 0 <= j < |fs| && fs[j].key == rest[i].key
        {
          if rest[i].key != key {
            var j :| 0 <= j < |fs[1..]| && fs[1..][j].key == rest[i].key;
            assert fs[j + 1].key == rest[i].key;
          }
        }
        assert forall i :: 0 < i < |r| ==> r[i] == rest[i - 1];
      }
    }
  }

  lemma ObjectStaysWellFormed(fs: seq<Field>, depth: int)
    requires depth > 0 && Sorted(fs) && forall i :: 0 <= i < |fs| ==> WellFormed(TruncateNested(fs[i].value, depth - 1))
    ensures WellFormed(TruncateNested(Object(fs), depth))
  {
    var kept := TruncateFields(fs[..Kept(|fs|)], depth - 1);
    ObjectTruncates(fs, depth);
    assert Sorted(kept);
    PutStaysSorted(kept, SUFFIX, MORE_MARK);
    PutHolds(kept, SUFFIX, MORE_MARK);
    assert WellFormed(MORE_MARK);
    forall i | 0 <= i < |Put(kept, SUFFIX, MORE_MARK)| ensures WellFormed(Put(kept, SUFFIX, MORE_MARK)[i].value) {
    }
  }

  /** Truncating a well-formed value gives one: in particular the mark takes the place of a field of the same key. */
  lemma {:induction false} TruncatedIsWellFormed(v: Value, depth: int)
    requires WellFormed(v)
    ensures WellFormed(TruncateNested(v, depth))
    decreases v
  {
    match v
    case List(items) =>
      forall i | 0 <= i < |items| ensures WellFormed(TruncateNested(items[i], depth - 1)) {
        TruncatedIsWellFormed(items[i], depth - 1);
      }
    case Object(fields) =>
      forall i | 0 <= i < |fields| ensures WellFormed(TruncateNested(fields[i].value, depth - 1)) {
        TruncatedIsWellFormed(fields[i].value, depth - 1);
      }
      if depth > 0 {
        ObjectStaysWellFormed(fields, depth);
      }
    case _ =>
  }
}
