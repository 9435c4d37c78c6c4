// One property filter against the properties of a call, and the check of the
// filter alone that is made when definitions load.

module Filters {

  import opened Wrappers
  import opened Reasons

  /** A decoded JSON value; Int is a Go integer, which JSON decoding never yields. */
  datatype Value =
    | Null | Bool(b: bool) | Int(i: int) | Num(n: real) | Str(s: string)
    | Arr(items: seq<Value>) | Obj(fields: seq<(string, Value)>)

  type Properties = map<string, Value>

  datatype Semver = Semver(major: nat, minor: nat, patch: nat)

  /** A pattern the engine runs (its classes may be ASCII only), one it must leave to the server, or an invalid one. */
  datatype Regex = Compiled(asciiClasses: bool) | NeedsServer | Invalid

  /** What the model does not look into: text conversions and the regular expression, date and version parsers. */
  datatype Oracle = Oracle(
    text: Value -> string,
    exactText: Value -> string,
    lower: string -> string,
    compile: string -> Regex,
    matches: (string, string) -> bool,
    float: string -> Option<real>,
    date: string -> Option<int>,
    semver: string -> Option<Semver>,
    wildcard: string -> Option<(Semver, Semver)>)

  datatype Filter = Filter(
    key: string, operator: string, value: Value, kind: string, negation: bool, chain: Option<seq<string>>)

  const SEMVER_COMPARISONS := {"semver_eq", "semver_neq", "semver_gt", "semver_gte", "semver_lt", "semver_lte"}
  const SEMVER_RANGES := {"semver_tilde", "semver_caret", "semver_wildcard"}
  const TEXT_OPERATORS := {"icontains", "not_icontains", "starts_with", "not_starts_with", "ends_with", "not_ends_with"}
  const REGEX_OPERATORS := {"regex", "not_regex"}
  const ORDER_OPERATORS := {"gt", "gte", "lt", "lte"}
  const DATE_OPERATORS := {"is_date_before", "is_date_after"}
  const PRESENCE_OPERATORS := {"is_set", "is_not_set"}
  const EXACT_OPERATORS := {"exact", "is_not"}

  const PROPERTY_OPERATORS := EXACT_OPERATORS + PRESENCE_OPERATORS + TEXT_OPERATORS + REGEX_OPERATORS
    + ORDER_OPERATORS + DATE_OPERATORS + SEMVER_COMPARISONS + SEMVER_RANGES

  const UNSUPPORTED := Inconclusive(Some(UnsupportedDefinition))
  const MISSING := Inconclusive(Some(MissingContext))

  // ------------------------------------------------------------ text

  function AsciiLower(s: string): string {
    seq(|s|, i requires 0 <= i < |s| => if 'A' <= s[i] <= 'Z' then s[i] - 'A' + 'a' else s[i])
  }

  predicate FoundAt(s: string, part: string, i: nat) {
    i + |part| <= |s| && s[i..i + |part|] == part
  }

  predicate Contains(s: string, part: string) {
    exists i: nat :: i <= |s| && FoundAt(s, part, i)
  }

  predicate HasSuffix(s: string, part: string) {
    |part| <= |s| && s[|s| - |part|..] == part
  }

  predicate MatchesText(operator: string, value: string, wanted: string) {
    match operator
    case "icontains" => Contains(value, wanted)
    case "not_icontains" => !Contains(value, wanted)
    case "starts_with" => wanted <= value
    case "not_starts_with" => !(wanted <= value)
    case "ends_with" => HasSuffix(value, wanted)
    case _ => !HasSuffix(value, wanted)
  }

  // ------------------------------------------------------------ exact matching

  predicate TruthyOrFalsy(o: Oracle, v: Value) {
    match v
    case Bool(_) => true
    case Str(s) => o.lower(s) == "true" || o.lower(s) == "false"
    case Arr(items) => forall i :: 0 <= i < |items| ==> TruthyOrFalsy(o, items[i])
    case _ => false
  }

  predicate Truthy(o: Oracle, v: Value) {
    match v
    case Bool(b) => b
    case Str(s) => o.lower(s) == "true"
    case Arr(items) => forall i :: 0 <= i < |items| ==> Truthy(o, items[i])
    case _ => false
  }

  /** A whole float64: JSON does not say whether it was written as an integer. */
  predicate Ambiguous(v: Value) {
    match v
    case Num(n) => n == n.Floor as real
    case Arr(items) => exists i :: 0 <= i < |items| && Ambiguous(items[i])
    case Obj(fields) => exists i :: 0 <= i < |fields| && Ambiguous(fields[i].1)
    case _ => false
  }

  /** The loop over a list filter: some unambiguous item equal, else undecided if some item was ambiguous. */
  function ExactList(o: Oracle, items: seq<Value>, text: string, hadAmbiguous: bool): Outcome {
    if |items| == 0 then if hadAmbiguous then UNSUPPORTED else Decided(false)
    else if Ambiguous(items[0]) then ExactList(o, items[1..], text, true)
    else if o.exactText(items[0]) == text then Decided(true)
    else ExactList(o, items[1..], text, hadAmbiguous)
  }

  function ExactMatch(o: Oracle, value: Value, actual: Value, version: int): Outcome {
    if version != 2 && TruthyOrFalsy(o, value) then Decided(Truthy(o, value) == Truthy(o, actual))
    else if value.Arr? then
      if |value.items| == 0 then Decided(Truthy(o, actual))
      else ExactList(o, value.items, o.exactText(actual), false)
    else if Ambiguous(value) then UNSUPPORTED
    else Decided(o.exactText(value) == o.exactText(actual))
  }

  predicate ExactAlwaysAmbiguous(o: Oracle, value: Value, version: int) {
    && (if value.Arr?
        then |value.items| > 0 && forall i :: 0 <= i < |value.items| ==> Ambiguous(value.items[i])
        else Ambiguous(value))
    && (version == 2 || !TruthyOrFalsy(o, value))
  }

  // ------------------------------------------------------------ ordered values and versions

  function Float(o: Oracle, v: Value): Option<real> {
    match v
    case Int(i) => Some(i as real)
    case Num(n) => Some(n)
    case Str(s) => o.float(s)
    case _ => None
  }

  function Compare(a: Semver, b: Semver): int {
    if a.major != b.major then if a.major < b.major then -1 else 1
    else if a.minor != b.minor then if a.minor < b.minor then -1 else 1
    else if a.patch != b.patch then if a.patch < b.patch then -1 else 1
    else 0
  }

  function TildeBounds(v: Semver): (Semver, Semver) {
    (v, Semver(v.major, v.minor + 1, 0))
  }

  function CaretBounds(v: Semver): (Semver, Semver) {
    (v, if v.major > 0 then Semver(v.major + 1, 0, 0)
        else if v.minor > 0 then Semver(0, v.minor + 1, 0)
        else Semver(0, 0, v.patch + 1))
  }

  /** The range a version filter denotes, or None when its value is no version. */
  function Bounds(o: Oracle, operator: string, value: string): Option<(Semver, Semver)> {
    match operator
    case "semver_tilde" => (match o.semver(value) case Some(v) => Some(TildeBounds(v)) case None => None)
    case "semver_caret" => (match o.semver(value) case Some(v) => Some(CaretBounds(v)) case None => None)
    case _ => o.wildcard(value)
  }

  function CompareVersions(operator: string, c: int): bool {
    match operator
    case "semver_eq" => c == 0
    case "semver_neq" => c != 0
    case "semver_gt" => c > 0
    case "semver_gte" => c >= 0
    case "semver_lt" => c < 0
    case _ => c <= 0
  }

  function MatchVersion(o: Oracle, operator: string, value: Value, actual: Value): Outcome {
    if !actual.Str? || o.semver(actual.s).None? then MISSING
    else if !value.Str? then UNSUPPORTED
    else
      var found := o.semver(actual.s).value;
      if operator in SEMVER_COMPARISONS then
        match o.semver(value.s)
        case None => UNSUPPORTED
        case Some(wanted) => Decided(CompareVersions(operator, Compare(found, wanted)))
      else
        match Bounds(o, operator, value.s)
        case None => UNSUPPORTED
        case Some(b) => Decided(Compare(found, b.0) >= 0 && Compare(found, b.1) < 0)
  }

  function MatchOrder(o: Oracle, operator: string, value: Value, actual: Value): Outcome {
    match (Float(o, value), Float(o, actual))
    case (Some(v), Some(a)) =>
      Decided(match operator
              case "gt" => a > v
              case "lt" => a < v
              case "gte" => a >= v
              case _ => a <= v)
    case _ => Broken
  }

  function MatchDate(o: Oracle, operator: string, value: Value, actual: Value): Outcome {
    if !actual.Str? || o.date(actual.s).None? || !value.Str? || o.date(value.s).None? then Broken
    else if operator == "is_date_before" then Decided(o.date(actual.s).value < o.date(value.s).value)
    else Decided(o.date(actual.s).value > o.date(value.s).value)
  }

  function MatchRegex(o: Oracle, operator: string, value: Value, actual: Value): Outcome {
    match o.compile(o.text(value))
    case NeedsServer => ServerRequired(Some(UnsupportedDefinition))
    case Invalid => Decided(false)
    case Compiled(ascii) =>
      var input := o.text(actual);
      if ascii && exists i :: 0 <= i < |input| && (input[i] as int > 127 || input[i] as int == 11)
      then ServerRequired(Some(UnsupportedDefinition))
      else Decided(o.matches(o.text(value), input) == (operator == "regex"))
  }

  // ------------------------------------------------------------ a filter against a call

  /** Text operators see a null property as the word null. */
  function Shown(operator: string, actual: Value): Value {
    if actual.Null? && (operator in TEXT_OPERATORS || operator in REGEX_OPERATORS) then Str("null") else actual
  }

  /** matchPropertyValue, given the value of the filter's property. */
  function MatchGiven(o: Oracle, f: Filter, given: Value, version: int): Outcome {
    var op, value, actual := f.operator, f.value, Shown(f.operator, given);
    if op == "is_not_set" then Decided(false)
    else if op == "exact" then ExactMatch(o, value, actual, version)
    else if op == "is_not" then
      (match ExactMatch(o, value, actual, version)
       case Decided(m) => Decided(!m)
       case e => e)
    else if op == "is_set" then Decided(true)
    else if op in TEXT_OPERATORS then
      Decided(MatchesText(op, AsciiLower(o.text(actual)), AsciiLower(o.text(value))))
    else if op in REGEX_OPERATORS then MatchRegex(o, op, value, actual)
    else if op in ORDER_OPERATORS then MatchOrder(o, op, value, actual)
    else if op in DATE_OPERATORS then MatchDate(o, op, value, actual)
    else if op in SEMVER_COMPARISONS || op in SEMVER_RANGES then MatchVersion(o, op, value, actual)
    else UNSUPPORTED
  }

  /** matchPropertyValue */
  function MatchValue(o: Oracle, f: Filter, props: Properties, version: int): Outcome {
    if f.key !in props then MISSING else MatchGiven(o, f, props[f.key], version)
  }

  /** filterDefinitionError: can the filter be used, whatever the call passes? */
  predicate DefinitionError(o: Oracle, f: Filter, version: int) {
    if f.operator !in PROPERTY_OPERATORS then true
    else if f.operator in EXACT_OPERATORS then ExactAlwaysAmbiguous(o, f.value, version)
    else if f.operator in REGEX_OPERATORS then o.compile(o.text(f.value)).NeedsServer?
    else if f.operator in SEMVER_COMPARISONS then !f.value.Str? || o.semver(f.value.s).None?
    else if f.operator in SEMVER_RANGES then !f.value.Str? || Bounds(o, f.operator, f.value.s).None?
    else false
  }

  /** matchProperty: an unusable filter outranks missing context. */
  function MatchProperty(o: Oracle, f: Filter, props: Properties, version: int): Outcome {
    var r := MatchValue(o, f, props, version);
    if r == MISSING && DefinitionError(o, f, version) then UNSUPPORTED else r
  }

  // ------------------------------------------------------------ the two checks agree

  lemma {:induction false} AllAmbiguousIsUnsupported(o: Oracle, items: seq<Value>, text: string, had: bool)
    requires forall i :: 0 <= i < |items| ==> Ambiguous(items[i])
    requires |items| > 0 || had
    ensures ExactList(o, items, text, had) == UNSUPPORTED
  {
    if |items| > 0 {
      AllAmbiguousIsUnsupported(o, items[1..], text, true);
    }
  }

  predicate IsUnsupported(r: Outcome) {
    r == Inconclusive(Some(UnsupportedDefinition)) || r == ServerRequired(Some(UnsupportedDefinition))
  }

  lemma ReportedExact(o: Oracle, f: Filter, actual: Value, version: int)
    requires ExactAlwaysAmbiguous(o, f.value, version)
    ensures ExactMatch(o, f.value, actual, version) == UNSUPPORTED
  {
    if f.value.Arr? {
      AllAmbiguousIsUnsupported(o, f.value.items, o.exactText(actual), false);
    }
  }

  lemma ReportedVersion(o: Oracle, f: Filter, actual: Value)
    requires f.operator in SEMVER_COMPARISONS ==> !f.value.Str? || o.semver(f.value.s).None?
    requires f.operator !in SEMVER_COMPARISONS ==> !f.value.Str? || Bounds(o, f.operator, f.value.s).None?
    ensures MatchVersion(o, f.operator, f.value, actual) in {MISSING, UNSUPPORTED}
  {
  }

  lemma ReportedExactValue(o: Oracle, f: Filter, props: Properties, version: int)
    requires f.operator in EXACT_OPERATORS && ExactAlwaysAmbiguous(o, f.value, version) && f.key in props
    ensures MatchValue(o, f, props, version) == UNSUPPORTED
  {
    ReportedExact(o, f, Shown(f.operator, props[f.key]), version);
  }

  lemma ReportedRegexValue(o: Oracle, f: Filter, props: Properties, version: int)
    requires f.operator in REGEX_OPERATORS && o.compile(o.text(f.value)).NeedsServer? && f.key in props
    ensures MatchValue(o, f, props, version) == ServerRequired(Some(UnsupportedDefinition))
  {
  }

  lemma ReportedVersionValue(o: Oracle, f: Filter, props: Properties, version: int)
    requires f.operator in SEMVER_COMPARISONS || f.operator in SEMVER_RANGES
    requires DefinitionError(o, f, version) && f.key in props
    ensures MatchValue(o, f, props, version) in {MISSING, UNSUPPORTED}
  {
    VersionOperator(f.operator);
    ReportedVersion(o, f, Shown(f.operator, props[f.key]));
  }

  lemma VersionOperator(op: string)
    requires op in SEMVER_COMPARISONS || op in SEMVER_RANGES
    ensures op !in EXACT_OPERATORS && op !in PRESENCE_OPERATORS && op !in TEXT_OPERATORS
    ensures op !in REGEX_OPERATORS && op !in ORDER_OPERATORS && op !in DATE_OPERATORS
    ensures op != "is_not_set" && op != "is_set" && op != "exact" && op != "is_not"
    ensures op in SEMVER_COMPARISONS ==> op !in SEMVER_RANGES
  {
  }

  lemma ReportedKnown(o: Oracle, f: Filter, props: Properties, version: int)
    requires DefinitionError(o, f, version) && f.operator in PROPERTY_OPERATORS && f.key in props
    ensures MatchValue(o, f, props, version) == MISSING || IsUnsupported(MatchValue(o, f, props, version))
  {
    if f.operator in EXACT_OPERATORS {
      ReportedExactValue(o, f, props, version);
    } else if f.operator in REGEX_OPERATORS {
      ReportedRegexValue(o, f, props, version);
    } else {
      ReportedVersionValue(o, f, props, version);
    }
  }

  lemma ReportedUnknown(o: Oracle, f: Filter, props: Properties, version: int)
    requires f.operator !in PROPERTY_OPERATORS && f.key in props
    ensures MatchValue(o, f, props, version) == UNSUPPORTED
  {
    assert "is_not_set" in PROPERTY_OPERATORS && "is_set" in PROPERTY_OPERATORS;
    assert "exact" in PROPERTY_OPERATORS && "is_not" in PROPERTY_OPERATORS;
  }

  /** A filter reported when definitions load is unresolved in every call, as an unsupported definition. */
  lemma ReportedMeansUnsupported(o: Oracle, f: Filter, props: Properties, version: int)
    requires DefinitionError(o, f, version)
    ensures IsUnsupported(MatchProperty(o, f, props, version))
  {
    if f.key in props {
      if f.operator in PROPERTY_OPERATORS {
        ReportedKnown(o, f, props, version);
      } else {
        ReportedUnknown(o, f, props, version);
      }
    }
  }

  /** Blaming the call means the filter itself could be used. */
  lemma MissingContextMeansUsable(o: Oracle, f: Filter, props: Properties, version: int)
    requires MatchProperty(o, f, props, version) == MISSING
    ensures !DefinitionError(o, f, version)
  {
    if DefinitionError(o, f, version) {
      ReportedMeansUnsupported(o, f, props, version);
    }
  }

  /**
   * With no such property in the call, the answer is the filter's own fault exactly when the
   * load-time check says so.
   */
  lemma AbsentPropertyTellsWhich(o: Oracle, f: Filter, version: int)
    ensures MatchProperty(o, f, map[], version) == if DefinitionError(o, f, version) then UNSUPPORTED else MISSING
  {
  }
}
