// The form codec of the URL sanitizer: fields to text and back, through
// percent escapes that may decode to bytes that are not UTF-8.

module FormCodec {

  import opened Wrappers
  import opened Utf8

  const PERCENT: Byte := 0x25
  const PLUS: Byte := 0x2B
  const SPACE: Byte := 0x20
  const AMPERSAND: Byte := 0x26
  const EQUALS: Byte := 0x3D

  datatype Field = Field(key: Bytes, value: Bytes)

  predicate Letter(c: Byte) {
    0x41 <= c <= 0x5A || 0x61 <= c <= 0x7A
  }

  predicate Digit(c: Byte) {
    0x30 <= c <= 0x39
  }

  // ------------------------------------------------------------ escapes

  /** Letters, digits and _.-~ stand for themselves. */
  predicate Unreserved(c: Byte) {
    Letter(c) || Digit(c) || c == 0x5F || c == 0x2E || c == 0x2D || c == 0x7E
  }

  function HexDigit(n: nat): Byte
    requires n < 16
  {
    if n < 10 then 0x30 + n else 0x41 + n - 10
  }

  predicate IsHexDigit(c: Byte) {
    Digit(c) || 0x61 <= c <= 0x66 || 0x41 <= c <= 0x46
  }

  function Unhex(c: Byte): nat
    requires IsHexDigit(c)
  {
    if c >= 0x61 then c - 0x61 + 10 else if c >= 0x41 then c - 0x41 + 10 else c - 0x30
  }

  lemma UnhexOfHex(n: nat)
    requires n < 16
    ensures IsHexDigit(HexDigit(n)) && Unhex(HexDigit(n)) == n
  {
  }

  function Quote(c: Byte): Bytes {
    if Unreserved(c) then [c]
    else if c == SPACE then [PLUS]
    else [PERCENT, HexDigit(c / 16), HexDigit(c % 16)]
  }

  function QuoteAll(value: Bytes): Bytes {
    if |value| == 0 then [] else Quote(value[0]) + QuoteAll(value[1..])
  }

  /** quotePlus */
  method QuotePlus(value: Bytes) returns (quoted: Bytes)
    ensures quoted == QuoteAll(value)
  {
    quoted := [];
    var i := 0;
    while i < |value|
      invariant i <= |value|
      invariant quoted + QuoteAll(value[i..]) == QuoteAll(value)
    {
      assert value[i..][1..] == value[i + 1..];
      var c := value[i];
      Regroup(quoted, Quote(c), QuoteAll(value[i + 1..]));
      if Unreserved(c) {
        quoted := quoted + [c];
      } else if c == SPACE {
        quoted := quoted + [PLUS];
      } else {
        quoted := quoted + [PERCENT, HexDigit(c / 16), HexDigit(c % 16)];
      }
      i := i + 1;
    }
  }

  lemma Regroup<T>(x: seq<T>, y: seq<T>, z: seq<T>)
    ensures (x + y) + z == x + (y + z)
  {
  }

  function Spaced(value: Bytes): (r: Bytes)
    ensures |r| == |value|
  {
    seq(|value|, i requires 0 <= i < |value| => if value[i] == PLUS then SPACE else value[i])
  }

  predicate EscapeAt(value: Bytes) {
    |value| >= 3 && value[0] == PERCENT && IsHexDigit(value[1]) && IsHexDigit(value[2])
  }

  function DecodeEscapes(value: Bytes): Bytes {
    if |value| == 0 then []
    else if EscapeAt(value) then [(Unhex(value[1]) * 16 + Unhex(value[2])) as Byte] + DecodeEscapes(value[3..])
    else [value[0]] + DecodeEscapes(value[1..])
  }

  /** percentDecode */
  method PercentDecode(value: Bytes) returns (decoded: Bytes)
    ensures decoded == DecodeEscapes(value)
  {
    decoded := [];
    var i := 0;
    while i < |value|
      invariant i <= |value|
      invariant decoded + DecodeEscapes(value[i..]) == DecodeEscapes(value)
    {
      assert value[i..][1..] == value[i + 1..];
      if value[i] == PERCENT && i + 2 < |value| && IsHexDigit(value[i + 1]) && IsHexDigit(value[i + 2]) {
        assert value[i..][3..] == value[i + 3..];
        var c := (Unhex(value[i + 1]) * 16 + Unhex(value[i + 2])) as Byte;
        Regroup(decoded, [c], DecodeEscapes(value[i + 3..]));
        decoded := decoded + [c];
        i := i + 3;
      } else {
        Regroup(decoded, [value[i]], DecodeEscapes(value[i + 1..]));
        decoded := decoded + [value[i]];
        i := i + 1;
      }
    }
  }

  // ------------------------------------------------------------ bytes that are not UTF-8

  /** How many bytes may follow a lead byte, and the range of the first of them. */
  function Need(lead: Byte): nat {
    if 0xC2 <= lead <= 0xDF then 1
    else if 0xE0 <= lead <= 0xEF then 2
    else if 0xF0 <= lead <= 0xF4 then 3
    else 0
  }

  function Low(lead: Byte): Byte {
    if lead == 0xE0 then 0xA0 else if lead == 0xF0 then 0x90 else 0x80
  }

  function High(lead: Byte): Byte {
    if lead == 0xED then 0x9F else if lead == 0xF4 then 0x8F else 0xBF
  }

  /** invalidUTF8PrefixLength: the maximal subpart of an ill-formed sequence, which is replaced whole. */
  method InvalidUTF8PrefixLength(data: Bytes) returns (length: nat)
    requires |data| > 0
    ensures length == SubpartLength(data)
  {
    var need := Need(data[0]);
    if need == 0 {
      return 1;
    }
    var low, high := Low(data[0]), High(data[0]);
    length := 1;
    while length <= need && length < |data|
      invariant 1 <= length <= |data| && length <= need + 1
      invariant length == 1 ==> low == Low(data[0]) && high == High(data[0])
      invariant length > 1 ==> low == 0x80 && high == 0xBF && Low(data[0]) <= data[1] <= High(data[0])
      invariant length > 2 ==> Continues(data[2])
      invariant length > 3 ==> Continues(data[3])
      decreases need + 1 - length
    {
      if data[length] < low || data[length] > high {
        break;
      }
      low, high := 0x80, 0xBF;
      length := length + 1;
    }
  }

  function SubpartLength(data: Bytes): (n: nat)
    requires |data| > 0
    ensures 1 <= n <= |data|
  {
    var need := Need(data[0]);
    if need == 0 || |data| == 1 || !(Low(data[0]) <= data[1] <= High(data[0])) then 1
    else if need == 1 || |data| == 2 || !Continues(data[2]) then 2
    else if need == 2 || |data| == 3 || !Continues(data[3]) then 3
    else 4
  }

  /** Each maximal ill-formed subpart becomes one replacement character. */
  function Repair(data: Bytes): Bytes
    decreases |data|
  {
    if |data| == 0 then []
    else if RuneLength(data) > 0 then data[..RuneLength(data)] + Repair(data[RuneLength(data)..])
    else REPLACEMENT + Repair(data[SubpartLength(data)..])
  }

  /** writeUTF8Replacing */
  method WriteUTF8Replacing(written: Bytes, data: Bytes) returns (result: Bytes)
    ensures result == written + Repair(data)
  {
    result := written;
    var rest := data;
    while |rest| > 0
      invariant result + Repair(rest) == written + Repair(data)
      decreases |rest|
    {
      var size := RuneLength(rest);
      if size > 0 {
        Regroup(result, rest[..size], Repair(rest[size..]));
        result := result + rest[..size];
        rest := rest[size..];
      } else {
        var skipped := InvalidUTF8PrefixLength(rest);
        Regroup(result, REPLACEMENT, Repair(rest[skipped..]));
        result := result + REPLACEMENT;
        rest := rest[skipped..];
      }
    }
  }

  lemma {:induction false} RepairIsValid(data: Bytes)
    ensures Valid(Repair(data))
    decreases |data|
  {
    if |data| > 0 {
      if RuneLength(data) > 0 {
        RuneIsValid(data);
        RepairIsValid(data[RuneLength(data)..]);
        ValidJoins(data[..RuneLength(data)], Repair(data[RuneLength(data)..]));
      } else {
        ReplacementIsValid();
        RepairIsValid(data[SubpartLength(data)..]);
        ValidJoins(REPLACEMENT, Repair(data[SubpartLength(data)..]));
      }
    }
  }

  lemma {:induction false} ValidNeedsNoRepair(data: Bytes)
    requires Valid(data)
    ensures Repair(data) == data
    decreases |data|
  {
    if |data| > 0 {
      ValidNeedsNoRepair(data[RuneLength(data)..]);
    }
  }

  /** Text is its own repair exactly when it is UTF-8. */
  lemma RepairedIffInvalid(data: Bytes)
    ensures Repair(data) == data <==> Valid(data)
  {
    RepairIsValid(data);
    if Valid(data) {
      ValidNeedsNoRepair(data);
    }
  }

  // ------------------------------------------------------------ unquotePlus

  function AsciiPrefix(value: Bytes): (n: nat)
    ensures n <= |value| && (forall i :: 0 <= i < n ==> value[i] < 0x80) && (n < |value| ==> value[n] >= 0x80)
  {
    if |value| == 0 || value[0] >= 0x80 then 0 else 1 + AsciiPrefix(value[1..])
  }

  function Decoded(ascii: Bytes): Bytes {
    Repair(DecodeEscapes(ascii))
  }

  /** Characters past ASCII are copied; the ASCII between them is decoded. */
  function UnquoteParts(value: Bytes, decode: Bytes -> Bytes): Bytes
    decreases |value|
  {
    if |value| == 0 then []
    else if value[0] >= 0x80 then
      var size := if RuneLength(value) > 0 then RuneLength(value) else 1;
      value[..size] + UnquoteParts(value[size..], decode)
    else
      decode(value[..AsciiPrefix(value)]) + UnquoteParts(value[AsciiPrefix(value)..], decode)
  }

  function UnquoteAll(value: Bytes): Bytes {
    var spaced := Spaced(value);
    if PERCENT !in spaced then spaced else UnquoteParts(spaced, Decoded)
  }

  /** unquotePlus */
  method UnquotePlus(value: Bytes) returns (result: Bytes)
    ensures result == UnquoteAll(value)
  {
    var rest := Spaced(value);
    if PERCENT !in rest {
      return rest;
    }
    result := [];
    while |rest| > 0
      invariant result + UnquoteParts(rest, Decoded) == UnquoteParts(Spaced(value), Decoded)
      decreases |rest|
    {
      var next := AsciiPrefix(rest);
      if next == 0 {
        var size := if RuneLength(rest) > 0 then RuneLength(rest) else 1;
        Regroup(result, rest[..size], UnquoteParts(rest[size..], Decoded));
        result := result + rest[..size];
        rest := rest[size..];
      } else {
        var decoded := PercentDecode(rest[..next]);
        Regroup(result, Decoded(rest[..next]), UnquoteParts(rest[next..], Decoded));
        result := WriteUTF8Replacing(result, decoded);
        rest := rest[next..];
      }
    }
  }

  /** Quoting leaves ASCII without separators. */
  predicate Plain(c: Byte) {
    c < 0x80 && c != AMPERSAND && c != EQUALS
  }

  lemma {:induction false} QuotedIsPlain(value: Bytes)
    ensures forall i :: 0 <= i < |QuoteAll(value)| ==> Plain(QuoteAll(value)[i])
  {
    if |value| > 0 {
      QuotedIsPlain(value[1..]);
      assert forall i :: 0 <= i < |Quote(value[0])| ==> Plain(Quote(value[0])[i]);
    }
  }

  lemma SpacedJoins(a: Bytes, b: Bytes)
    ensures Spaced(a + b) == Spaced(a) + Spaced(b)
  {
  }

  /** One quoted byte decodes to itself, whatever follows. */
  lemma QuotedByteDecodes(c: Byte, rest: Bytes)
    ensures DecodeEscapes(Spaced(Quote(c)) + rest) == [c] + DecodeEscapes(rest)
  {
    var s := Spaced(Quote(c)) + rest;
    if Unreserved(c) || c == SPACE {
      assert s == [c] + rest && s[1..] == rest;
    } else {
      UnhexOfHex(c / 16);
      UnhexOfHex(c % 16);
      assert s == [PERCENT, HexDigit(c / 16), HexDigit(c % 16)] + rest && s[3..] == rest;
    }
  }

  lemma {:induction false} QuotedDecodes(value: Bytes)
    ensures DecodeEscapes(Spaced(QuoteAll(value))) == value
  {
    if |value| > 0 {
      SpacedJoins(Quote(value[0]), QuoteAll(value[1..]));
      QuotedByteDecodes(value[0], Spaced(QuoteAll(value[1..])));
      QuotedDecodes(value[1..]);
    }
  }

  lemma {:induction false} NothingToDecode(value: Bytes)
    requires PERCENT !in value
    ensures DecodeEscapes(value) == value
  {
    if |value| > 0 {
      NothingToDecode(value[1..]);
    }
  }

  lemma {:induction false} AsciiThroughout(value: Bytes)
    requires forall i :: 0 <= i < |value| ==> value[i] < 0x80
    ensures AsciiPrefix(value) == |value|
  {
    if |value| > 0 {
      AsciiThroughout(value[1..]);
    }
  }

  lemma AllAscii(value: Bytes, decode: Bytes -> Bytes)
    requires |value| > 0 && forall i :: 0 <= i < |value| ==> value[i] < 0x80
    ensures UnquoteParts(value, decode) == decode(value)
  {
    AsciiThroughout(value);
    assert value[..|value|] == value && value[|value|..] == [];
  }

  /** Quoting and unquoting any bytes repairs them, and does nothing else. */
  lemma UnquoteOfQuote(value: Bytes)
    ensures UnquoteAll(QuoteAll(value)) == Repair(value)
  {
    var spaced := Spaced(QuoteAll(value));
    QuotedIsPlain(value);
    QuotedDecodes(value);
    if PERCENT in spaced {
      AllAscii(spaced, Decoded);
    } else {
      NothingToDecode(spaced);
      AsciiIsValid(spaced);
      ValidNeedsNoRepair(spaced);
    }
  }

  // ------------------------------------------------------------ fields

  /** strings.Split at one byte. */
  function SplitAt(text: Bytes, c: Byte): (parts: seq<Bytes>)
    ensures |parts| > 0
  {
    if |text| == 0 then [[]]
    else
      var rest := SplitAt(text[1..], c);
      if text[0] == c then [[]] + rest else [[text[0]] + rest[0]] + rest[1..]
  }

  function Count(text: Bytes, c: Byte): (n: nat)
    ensures n + 1 == |SplitAt(text, c)|
  {
    if |text| == 0 then 0 else (if text[0] == c then 1 else 0) + Count(text[1..], c)
  }

  /** Where the byte first occurs, or the length. */
  function Find(text: Bytes, c: Byte): (i: nat)
    ensures i <= |text| && (i < |text| ==> text[i] == c) && forall j :: 0 <= j < i ==> text[j] != c
  {
    if |text| == 0 || text[0] == c then 0 else 1 + Find(text[1..], c)
  }

  function Before(text: Bytes, c: Byte): Bytes {
    text[..Find(text, c)]
  }

  function After(text: Bytes, c: Byte): Bytes {
    if Find(text, c) < |text| then text[Find(text, c) + 1..] else []
  }

  function PairField(pair: Bytes): Field {
    Field(UnquoteAll(Before(pair, EQUALS)), UnquoteAll(After(pair, EQUALS)))
  }

  /** Empty pairs are passed over. */
  function PairFields(pairs: seq<Bytes>, decode: Bytes -> Field): seq<Field> {
    if |pairs| == 0 then []
    else (if pairs[0] == [] then [] else [decode(pairs[0])]) + PairFields(pairs[1..], decode)
  }

  /** None is the invalid URL error. */
  function Parse(text: Bytes, maxFields: int): Option<seq<Field>> {
    if |text| == 0 then Some([])
    else if 1 + Count(text, AMPERSAND) > maxFields then None
    else Some(PairFields(SplitAt(text, AMPERSAND), PairField))
  }

  method DecodePair(pair: Bytes) returns (field: Field)
    ensures field == PairField(pair)
  {
    var key := UnquotePlus(Before(pair, EQUALS));
    var value := UnquotePlus(After(pair, EQUALS));
    return Field(key, value);
  }

  /** The fields so far, and those of the pairs from i on, make up all of them. */
  ghost predicate Decoding(fields: seq<Field>, pairs: seq<Bytes>, i: nat, decode: Bytes -> Field)
    requires i <= |pairs|
  {
    fields + PairFields(pairs[i..], decode) == PairFields(pairs, decode)
  }

  lemma DecodingStep(fields: seq<Field>, pairs: seq<Bytes>, i: nat, decode: Bytes -> Field)
    requires i < |pairs| && Decoding(fields, pairs, i, decode)
    ensures Decoding(if pairs[i] == [] then fields else fields + [decode(pairs[i])], pairs, i + 1, decode)
  {
    assert pairs[i..][1..] == pairs[i + 1..];
    Regroup(fields, [decode(pairs[i])], PairFields(pairs[i + 1..], decode));
  }

  lemma DecodingEnds(fields: seq<Field>, pairs: seq<Bytes>, decode: Bytes -> Field)
    requires Decoding(fields, pairs, |pairs|, decode)
    ensures fields == PairFields(pairs, decode)
  {
    assert pairs[|pairs|..] == [] && fields + [] == fields;
  }

  /** The loop over the pairs. */
  method DecodePairs(pairs: seq<Bytes>) returns (fields: seq<Field>)
    ensures fields == PairFields(pairs, PairField)
  {
    fields := [];
    var i := 0;
    assert Decoding(fields, pairs, 0, PairField) by {
      assert pairs[0..] == pairs;
    }
    while i < |pairs|
      invariant i <= |pairs|
      invariant Decoding(fields, pairs, i, PairField)
    {
      DecodingStep(fields, pairs, i, PairField);
      if pairs[i] != [] {
        var field := DecodePair(pairs[i]);
        fields := fields + [field];
      }
      i := i + 1;
    }
    DecodingEnds(fields, pairs, PairField);
  }

  /** parseQSL */
  method ParseQSL(text: Bytes, maxFields: int) returns (result: Option<seq<Field>>)
    ensures result == Parse(text, maxFields)
  {
    if |text| == 0 {
      return Some([]);
    }
    if 1 + Count(text, AMPERSAND) > maxFields {
      return None;
    }
    var fields := DecodePairs(SplitAt(text, AMPERSAND));
    return Some(fields);
  }

  function EncodeField(f: Field): Bytes {
    QuoteAll(f.key) + [EQUALS] + QuoteAll(f.value)
  }

  /** urlencode: the fields joined with &. */
  function Encode(fs: seq<Field>): Bytes {
    if |fs| == 0 then []
    else if |fs| == 1 then EncodeField(fs[0])
    else EncodeField(fs[0]) + ([AMPERSAND] + Encode(fs[1..]))
  }

  lemma {:induction false} SplitWithout(text: Bytes, c: Byte)
    requires forall i :: 0 <= i < |text| ==> text[i] != c
    ensures SplitAt(text, c) == [text]
  {
    if |text| > 0 {
      SplitWithout(text[1..], c);
      assert [text[0]] + text[1..] == text;
    }
  }

  lemma {:induction false} SplitFirst(part: Bytes, c: Byte, rest: Bytes)
    requires forall i :: 0 <= i < |part| ==> part[i] != c
    ensures SplitAt(part + ([c] + rest), c) == [part] + SplitAt(rest, c)
  {
    var text := part + ([c] + rest);
    if |part| == 0 {
      assert text[0] == c && text[1..] == rest;
    } else {
      SplitFirst(part[1..], c, rest);
      assert text[0] == part[0] && text[1..] == part[1..] + ([c] + rest);
      var tail := [part[1..]] + SplitAt(rest, c);
      assert tail[0] == part[1..] && tail[1..] == SplitAt(rest, c);
      assert [part[0]] + part[1..] == part;
    }
  }

  function Repaired(f: Field): Field {
    Field(Repair(f.key), Repair(f.value))
  }

  function RepairedAll(fs: seq<Field>): (r: seq<Field>)
    ensures |r| == |fs|
  {
    seq(|fs|, i requires 0 <= i < |fs| => Repaired(fs[i]))
  }

  lemma FindIs(text: Bytes, c: Byte, n: nat)
    requires n < |text| && text[n] == c && forall j :: 0 <= j < n ==> text[j] != c
    ensures Find(text, c) == n
  {
    assert Find(text, c) >= n;
  }

  lemma EncodedFieldDecodes(f: Field)
    ensures (forall i :: 0 <= i < |EncodeField(f)| ==> EncodeField(f)[i] != AMPERSAND) && |EncodeField(f)| > 0
    ensures PairField(EncodeField(f)) == Repaired(f)
  {
    var text := EncodeField(f);
    var n := |QuoteAll(f.key)|;
    QuotedIsPlain(f.key);
    QuotedIsPlain(f.value);
    FindIs(text, EQUALS, n);
    assert text[..n] == QuoteAll(f.key) && text[n + 1..] == QuoteAll(f.value);
    UnquoteOfQuote(f.key);
    UnquoteOfQuote(f.value);
  }

  lemma {:induction false} EncodedSplits(fs: seq<Field>)
    requires |fs| > 0
    ensures |Encode(fs)| > 0 && |SplitAt(Encode(fs), AMPERSAND)| == |fs|
    ensures PairFields(SplitAt(Encode(fs), AMPERSAND), PairField) == RepairedAll(fs)
  {
    EncodedFieldDecodes(fs[0]);
    var first := EncodeField(fs[0]);
    if |fs| == 1 {
      SplitWithout(first, AMPERSAND);
      assert PairFields([first], PairField) == [PairField(first)] + PairFields([first][1..], PairField);
    } else {
      var rest := SplitAt(Encode(fs[1..]), AMPERSAND);
      EncodedSplits(fs[1..]);
      SplitFirst(first, AMPERSAND, Encode(fs[1..]));
      assert ([first] + rest)[1..] == rest;
      assert RepairedAll(fs) == [Repaired(fs[0])] + RepairedAll(fs[1..]);
    }
  }

  /** Parsing encoded fields repairs them, if there are no more than allowed. */
  lemma ParseOfEncode(fs: seq<Field>, maxFields: int)
    ensures Parse(Encode(fs), maxFields) == if |fs| == 0 || |fs| <= maxFields then Some(RepairedAll(fs)) else None
  {
    if |fs| > 0 {
      EncodedSplits(fs);
    }
  }

  ghost predicate AllValid(fs: seq<Field>) {
    forall i :: 0 <= i < |fs| ==> Valid(fs[i].key) && Valid(fs[i].value)
  }

  lemma RepairedIffValid(fs: seq<Field>)
    ensures RepairedAll(fs) == fs <==> AllValid(fs)
  {
    forall i | 0 <= i < |fs|
      ensures RepairedAll(fs)[i] == fs[i] <==> Valid(fs[i].key) && Valid(fs[i].value)
    {
      RepairedIffInvalid(fs[i].key);
      RepairedIffInvalid(fs[i].value);
    }
  }

  /** Fields survive the round trip exactly when they are UTF-8 and no more than allowed. */
  lemma FieldsRoundTrip(fs: seq<Field>, maxFields: int)
    ensures Parse(Encode(fs), maxFields) == Some(fs) <==> AllValid(fs) && (|fs| == 0 || |fs| <= maxFields)
  {
    ParseOfEncode(fs, maxFields);
    RepairedIffValid(fs);
  }
}
