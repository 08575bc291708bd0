/** The canonical JSON writer of documents.rs.

    A string is its UTF-8 bytes. The writer works character by character, but every
    character it treats specially is a single byte and all others are copied as encoded.
  */
module Canonical {
  import opened Types
  import opened Buffers
  import Durations

  type JsonInt = n: int | -0x8000_0000_0000_0000 <= n <= 0xFFFF_FFFF_FFFF_FFFF

  datatype Field = Field(key: Bytes, value: Value)

  /** A JSON value; an object's fields are in the order they were inserted. */
  datatype Value =
    | Null
    | Bool(flag: bool)
    | Integer(n: JsonInt)
    | Float(literal: string)
    | Text(text: Bytes)
    | Array(items: seq<Value>)
    | Object(fields: seq<Field>)

  ghost predicate DistinctKeys(fields: seq<Field>) {
    forall i, j :: 0 <= i < j < |fields| ==> fields[i].key != fields[j].key
  }

  /** No object, at any depth, holds a key twice. */
  ghost predicate WellFormed(v: Value) {
    match v
    case Array(items) => forall i :: 0 <= i < |items| ==> WellFormed(items[i])
    case Object(fields) => DistinctKeys(fields) && forall i :: 0 <= i < |fields| ==> WellFormed(fields[i].value)
    case _ => true
  }

  /** No float anywhere: what the writer accepts. */
  predicate Whole(v: Value) {
    match v
    case Float(_) => false
    case Array(items) => forall i :: 0 <= i < |items| ==> Whole(items[i])
    case Object(fields) => forall i :: 0 <= i < |fields| ==> Whole(fields[i].value)
    case _ => true
  }

  // ---- Byte order ------------------------------------------------------------------

  predicate Less(a: Bytes, b: Bytes) {
    b != [] && (a == [] || a[0] < b[0] || (a[0] == b[0] && Less(a[1..], b[1..])))
  }

  lemma {:induction false} LessIsTotal(a: Bytes, b: Bytes)
    ensures Less(a, b) || Less(b, a) || a == b
    ensures Less(a, b) ==> !Less(b, a) && a != b
  {
    if a != [] && b != [] && a[0] == b[0] {
      LessIsTotal(a[1..], b[1..]);
      assert a == [a[0]] + a[1..] && b == [b[0]] + b[1..];
    }
  }

  lemma {:induction false} LessIsTransitive(a: Bytes, b: Bytes, c: Bytes)
    requires Less(a, b) && Less(b, c)
    ensures Less(a, c)
  {
    if a != [] && a[0] == b[0] == c[0] {
      LessIsTransitive(a[1..], b[1..], c[1..]);
    }
  }

  ghost predicate Sorted(fields: seq<Field>) {
    forall i, j :: 0 <= i < j < |fields| ==> Less(fields[i].key, fields[j].key)
  }

  function Insert(field: Field, into: seq<Field>): (r: seq<Field>)
    ensures |r| == |into| + 1
    ensures forall f :: f in r <==> f == field || f in into
  {
    if into == [] then [field]
    else if Less(field.key, into[0].key) then [field] + into
    else
      assert into == [into[0]] + into[1..];
      [into[0]] + Insert(field, into[1..])
  }

  function Sort(fields: seq<Field>): (r: seq<Field>)
    ensures |r| == |fields|
    ensures forall f :: f in r <==> f in fields
  {
    if fields == [] then []
    else
      assert fields == [fields[0]] + fields[1..];
      Insert(fields[0], Sort(fields[1..]))
  }

  lemma {:induction false} InsertSorts(field: Field, into: seq<Field>)
    requires Sorted(into) && forall i :: 0 <= i < |into| ==> into[i].key != field.key
    ensures Sorted(Insert(field, into))
  {
    if into != [] {
      LessIsTotal(field.key, into[0].key);
      if Less(field.key, into[0].key) {
        forall j | 0 < j < |into| ensures Less(field.key, into[j].key) {
          LessIsTransitive(field.key, into[0].key, into[j].key);
        }
      } else {
        InsertSorts(field, into[1..]);
        var rest := Insert(field, into[1..]);
        forall j | 0 <= j < |rest| ensures Less(into[0].key, rest[j].key) {
          assert rest[j] in rest;
        }
      }
    }
  }

  lemma {:induction false} SortSorts(fields: seq<Field>)
    requires DistinctKeys(fields)
    ensures Sorted(Sort(fields))
  {
    if fields != [] {
      SortSorts(fields[1..]);
      var rest := Sort(fields[1..]);
      forall i | 0 <= i < |rest| ensures rest[i].key != fields[0].key {
        assert rest[i] in rest;
      }
      InsertSorts(fields[0], rest);
    }
  }

  // ---- Output -----------------------------------------------------------------------

  const QUOTE: Byte := 34
  const BACKSLASH: Byte := 92

  function HexDigit(d: nat): Byte
    requires d < 16
  {
    if d < 10 then 48 + d else 87 + d
  }

  /** One byte of a string, as `write_json_string` writes it. */
  function Escaped(b: Byte): (r: Bytes)
    ensures r != []
  {
    if b == QUOTE then [BACKSLASH, QUOTE]
    else if b == BACKSLASH then [BACKSLASH, BACKSLASH]
    else if b == 8 then [BACKSLASH, 98]
    else if b == 12 then [BACKSLASH, 102]
    else if b == 10 then [BACKSLASH, 110]
    else if b == 13 then [BACKSLASH, 114]
    else if b == 9 then [BACKSLASH, 116]
    else if b < 0x20 then [BACKSLASH, 117, 48, 48, HexDigit(b / 16), HexDigit(b % 16)]
    else [b]
  }

  ghost function EscapedAll(text: Bytes): Bytes {
    if text == [] then [] else Escaped(text[0]) + EscapedAll(text[1..])
  }

  ghost function Quoted(text: Bytes): Bytes { [QUOTE] + (EscapedAll(text) + [QUOTE]) }

  const COMMA: Byte := 44
  const COLON: Byte := 58
  const OPEN_LIST: Byte := 91
  const CLOSE_LIST: Byte := 93
  const OPEN_OBJECT: Byte := 123
  const CLOSE_OBJECT: Byte := 125
  const MINUS: Byte := 45
  const TRUE: Bytes := [116, 114, 117, 101]
  const FALSE: Bytes := [102, 97, 108, 115, 101]
  const NULL: Bytes := [110, 117, 108, 108]

  function Digits(n: nat): (digits: Bytes)
    ensures digits != [] && forall i :: 0 <= i < |digits| ==> IsDigit(digits[i])
  {
    AsBytes(Durations.Decimal(n))
  }

  predicate IsDigit(b: Byte) { 48 <= b <= 57 }

  function Number(n: int): Bytes { if n < 0 then [MINUS] + Digits(-n) else Digits(n) }

  /** The parts from the k-th on, a comma before each but the first. */
  ghost function Listed(parts: seq<Bytes>, k: nat): Bytes
    requires k <= |parts|
    decreases |parts| - k
  {
    if k == |parts| then []
    else (if k > 0 then [COMMA] else []) + (parts[k] + Listed(parts, k + 1))
  }

  /** A value written out in the order its fields stand in. */
  ghost function Emit(v: Value): Bytes
    requires Whole(v)
  {
    match v
    case Null => NULL
    case Bool(flag) => if flag then TRUE else FALSE
    case Integer(n) => Number(n)
    case Text(text) => Quoted(text)
    case Array(items) =>
      var parts := seq(|items|, i requires 0 <= i < |items| => Emit(items[i]));
      [OPEN_LIST] + (Listed(parts, 0) + [CLOSE_LIST])
    case Object(fields) =>
      var parts := seq(|fields|, i requires 0 <= i < |fields| => FieldPart(fields[i]));
      [OPEN_OBJECT] + (Listed(parts, 0) + [CLOSE_OBJECT])
  }

  ghost function FieldPart(field: Field): Bytes
    requires Whole(field.value)
  {
    Quoted(field.key) + ([COLON] + Emit(field.value))
  }

  // ---- What is written, as text -----------------------------------------------------------

  /** Exactly the quote, the backslash and the control characters are escaped: seven of them by
      a letter or themselves, the others by two hexadecimal digits. */
  lemma EscapesAsText(b: Byte)
    ensures Escaped(34) == AsBytes("\\\"") && Escaped(92) == AsBytes("\\\\")
    ensures Escaped(8) == AsBytes("\\b") && Escaped(9) == AsBytes("\\t") && Escaped(10) == AsBytes("\\n")
    ensures Escaped(12) == AsBytes("\\f") && Escaped(13) == AsBytes("\\r")
    ensures 32 <= b && b != 34 && b != 92 ==> Escaped(b) == [b]
    ensures b < 32 && b !in {8, 9, 10, 12, 13} ==> Escaped(b) == AsBytes("\\u00") + [HexText(b / 16), HexText(b % 16)]
  {
    if b < 32 {
      HexAsText(b / 16);
      HexAsText(b % 16);
    }
  }

  function HexText(d: nat): Byte
    requires d < 16
  {
    AsBytes("0123456789abcdef")[d]
  }

  lemma HexAsText(d: nat)
    requires d < 16
    ensures HexDigit(d) == HexText(d)
  {
  }

  /** The parts with commas between them. */
  ghost function WithCommas(parts: seq<Bytes>): Bytes {
    if parts == [] then []
    else if |parts| == 1 then parts[0]
    else parts[0] + AsBytes(",") + WithCommas(parts[1..])
  }

  lemma {:induction false} ListedWithCommas(parts: seq<Bytes>, k: nat)
    requires k < |parts|
    ensures Listed(parts, k) == (if k > 0 then AsBytes(",") else []) + WithCommas(parts[k..])
    decreases |parts| - k
  {
    if k + 1 < |parts| {
      ListedWithCommas(parts, k + 1);
      assert parts[k..][1..] == parts[k + 1..];
    }
  }

  /** The literals, plain decimals, and text between quotes. */
  lemma ScalarsAsText(n: JsonInt, text: Bytes)
    ensures Emit(Null) == AsBytes("null")
    ensures Emit(Bool(true)) == AsBytes("true") && Emit(Bool(false)) == AsBytes("false")
    ensures Emit(Integer(n)) == if n < 0 then AsBytes("-") + Digits(-n) else Digits(n)
    ensures Emit(Text(text)) == AsBytes("\"") + EscapedAll(text) + AsBytes("\"")
  {
  }

  lemma Brackets()
    ensures AsBytes("[") == [OPEN_LIST] && AsBytes("]") == [CLOSE_LIST]
    ensures AsBytes("{") == [OPEN_OBJECT] && AsBytes("}") == [CLOSE_OBJECT]
  {
  }

  /** Brackets around the items of an array, and no space anywhere. */
  lemma ItemsAsText(items: seq<Value>)
    requires Whole(Array(items))
    ensures Emit(Array(items)) == AsBytes("[") + WithCommas(ItemParts(items)) + AsBytes("]")
    ensures forall i :: 0 <= i < |items| ==> ItemParts(items)[i] == Emit(items[i])
  {
    assert Emit(Array(items)) == [OPEN_LIST] + (Listed(ItemParts(items), 0) + [CLOSE_LIST]);
    AllWithCommas(ItemParts(items));
    Brackets();
    Regroup([OPEN_LIST], WithCommas(ItemParts(items)), [CLOSE_LIST]);
  }

  /** Braces around the fields of an object. */
  lemma FieldsAsText(fields: seq<Field>)
    requires Whole(Object(fields))
    ensures Emit(Object(fields)) == AsBytes("{") + WithCommas(FieldParts(fields)) + AsBytes("}")
    ensures forall i :: 0 <= i < |fields| ==> FieldParts(fields)[i] == FieldPart(fields[i])
  {
    assert Emit(Object(fields)) == [OPEN_OBJECT] + (Listed(FieldParts(fields), 0) + [CLOSE_OBJECT]);
    AllWithCommas(FieldParts(fields));
    Brackets();
    Regroup([OPEN_OBJECT], WithCommas(FieldParts(fields)), [CLOSE_OBJECT]);
  }

  /** Each field is its quoted key, a colon and its value. */
  lemma FieldAsText(field: Field)
    requires Whole(field.value)
    ensures FieldPart(field) == Quoted(field.key) + AsBytes(":") + Emit(field.value)
  {
    Regroup(Quoted(field.key), AsBytes(":"), Emit(field.value));
  }

  lemma Regroup(a: Bytes, b: Bytes, c: Bytes)
    ensures a + b + c == a + (b + c)
  {
  }

  lemma AllWithCommas(parts: seq<Bytes>)
    ensures Listed(parts, 0) == WithCommas(parts)
  {
    if parts != [] {
      ListedWithCommas(parts, 0);
      assert parts[0..] == parts;
    }
  }

  /** Keys are ordered by their first difference, byte by byte, and a prefix comes first. */
  lemma {:induction false} LessIsByteOrder(a: Bytes, b: Bytes)
    ensures Less(a, b) <==> exists k :: DiffersAt(a, b, k)
  {
    if a != [] && b != [] && a[0] == b[0] {
      LessIsByteOrder(a[1..], b[1..]);
      if exists k :: DiffersAt(a[1..], b[1..], k) {
        var k: nat :| DiffersAt(a[1..], b[1..], k);
        assert DiffersAt(a, b, k + 1);
      }
      if exists k :: DiffersAt(a, b, k) {
        var k: nat :| DiffersAt(a, b, k);
        assert k > 0;
        assert DiffersAt(a[1..], b[1..], k - 1);
      }
    } else {
      assert Less(a, b) ==> DiffersAt(a, b, 0);
    }
  }

  ghost predicate DiffersAt(a: Bytes, b: Bytes, k: nat) {
    && k <= |a| && k < |b| && (k < |a| ==> a[k] < b[k])
    && forall i :: 0 <= i < k ==> a[i] == b[i]
  }

  /** Every object's fields in key order. */
  ghost function Normal(v: Value): Value {
    match v
    case Array(items) => Array(seq(|items|, i requires 0 <= i < |items| => Normal(items[i])))
    case Object(fields) =>
      var sorted := Sort(fields);
      Object(seq(|sorted|, i requires 0 <= i < |sorted| =>
        (assert sorted[i] in sorted; assert sorted[i] in fields; Field(sorted[i].key, Normal(sorted[i].value)))))
    case _ => v
  }

  lemma {:induction false} NormalKeepsWhole(v: Value)
    ensures Whole(Normal(v)) <==> Whole(v)
  {
    match v
    case Array(items) =>
      forall i | 0 <= i < |items| ensures Whole(Normal(items[i])) <==> Whole(items[i]) {
        NormalKeepsWhole(items[i]);
      }
      assert forall i :: 0 <= i < |items| ==> Normal(v).items[i] == Normal(items[i]);
    case Object(fields) =>
      var sorted := Sort(fields);
      forall f | f in fields ensures Whole(Normal(f.value)) <==> Whole(f.value) {
        NormalKeepsWhole(f.value);
      }
      assert forall i :: 0 <= i < |sorted| ==> sorted[i] in sorted;
      assert forall i :: 0 <= i < |fields| ==> fields[i] in sorted;
      assert forall i :: 0 <= i < |sorted| ==> Normal(v).fields[i].value == Normal(sorted[i].value);
    case _ =>
  }

  ghost function CanonicalOf(v: Value): Bytes
    requires Whole(v)
  {
    NormalKeepsWhole(v);
    Emit(Normal(v))
  }

  // ---- A reader -----------------------------------------------------------------------

  /** One character of a string as section 7 of RFC 8259 has it: no raw control character,
      quote or backslash, and only the escapes it lists (those past U+007F are left out). */
  function ReadChar(b: Bytes): (r: Option<(Byte, Bytes)>)
    ensures r.Some? ==> |r.value.1| < |b|
  {
    if b == [] || b[0] < 0x20 || b[0] == QUOTE then None
    else if b[0] != BACKSLASH then Some((b[0], b[1..]))
    else if |b| < 2 then None
    else if b[1] == QUOTE || b[1] == BACKSLASH || b[1] == 47 then Some((b[1], b[2..]))
    else if b[1] == 98 then Some((8, b[2..]))
    else if b[1] == 102 then Some((12, b[2..]))
    else if b[1] == 110 then Some((10, b[2..]))
    else if b[1] == 114 then Some((13, b[2..]))
    else if b[1] == 116 then Some((9, b[2..]))
    else if b[1] == 117 && |b| >= 6 && b[2] == 48 && b[3] == 48 && HexValue(b[4]).Some? && HexValue(b[5]).Some?
            && HexValue(b[4]).value < 8
    then Some((HexValue(b[4]).value * 16 + HexValue(b[5]).value, b[6..]))
    else None
  }

  function HexValue(b: Byte): (r: Option<nat>)
    ensures r.Some? ==> r.value < 16
  {
    if 48 <= b <= 57 then Some(b - 48)
    else if 97 <= b <= 102 then Some(b - 87)
    else if 65 <= b <= 70 then Some(b - 55)
    else None
  }

  function ReadString(b: Bytes): (r: Option<(Bytes, Bytes)>)
    ensures r.Some? ==> |r.value.1| < |b|
    decreases |b|
  {
    if b == [] then None
    else if b[0] == QUOTE then Some(([], b[1..]))
    else
      match ReadChar(b)
      case None => None
      case Some((c, rest)) =>
        match ReadString(rest)
        case None => None
        case Some((text, after)) => Some(([c] + text, after))
  }

  function DigitRun(b: Bytes): (n: nat)
    ensures n <= |b| && forall i :: 0 <= i < n ==> IsDigit(b[i])
  {
    if b == [] || !IsDigit(b[0]) then 0
    else
      var n := 1 + DigitRun(b[1..]);
      assert forall i :: 0 <= i < n ==> IsDigit(b[i]) by {
        forall i | 0 <= i < n ensures IsDigit(b[i]) {
          assert i > 0 ==> b[i] == b[1..][i - 1];
        }
      }
      n
  }

  function Chars(b: Bytes): (s: string)
    requires forall i :: 0 <= i < |b| ==> IsDigit(b[i])
    ensures |s| == |b| && Durations.AllDigits(s) && forall i :: 0 <= i < |b| ==> s[i] as int == b[i]
  {
    seq(|b|, i requires 0 <= i < |b| => DigitChar(b[i]))
  }

  function DigitChar(b: Byte): (c: char)
    requires IsDigit(b)
    ensures Durations.IsDigit(c) && c as int == b
  {
    b as char
  }

  function ReadDigits(b: Bytes): (r: Option<(nat, Bytes)>)
    ensures r.Some? ==> |r.value.1| < |b|
  {
    var n := DigitRun(b);
    if n == 0 then None else Some((Durations.DigitsValue(Chars(b[..n])), b[n..]))
  }

  function ReadNumber(b: Bytes): (r: Option<(Value, Bytes)>)
    ensures r.Some? ==> |r.value.1| < |b|
  {
    if b != [] && b[0] == MINUS then Ranged(ReadDigits(b[1..]), true) else Ranged(ReadDigits(b), false)
  }

  /** Numbers outside the 64-bit ranges are not integers to the parser behind the operator. */
  function Ranged(read: Option<(nat, Bytes)>, negative: bool): Option<(Value, Bytes)> {
    if read.None? then None
    else if negative then
      if read.value.0 <= 0x8000_0000_0000_0000 then Some((Integer(0 - read.value.0), read.value.1)) else None
    else
      if read.value.0 <= 0xFFFF_FFFF_FFFF_FFFF then Some((Integer(read.value.0), read.value.1)) else None
  }

  function ReadValue(b: Bytes): (r: Option<(Value, Bytes)>)
    ensures r.Some? ==> |r.value.1| < |b|
    decreases |b|, 0
  {
    if b == [] then None
    else if b[0] == OPEN_LIST then
      if |b| > 1 && b[1] == CLOSE_LIST then Some((Array([]), b[2..]))
      else
        match ReadItems(b[1..])
        case None => None
        case Some((items, rest)) => Some((Array(items), rest))
    else if b[0] == OPEN_OBJECT then
      if |b| > 1 && b[1] == CLOSE_OBJECT then Some((Object([]), b[2..]))
      else
        match ReadFields(b[1..])
        case None => None
        case Some((fields, rest)) => Some((Object(fields), rest))
    else if b[0] == QUOTE then
      match ReadString(b[1..])
      case None => None
      case Some((text, rest)) => Some((Text(text), rest))
    else if TRUE <= b then Some((Bool(true), b[4..]))
    else if FALSE <= b then Some((Bool(false), b[5..]))
    else if NULL <= b then Some((Null, b[4..]))
    else ReadNumber(b)
  }

  function ReadItems(b: Bytes): (r: Option<(seq<Value>, Bytes)>)
    ensures r.Some? ==> |r.value.1| < |b|
    decreases |b|, 1
  {
    match ReadValue(b)
    case None => None
    case Some((v, rest)) =>
      if rest == [] then None
      else if rest[0] == CLOSE_LIST then Some(([v], rest[1..]))
      else if rest[0] != COMMA then None
      else
        match ReadItems(rest[1..])
        case None => None
        case Some((items, after)) => Some(([v] + items, after))
  }

  function ReadField(b: Bytes): (r: Option<(Field, Bytes)>)
    ensures r.Some? ==> |r.value.1| < |b|
    decreases |b|, 1
  {
    if b == [] || b[0] != QUOTE then None
    else
      match ReadString(b[1..])
      case None => None
      case Some((key, rest)) =>
        if rest == [] || rest[0] != COLON then None
        else
          match ReadValue(rest[1..])
          case None => None
          case Some((v, after)) => Some((Field(key, v), after))
  }

  function ReadFields(b: Bytes): (r: Option<(seq<Field>, Bytes)>)
    ensures r.Some? ==> |r.value.1| < |b|
    decreases |b|, 2
  {
    match ReadField(b)
    case None => None
    case Some((field, rest)) =>
      if rest == [] then None
      else if rest[0] == CLOSE_OBJECT then Some(([field], rest[1..]))
      else if rest[0] != COMMA then None
      else
        match ReadFields(rest[1..])
        case None => None
        case Some((fields, after)) => Some(([field] + fields, after))
  }

  // ---- The reader inverts the writer ---------------------------------------------------

  lemma EscapeReadsBack(c: Byte, rest: Bytes)
    ensures ReadChar(Escaped(c) + rest) == Some((c, rest)) && (Escaped(c) + rest)[0] != QUOTE
  {
    var b := Escaped(c) + rest;
    if c == QUOTE || c == BACKSLASH || c == 8 || c == 12 || c == 10 || c == 13 || c == 9 {
      assert b[2..] == rest;
    } else if c < 0x20 {
      assert HexValue(HexDigit(c / 16)) == Some(c / 16) && HexValue(HexDigit(c % 16)) == Some(c % 16);
      assert b[6..] == rest;
    } else {
      assert b[1..] == rest;
    }
  }

  lemma {:induction false} StringReadsBack(text: Bytes, rest: Bytes)
    ensures ReadString(EscapedAll(text) + ([QUOTE] + rest)) == Some((text, rest))
  {
    if text == [] {
      assert EscapedAll(text) + ([QUOTE] + rest) == [QUOTE] + rest;
      assert ([QUOTE] + rest)[1..] == rest;
    } else {
      var others := EscapedAll(text[1..]) + ([QUOTE] + rest);
      assert EscapedAll(text) + ([QUOTE] + rest) == Escaped(text[0]) + others;
      EscapeReadsBack(text[0], others);
      StringReadsBack(text[1..], rest);
      assert [text[0]] + text[1..] == text;
    }
  }

  lemma QuotedReadsBack(text: Bytes, rest: Bytes)
    ensures (Quoted(text) + rest)[0] == QUOTE && ReadString((Quoted(text) + rest)[1..]) == Some((text, rest))
  {
    StringReadsBack(text, rest);
    assert (Quoted(text) + rest)[1..] == EscapedAll(text) + ([QUOTE] + rest);
  }

  /** What may follow a number without being taken for part of it. */
  ghost predicate Ends(rest: Bytes) { rest == [] || !IsDigit(rest[0]) }

  lemma {:induction false} RunOfDigits(digits: Bytes, rest: Bytes)
    requires (forall i :: 0 <= i < |digits| ==> IsDigit(digits[i])) && Ends(rest)
    ensures DigitRun(digits + rest) == |digits|
  {
    if digits == [] {
      assert digits + rest == rest;
    } else {
      assert (digits + rest)[1..] == digits[1..] + rest;
      RunOfDigits(digits[1..], rest);
    }
  }

  lemma DigitsReadBack(n: nat, rest: Bytes)
    requires Ends(rest)
    ensures ReadDigits(Digits(n) + rest) == Some((n, rest))
  {
    var digits := Digits(n);
    RunOfDigits(digits, rest);
    assert (digits + rest)[..|digits|] == digits && (digits + rest)[|digits|..] == rest;
    assert Chars(digits) == Durations.Decimal(n);
    Durations.DecimalValue(n);
  }

  lemma UnsignedReadsBack(n: nat, rest: Bytes)
    requires n <= 0xFFFF_FFFF_FFFF_FFFF && Ends(rest)
    ensures ReadNumber(Digits(n) + rest) == Some((Integer(n), rest)) && IsDigit(Digits(n)[0])
  {
    DigitsReadBack(n, rest);
    assert (Digits(n) + rest)[0] == Digits(n)[0];
  }

  lemma SignedReadsBack(n: nat, rest: Bytes)
    requires n <= 0x8000_0000_0000_0000 && Ends(rest)
    ensures ReadNumber([MINUS] + Digits(n) + rest) == Some((Integer(0 - n), rest))
  {
    DigitsReadBack(n, rest);
    assert ([MINUS] + Digits(n) + rest)[1..] == Digits(n) + rest;
  }

  lemma NumberReadsBack(n: JsonInt, rest: Bytes)
    requires Ends(rest)
    ensures ReadNumber(Number(n) + rest) == Some((Integer(n), rest))
    ensures IsDigit(Number(n)[0]) || Number(n)[0] == MINUS
  {
    var magnitude: nat := if n < 0 then 0 - n else n;
    if n < 0 {
      SignedReadsBack(magnitude, rest);
      assert Number(n) == [MINUS] + Digits(magnitude);
    } else {
      UnsignedReadsBack(magnitude, rest);
    }
  }

  lemma ScalarReadsBack(v: Value, rest: Bytes)
    requires Whole(v) && !v.Array? && !v.Object? && Ends(rest)
    ensures ReadValue(Emit(v) + rest) == Some((v, rest))
  {
    var b := Emit(v) + rest;
    match v
    case Null => assert b[4..] == rest && b[0] == NULL[0];
    case Bool(flag) =>
      if flag {
        assert b[4..] == rest && b[0] == TRUE[0];
      } else {
        assert b[5..] == rest && b[0] == FALSE[0];
      }
    case Integer(n) => NumberReadsBack(n, rest);
    case Text(text) => QuotedReadsBack(text, rest);
  }

  ghost function ItemParts(items: seq<Value>): (parts: seq<Bytes>)
    requires Whole(Array(items))
    ensures |parts| == |items|
  {
    seq(|items|, i requires 0 <= i < |items| => Emit(items[i]))
  }

  ghost function FieldParts(fields: seq<Field>): (parts: seq<Bytes>)
    requires Whole(Object(fields))
    ensures |parts| == |fields|
  {
    seq(|fields|, i requires 0 <= i < |fields| => FieldPart(fields[i]))
  }

  /** Whatever a value is followed by, as long as it is not a digit, the reader takes off
      exactly the bytes the writer wrote and returns the value they stand for. */
  lemma {:induction false} ReadsBack(v: Value, rest: Bytes)
    requires Whole(v) && Ends(rest)
    ensures ReadValue(Emit(v) + rest) == Some((v, rest))
    decreases v, 1, 0
  {
    match v
    case Array(items) =>
      assert Emit(v) == [OPEN_LIST] + (Listed(ItemParts(items), 0) + [CLOSE_LIST]);
      BracketReads(OPEN_LIST, Listed(ItemParts(items), 0), CLOSE_LIST, rest);
      if items != [] {
        ItemsReadBack(v, 0, rest);
        assert items[0..] == items && Listed(ItemParts(items), 0) == From(ItemParts(items), 0);
      }
    case Object(fields) =>
      assert Emit(v) == [OPEN_OBJECT] + (Listed(FieldParts(fields), 0) + [CLOSE_OBJECT]);
      BracketReads(OPEN_OBJECT, Listed(FieldParts(fields), 0), CLOSE_OBJECT, rest);
      if fields != [] {
        FieldsReadBack(v, 0, rest);
        assert fields[0..] == fields && Listed(FieldParts(fields), 0) == From(FieldParts(fields), 0);
      }
    case _ => ScalarReadsBack(v, rest);
  }

  lemma BracketReads(open: Byte, inside: Bytes, close: Byte, rest: Bytes)
    ensures var b := [open] + (inside + [close]) + rest;
            b[0] == open && b[1..] == inside + ([close] + rest) && (inside == [] ==> b[2..] == rest)
  {
  }

  /** From the k-th part on, with the comma before it already read. */
  ghost function From(parts: seq<Bytes>, k: nat): Bytes
    requires k < |parts|
  {
    parts[k] + Listed(parts, k + 1)
  }

  lemma FromTheLast(parts: seq<Bytes>, k: nat, tail: Bytes)
    requires k + 1 == |parts|
    ensures From(parts, k) + tail == parts[k] + tail
  {
  }

  lemma FromEarlier(parts: seq<Bytes>, k: nat, tail: Bytes)
    requires k + 1 < |parts|
    ensures From(parts, k) + tail == parts[k] + ([COMMA] + (From(parts, k + 1) + tail))
  {
    assert Listed(parts, k + 1) == [COMMA] + From(parts, k + 1);
  }

  lemma {:induction false} ItemsReadBack(v: Value, k: nat, rest: Bytes)
    requires v.Array? && Whole(v) && k < |v.items|
    ensures var b := From(ItemParts(v.items), k) + ([CLOSE_LIST] + rest);
            ReadItems(b) == Some((v.items[k..], rest)) && b != [] && b[0] != CLOSE_LIST
    decreases v, 0, |v.items| - k
  {
    var parts, tail := ItemParts(v.items), [CLOSE_LIST] + rest;
    var item := v.items[k];
    if k + 1 == |v.items| {
      FromTheLast(parts, k, tail);
      ReadsBack(item, tail);
      LastItem(item, rest);
      assert v.items[k..] == [item];
    } else {
      var others := From(parts, k + 1) + tail;
      FromEarlier(parts, k, tail);
      ReadsBack(item, [COMMA] + others);
      ItemsReadBack(v, k + 1, rest);
      NextItem(item, others);
      assert v.items[k..] == [item] + v.items[k + 1..];
    }
  }

  lemma LastItem(item: Value, rest: Bytes)
    requires Whole(item) && ReadValue(Emit(item) + ([CLOSE_LIST] + rest)) == Some((item, [CLOSE_LIST] + rest))
    ensures var b := Emit(item) + ([CLOSE_LIST] + rest);
            ReadItems(b) == Some(([item], rest)) && b[0] != CLOSE_LIST
  {
    assert ([CLOSE_LIST] + rest)[1..] == rest;
  }

  lemma NextItem(item: Value, others: Bytes)
    requires Whole(item) && ReadValue(Emit(item) + ([COMMA] + others)) == Some((item, [COMMA] + others))
    ensures var b := Emit(item) + ([COMMA] + others);
            && b[0] != CLOSE_LIST
            && ReadItems(b) == if ReadItems(others).None? then None
                               else Some(([item] + ReadItems(others).value.0, ReadItems(others).value.1))
  {
    assert ([COMMA] + others)[1..] == others;
  }

  lemma FieldReadsBack(field: Field, rest: Bytes)
    requires Whole(field.value) && ReadValue(Emit(field.value) + rest) == Some((field.value, rest))
    ensures var b := FieldPart(field) + rest;
            ReadField(b) == Some((field, rest)) && b[0] == QUOTE
  {
    var after := [COLON] + (Emit(field.value) + rest);
    assert FieldPart(field) + rest == Quoted(field.key) + after;
    QuotedReadsBack(field.key, after);
    assert after[1..] == Emit(field.value) + rest;
  }

  lemma {:induction false} FieldsReadBack(v: Value, k: nat, rest: Bytes)
    requires v.Object? && Whole(v) && k < |v.fields|
    ensures var b := From(FieldParts(v.fields), k) + ([CLOSE_OBJECT] + rest);
            ReadFields(b) == Some((v.fields[k..], rest)) && b != [] && b[0] == QUOTE
    decreases v, 0, |v.fields| - k
  {
    var parts, tail := FieldParts(v.fields), [CLOSE_OBJECT] + rest;
    var field := v.fields[k];
    if k + 1 == |v.fields| {
      FromTheLast(parts, k, tail);
      ReadsBack(field.value, tail);
      LastField(field, rest);
      assert v.fields[k..] == [field];
    } else {
      var others := From(parts, k + 1) + tail;
      FromEarlier(parts, k, tail);
      ReadsBack(field.value, [COMMA] + others);
      FieldsReadBack(v, k + 1, rest);
      NextField(field, others);
      assert v.fields[k..] == [field] + v.fields[k + 1..];
    }
  }

  lemma LastField(field: Field, rest: Bytes)
    requires Whole(field.value)
    requires ReadValue(Emit(field.value) + ([CLOSE_OBJECT] + rest)) == Some((field.value, [CLOSE_OBJECT] + rest))
    ensures var b := FieldPart(field) + ([CLOSE_OBJECT] + rest);
            ReadFields(b) == Some(([field], rest)) && b[0] == QUOTE
  {
    FieldReadsBack(field, [CLOSE_OBJECT] + rest);
    assert ([CLOSE_OBJECT] + rest)[1..] == rest;
  }

  lemma NextField(field: Field, others: Bytes)
    requires Whole(field.value) && ReadValue(Emit(field.value) + ([COMMA] + others)) ==
             Some((field.value, [COMMA] + others))
    ensures var b := FieldPart(field) + ([COMMA] + others);
            && b[0] == QUOTE
            && ReadFields(b) == if ReadFields(others).None? then None
                                else Some(([field] + ReadFields(others).value.0, ReadFields(others).value.1))
  {
    FieldReadsBack(field, [COMMA] + others);
    assert ([COMMA] + others)[1..] == others;
  }
}
