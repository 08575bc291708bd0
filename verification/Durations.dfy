/** Declared durations: the printer and the reader of documents.rs. */
module Durations {
  import opened Types

  const DAY: int := 86_400
  const HOUR: int := 3_600
  const MINUTE: int := 60

  predicate IsDigit(c: char) { '0' <= c <= '9' }

  predicate AllDigits(s: string) { forall i :: 0 <= i < |s| ==> IsDigit(s[i]) }

  function Digit(d: nat): (c: char)
    requires d < 10
    ensures IsDigit(c) && DigitValue(c) == d
  {
    "0123456789"[d]
  }

  function DigitValue(c: char): (v: nat)
    requires IsDigit(c)
  {
    c as int - '0' as int
  }

  function Decimal(n: nat): (s: string)
    ensures |s| > 0 && AllDigits(s)
  {
    if n < 10 then [Digit(n)] else Decimal(n / 10) + [Digit(n % 10)]
  }

  function SignedDecimal(n: int): string {
    if n < 0 then "-" + Decimal(-n) else Decimal(n)
  }

  function DigitsValue(s: string): nat
    requires AllDigits(s)
  {
    if s == "" then 0
    else DigitsValue(s[..|s| - 1]) * 10 + DigitValue(s[|s| - 1])
  }

  /** `number.parse::<i64>()` on a run of digits: empty and out-of-range runs fail. */
  function ParseI64(digits: string): (r: Option<int>)
    requires AllDigits(digits)
  {
    if digits == "" || DigitsValue(digits) > I64_MAX then None else Some(DigitsValue(digits))
  }

  function IsoDuration(seconds: int): string {
    if seconds % DAY == 0 then "P" + SignedDecimal(seconds / DAY) + "D"
    else if seconds % HOUR == 0 then "PT" + SignedDecimal(seconds / HOUR) + "H"
    else if seconds % MINUTE == 0 then "PT" + SignedDecimal(seconds / MINUTE) + "M"
    else "PT" + SignedDecimal(seconds) + "S"
  }

  function UnitSeconds(unit: char, inTime: bool): (r: Option<int>)
    ensures r.Some? ==> 1 <= r.value <= 365 * DAY
  {
    if inTime then
      match unit
      case 'H' => Some(HOUR)
      case 'M' => Some(MINUTE)
      case 'S' => Some(1)
      case _ => None
    else
      match unit
      case 'Y' => Some(365 * DAY)
      case 'M' => Some(30 * DAY)
      case 'W' => Some(7 * DAY)
      case 'D' => Some(DAY)
      case _ => None
  }

  /** The reader's local variables between two characters. */
  datatype Reader = Reader(total: int, number: string, inTime: bool, sawUnit: bool)

  ghost predicate ValidReader(r: Reader) { 0 <= r.total <= I64_MAX && AllDigits(r.number) }

  /** `magnitude` of a unit, in seconds. */
  function Weigh(magnitude: nat, unit: char, inTime: bool): (w: nat)
    requires UnitSeconds(unit, inTime).Some?
    ensures magnitude <= w
  {
    var seconds := UnitSeconds(unit, inTime).value;
    assert seconds in {365 * DAY, 30 * DAY, 7 * DAY, DAY, HOUR, MINUTE, 1};
    magnitude * seconds
  }

  /** One turn of the reader's loop; None is an early `return None`. */
  function Turn(r: Reader, c: char): (next: Option<Reader>)
    requires ValidReader(r)
    ensures next.Some? ==> ValidReader(next.value)
  {
    if c == 'T' then Some(r.(inTime := true))
    else if IsDigit(c) then Some(r.(number := r.number + [c]))
    else if ParseI64(r.number).None? || UnitSeconds(c, r.inTime).None? then None
    else
      var total := r.total + Weigh(ParseI64(r.number).value, c, r.inTime);
      if total > I64_MAX then None else Some(Reader(total, "", r.inTime, true))
  }

  function Scan(s: string, r: Reader): (end: Option<Reader>)
    requires ValidReader(r)
    ensures end.Some? ==> ValidReader(end.value)
  {
    if s == "" then Some(r)
    else
      match Turn(r, s[0])
      case None => None
      case Some(next) => Scan(s[1..], next)
  }

  const START := Reader(0, "", false, false)

  function DurationSeconds(value: string): (r: Option<int>)
    ensures r.Some? ==> 0 <= r.value <= I64_MAX
  {
    if value == "none" then Some(0)
    else if !("P" <= value) then None
    else
      match Scan(value[1..], START)
      case None => None
      case Some(end) => if end.number != "" || !end.sawUnit then None else Some(end.total)
  }

  /** The reader as the operator runs it: one pass, four local variables. */
  method ReadDuration(value: string) returns (r: Option<int>)
    ensures r == DurationSeconds(value)
  {
    if value == "none" {
      return Some(0);
    }
    if |value| == 0 || value[0] != 'P' {
      return None;
    }
    var rest := value[1..];
    var total, number, inTime, sawUnit := 0, "", false, false;
    var i := 0;
    while i < |rest|
      invariant 0 <= i <= |rest|
      invariant ValidReader(Reader(total, number, inTime, sawUnit))
      invariant Scan(rest, START) == Scan(rest[i..], Reader(total, number, inTime, sawUnit))
    {
      var character := rest[i];
      assert rest[i..][0] == character && rest[i..][1..] == rest[i + 1..];
      i := i + 1;
      if character == 'T' {
        inTime := true;
        continue;
      }
      if IsDigit(character) {
        number := number + [character];
        continue;
      }
      var magnitude := ParseI64(number);
      var unit := UnitSeconds(character, inTime);
      if magnitude.None? || unit.None? {
        return None;
      }
      var product := magnitude.value * unit.value;
      assert product == Weigh(magnitude.value, character, inTime);
      if product > I64_MAX || total + product > I64_MAX {
        return None;
      }
      total, number, sawUnit := total + product, "", true;
    }
    if number != "" || !sawUnit {
      return None;
    }
    return Some(total);
  }

  // ---- What a declaration means -------------------------------------------

  /** A number and its unit. Leading zeros are allowed, and a `T` may stand anywhere before
      the unit, even among the digits: it turns the units to times from there on and does
      not end the number. */
  datatype Part = Part(text: string, unit: char)

  predicate DigitsAndT(text: string) {
    text == "" || ((IsDigit(text[0]) || text[0] == 'T') && DigitsAndT(text[1..]))
  }

  predicate HasT(text: string) { text != "" && (text[0] == 'T' || HasT(text[1..])) }

  function DigitsOf(text: string): (digits: string)
    ensures AllDigits(digits)
  {
    if text == "" then "" else (if IsDigit(text[0]) then [text[0]] else "") + DigitsOf(text[1..])
  }

  function TimesFrom(text: string, inTime: bool): bool { inTime || HasT(text) }

  ghost predicate Parts(parts: seq<Part>, inTime: bool) {
    parts == [] ||
    var timed := TimesFrom(parts[0].text, inTime);
    && DigitsAndT(parts[0].text) && DigitsOf(parts[0].text) != "" && UnitSeconds(parts[0].unit, timed).Some?
    && Parts(parts[1..], timed)
  }

  ghost function Render(parts: seq<Part>): string {
    if parts == [] then "" else parts[0].text + ([parts[0].unit] + Render(parts[1..]))
  }

  ghost function Worth(parts: seq<Part>, inTime: bool): (n: nat)
    requires Parts(parts, inTime)
  {
    if parts == [] then 0
    else
      var timed := TimesFrom(parts[0].text, inTime);
      Weigh(DigitsValue(DigitsOf(parts[0].text)), parts[0].unit, timed) + Worth(parts[1..], timed)
  }

  ghost function TimedAfter(parts: seq<Part>, inTime: bool): bool {
    if parts == [] then inTime else TimedAfter(parts[1..], TimesFrom(parts[0].text, inTime))
  }

  predicate OnlyT(text: string) { text == "" || (text[0] == 'T' && OnlyT(text[1..])) }

  /** Reading `s` up to `rest` takes the reader to `next`, or out of range; folded, so that
      what strings readings together need not scan. */
  ghost predicate Goes(s: string, r: Reader, rest: string, next: Option<Reader>) {
    forall n: nat {:trigger Unfolded(n)} :: Unfolded(n) ==>
      ValidReader(r) && (next.Some? ==> ValidReader(next.value))
      && Scan(s, r) == if next.None? then None else Scan(rest, next.value)
  }

  lemma GoesOn(s: string, r: Reader, middle: string, open: Reader, rest: string, next: Option<Reader>)
    requires Goes(s, r, middle, Some(open)) && Goes(middle, open, rest, next)
    ensures Goes(s, r, rest, next)
  {
  }

  /** Digits and `T`s leave a longer number open, and the units timed once a `T` was there. */
  lemma {:induction false} ScanText(text: string, rest: string, r: Reader)
    requires ValidReader(r) && DigitsAndT(text)
    ensures Scan(text + rest, r) ==
            Scan(rest, r.(number := r.number + DigitsOf(text), inTime := TimesFrom(text, r.inTime)))
    decreases |text|
  {
    if text == "" {
      assert text + rest == rest && r.number + DigitsOf(text) == r.number;
    } else {
      var next := Turn(r, text[0]).value;
      assert text + rest == [text[0]] + (text[1..] + rest);
      ScanOne(text[0], text[1..] + rest, r);
      ScanText(text[1..], rest, next);
      OpenedBy(text, r);
    }
  }

  lemma ScanOne(c: char, rest: string, r: Reader)
    requires ValidReader(r) && (IsDigit(c) || c == 'T')
    ensures Turn(r, c).Some? && Scan([c] + rest, r) == Scan(rest, Turn(r, c).value)
  {
    assert ([c] + rest)[1..] == rest;
  }

  lemma OpenedBy(text: string, r: Reader)
    requires ValidReader(r) && text != "" && DigitsAndT(text)
    ensures var next := Turn(r, text[0]).value;
            next.(number := next.number + DigitsOf(text[1..]), inTime := TimesFrom(text[1..], next.inTime))
            == r.(number := r.number + DigitsOf(text), inTime := TimesFrom(text, r.inTime))
  {
    var first, others := if IsDigit(text[0]) then [text[0]] else "", DigitsOf(text[1..]);
    assert DigitsOf(text) == first + others;
    assert Turn(r, text[0]) == Some(r.(number := r.number + first, inTime := r.inTime || text[0] == 'T')) by {
      assert r.number + "" == r.number;
    }
    Regroup(r.number, first, others);
  }

  lemma Regroup(a: string, b: string, c: string)
    ensures (a + b) + c == a + (b + c)
  {
  }

  lemma ScanToUnit(text: string, rest: string, r: Reader)
    requires ValidReader(r) && r.number == "" && DigitsAndT(text)
    ensures Goes(text + rest, r, rest, Some(Reader(r.total, DigitsOf(text), TimesFrom(text, r.inTime), r.sawUnit)))
  {
    ScanText(text, rest, r);
    assert r.number + DigitsOf(text) == DigitsOf(text);
  }

  /** What a unit makes of an open number: the total so far, or out of range. */
  function Closed(r: Reader, unit: char): Option<Reader>
    requires ValidReader(r) && UnitSeconds(unit, r.inTime).Some?
  {
    var total := r.total + Weigh(DigitsValue(r.number), unit, r.inTime);
    if total > I64_MAX then None else Some(Reader(total, "", r.inTime, true))
  }

  lemma ScanUnit(unit: char, rest: string, r: Reader)
    requires ValidReader(r) && r.number != "" && UnitSeconds(unit, r.inTime).Some?
    ensures Goes([unit] + rest, r, rest, Closed(r, unit))
  {
    assert Turn(r, unit) == Closed(r, unit);
    assert ([unit] + rest)[1..] == rest;
  }

  /** The reader once one part more has been read, and once all of them have. */
  function PartRead(r: Reader, part: Part): Option<Reader>
    requires ValidReader(r) && UnitSeconds(part.unit, TimesFrom(part.text, r.inTime)).Some?
  {
    Closed(Reader(r.total, DigitsOf(part.text), TimesFrom(part.text, r.inTime), r.sawUnit), part.unit)
  }

  lemma ScanPart(part: Part, rest: string, r: Reader)
    requires ValidReader(r) && r.number == "" && DigitsAndT(part.text) && DigitsOf(part.text) != ""
    requires UnitSeconds(part.unit, TimesFrom(part.text, r.inTime)).Some?
    ensures Goes(part.text + ([part.unit] + rest), r, rest, PartRead(r, part))
  {
    var open := Reader(r.total, DigitsOf(part.text), TimesFrom(part.text, r.inTime), r.sawUnit);
    ScanToUnit(part.text, [part.unit] + rest, r);
    ScanUnit(part.unit, rest, open);
    GoesOn(part.text + ([part.unit] + rest), r, [part.unit] + rest, open, rest, PartRead(r, part));
  }

  ghost function AllRead(r: Reader, parts: seq<Part>): Option<Reader>
    requires ValidReader(r) && Parts(parts, r.inTime)
  {
    var total := r.total + Worth(parts, r.inTime);
    if total > I64_MAX then None
    else Some(Reader(total, r.number, TimedAfter(parts, r.inTime), r.sawUnit || parts != []))
  }

  lemma {:induction false} ScanParts(parts: seq<Part>, rest: string, r: Reader)
    requires ValidReader(r) && r.number == "" && Parts(parts, r.inTime)
    ensures Goes(Render(parts) + rest, r, rest, AllRead(r, parts))
    decreases |parts|
  {
    if parts == [] {
      assert Render(parts) + rest == rest;
    } else {
      RenderFirst(parts, rest);
      ScanPart(parts[0], Render(parts[1..]) + rest, r);
      ReadOneByOne(parts, r);
      var next := PartRead(r, parts[0]);
      if next.Some? {
        ScanParts(parts[1..], rest, next.value);
        GoesOn(Render(parts) + rest, r, Render(parts[1..]) + rest, next.value, rest, AllRead(r, parts));
      }
    }
  }

  lemma ReadOneByOne(parts: seq<Part>, r: Reader)
    requires ValidReader(r) && r.number == "" && parts != [] && Parts(parts, r.inTime)
    ensures var next := PartRead(r, parts[0]);
            AllRead(r, parts) == if next.None? then None else AllRead(next.value, parts[1..])
  {
    assert Worth(parts, r.inTime) ==
      Weigh(DigitsValue(DigitsOf(parts[0].text)), parts[0].unit, TimesFrom(parts[0].text, r.inTime))
      + Worth(parts[1..], TimesFrom(parts[0].text, r.inTime));
  }

  lemma RenderFirst(parts: seq<Part>, rest: string)
    requires parts != []
    ensures Render(parts) + rest == parts[0].text + ([parts[0].unit] + (Render(parts[1..]) + rest))
  {
  }

  lemma OnePart(part: Part, inTime: bool)
    requires DigitsAndT(part.text) && DigitsOf(part.text) != "" &&
             UnitSeconds(part.unit, TimesFrom(part.text, inTime)).Some?
    ensures Parts([part], inTime)
  {
    assert [part][1..] == [];
  }

  lemma ReadsAfterP(rest: string)
    ensures DurationSeconds("P" + rest) ==
            match Scan(rest, START)
            case None => None
            case Some(end) => if end.number != "" || !end.sawUnit then None else Some(end.total)
  {
    assert ("P" + rest)[1..] == rest && ("P" + rest)[0] == 'P';
  }

  /** A declaration written as parts, with any `T`s after the last, reads back as exactly the
      sum of its parts, and is refused exactly when that sum leaves the 64-bit range. */
  lemma ReadsTheSumOfItsParts(parts: seq<Part>, tail: string)
    requires Parts(parts, false) && parts != [] && OnlyT(tail)
    ensures DurationSeconds("P" + (Render(parts) + tail)) ==
            if Worth(parts, false) <= I64_MAX then Some(Worth(parts, false)) else None
  {
    ReadsAfterP(Render(parts) + tail);
    ScanAll(parts, tail);
  }

  lemma ScanAll(parts: seq<Part>, tail: string)
    requires Parts(parts, false) && parts != [] && OnlyT(tail)
    ensures Scan(Render(parts) + tail, START) ==
            if Worth(parts, false) > I64_MAX then None
            else Some(Reader(Worth(parts, false), "", TimesFrom(tail, TimedAfter(parts, false)), true))
  {
    ScanParts(parts, tail, START);
    assert Unfolded(0);
    if Worth(parts, false) <= I64_MAX {
      ScanTail(tail, Reader(Worth(parts, false), "", TimedAfter(parts, false), true));
    }
  }

  lemma ScanTail(tail: string, r: Reader)
    requires ValidReader(r) && r.number == "" && OnlyT(tail)
    ensures Scan(tail, r) == Some(r.(inTime := TimesFrom(tail, r.inTime)))
  {
    OnlyTIsNoDigit(tail);
    ScanText(tail, "", r);
    assert tail + "" == tail && r.number + DigitsOf(tail) == "";
  }

  lemma {:induction false} OnlyTIsNoDigit(tail: string)
    requires OnlyT(tail)
    ensures DigitsAndT(tail) && DigitsOf(tail) == ""
    decreases |tail|
  {
    if tail != "" {
      OnlyTIsNoDigit(tail[1..]);
    }
  }

  /** Whatever the reader gets through, `pending` read before it, is parts and then `T`s. */
  lemma {:induction false} ScannedIsParts(s: string, r: Reader, pending: string, inTime: bool)
    returns (parts: seq<Part>, tail: string)
    requires ValidReader(r) && DigitsAndT(pending) && r.number == DigitsOf(pending) &&
             r.inTime == TimesFrom(pending, inTime)
    requires Scan(s, r).Some? && Scan(s, r).value.number == ""
    ensures Parts(parts, inTime) && OnlyT(tail) && pending + s == Render(parts) + tail
    ensures Scan(s, r).value.sawUnit ==> r.sawUnit || parts != []
    decreases |s|
  {
    if s == "" {
      parts, tail := [], pending;
      NoDigitIsOnlyT(pending);
      assert pending + s == pending;
    } else if s[0] == 'T' || IsDigit(s[0]) {
      var more := pending + [s[0]];
      DigitsOfMore(pending, s[0]);
      parts, tail := ScannedIsParts(s[1..], Turn(r, s[0]).value, more, inTime);
      MoreAndRest(pending, s);
    } else {
      var others;
      others, tail := ScannedIsParts(s[1..], Turn(r, s[0]).value, "", r.inTime);
      parts := [Part(pending, s[0])] + others;
      FirstPartOf(pending, s, others, tail);
    }
  }

  lemma MoreAndRest(pending: string, s: string)
    requires s != ""
    ensures pending + s == (pending + [s[0]]) + s[1..]
  {
  }

  lemma FirstPartOf(pending: string, s: string, others: seq<Part>, tail: string)
    requires s != "" && "" + s[1..] == Render(others) + tail
    ensures var parts := [Part(pending, s[0])] + others;
            parts[1..] == others && pending + s == Render(parts) + tail
  {
    var parts := [Part(pending, s[0])] + others;
    assert parts[1..] == others;
    assert pending + s == pending + ([s[0]] + ("" + s[1..]));
    RenderFirst(parts, tail);
  }

  lemma {:induction false} NoDigitIsOnlyT(text: string)
    requires DigitsAndT(text) && DigitsOf(text) == ""
    ensures OnlyT(text)
    decreases |text|
  {
    if text != "" {
      NoDigitIsOnlyT(text[1..]);
    }
  }

  lemma DigitsOfMore(text: string, c: char)
    ensures DigitsOf(text + [c]) == DigitsOf(text) + (if IsDigit(c) then [c] else "")
    ensures DigitsAndT(text + [c]) <==> DigitsAndT(text) && (IsDigit(c) || c == 'T')
    ensures HasT(text + [c]) <==> HasT(text) || c == 'T'
  {
    DigitsJoin(text, [c]);
    HasTJoin(text, [c]);
    assert [c][1..] == "" && DigitsOf([c]) == (if IsDigit(c) then [c] else "") + DigitsOf("");
  }

  /** The reader accepts nothing else: every string it reads is `none`, or `P` and parts. */
  lemma EverythingReadIsParts(value: string) returns (parts: seq<Part>, tail: string)
    requires DurationSeconds(value).Some? && value != "none"
    ensures Parts(parts, false) && parts != [] && OnlyT(tail) && value == "P" + (Render(parts) + tail)
    ensures DurationSeconds(value) == Some(Worth(parts, false))
  {
    parts, tail := ScannedIsParts(value[1..], START, "", false);
    assert "" + value[1..] == value[1..];
    assert value == ['P'] + value[1..];
    ReadsTheSumOfItsParts(parts, tail);
  }

  lemma {:induction false} DecimalValue(n: nat)
    ensures DigitsValue(Decimal(n)) == n
  {
    var s := Decimal(n);
    if n < 10 {
      assert s[..0] == "";
    } else {
      assert s[..|s| - 1] == Decimal(n / 10);
      DecimalValue(n / 10);
    }
  }

  /** The reader inverts the printer on exactly the non-negative 64-bit values. */
  lemma PrinterRoundTrip(seconds: int)
    requires -I64_MAX - 1 <= seconds <= I64_MAX
    ensures DurationSeconds(IsoDuration(seconds)) == Some(seconds) <==> 0 <= seconds
  {
    if 0 <= seconds {
      if seconds % DAY == 0 {
        ReadsOnePart(seconds / DAY, 'D', false);
      } else if seconds % HOUR == 0 {
        ReadsOnePart(seconds / HOUR, 'H', true);
      } else if seconds % MINUTE == 0 {
        ReadsOnePart(seconds / MINUTE, 'M', true);
      } else {
        ReadsOnePart(seconds, 'S', true);
      }
    }
  }

  lemma ReadsOnePart(n: nat, unit: char, inTime: bool)
    requires UnitSeconds(unit, inTime).Some? && Weigh(n, unit, inTime) <= I64_MAX
    ensures DurationSeconds((if inTime then "PT" else "P") + SignedDecimal(n) + [unit]) == Some(Weigh(n, unit, inTime))
  {
    DecimalValue(n);
    ReadsDigits(Decimal(n), unit, inTime);
    var start := if inTime then "PT" else "P";
    assert start + SignedDecimal(n) + [unit] == start + (Decimal(n) + [unit]);
  }

  /** One number, leading zeros and all. */
  lemma ReadsDigits(digits: string, unit: char, inTime: bool)
    requires AllDigits(digits) && digits != "" && UnitSeconds(unit, inTime).Some?
    ensures var worth := Weigh(DigitsValue(digits), unit, inTime);
            DurationSeconds((if inTime then "PT" else "P") + (digits + [unit])) ==
            if worth <= I64_MAX then Some(worth) else None
  {
    var text := (if inTime then "T" else "") + digits;
    MarkedDigits(digits, unit, inTime);
    assert "P" + (text + [unit]) == (if inTime then "PT" else "P") + (digits + [unit]);
  }

  lemma MarkedDigits(digits: string, unit: char, inTime: bool)
    requires AllDigits(digits) && digits != "" && UnitSeconds(unit, inTime).Some?
    ensures var text, worth := (if inTime then "T" else "") + digits, Weigh(DigitsValue(digits), unit, inTime);
            DurationSeconds("P" + (text + [unit])) == if worth <= I64_MAX then Some(worth) else None
  {
    PlainDigits(digits);
    DigitsAfterT(digits);
    assert "" + digits == digits;
    var part := Part((if inTime then "T" else "") + digits, unit);
    OnePart(part, false);
    ReadsOnly(part);
  }

  lemma ReadsOnly(part: Part)
    requires Parts([part], false)
    ensures DurationSeconds("P" + (part.text + [part.unit])) ==
            if Worth([part], false) <= I64_MAX then Some(Worth([part], false)) else None
    ensures Worth([part], false) == Weigh(DigitsValue(DigitsOf(part.text)), part.unit, TimesFrom(part.text, false))
  {
    assert [part][1..] == [] && Render([part]) == part.text + [part.unit];
    assert Render([part]) + "" == part.text + [part.unit];
    ReadsTheSumOfItsParts([part], "");
  }

  lemma {:induction false} PlainDigits(digits: string)
    requires AllDigits(digits)
    ensures DigitsAndT(digits) && DigitsOf(digits) == digits && !HasT(digits)
    decreases |digits|
  {
    if digits != "" {
      PlainDigits(digits[1..]);
      assert digits == [digits[0]] + digits[1..];
    }
  }

  /** A `T` put before digits times the units and leaves the digits. */
  lemma DigitsAfterT(digits: string)
    requires AllDigits(digits)
    ensures DigitsAndT("T" + digits) && DigitsOf("T" + digits) == digits && HasT("T" + digits)
  {
    PlainDigits(digits);
    assert ("T" + digits)[1..] == digits;
  }

  /** Digits are not cleared at `T`: a number left open before it runs into the number
      after it, so `P1T2H` is read as twelve hours. */
  lemma DigitsRunAcrossT(a: string, b: string, unit: char)
    requires AllDigits(a) && AllDigits(b) && a + b != "" && UnitSeconds(unit, true).Some?
    ensures var worth := Weigh(DigitsValue(a + b), unit, true);
            DurationSeconds("P" + (a + ("T" + b) + [unit])) == if worth <= I64_MAX then Some(worth) else None
  {
    var part := Part(a + ("T" + b), unit);
    DigitsAfterT(b);
    DigitsJoin(a, "T" + b);
    PlainDigits(a);
    HasTJoin(a, "T" + b);
    OnePart(part, false);
    ReadsOnly(part);
  }

  lemma {:induction false} HasTJoin(a: string, b: string)
    ensures HasT(a + b) <==> HasT(a) || HasT(b)
    ensures DigitsAndT(a + b) <==> DigitsAndT(a) && DigitsAndT(b)
    decreases |a|
  {
    if a == "" {
      assert a + b == b;
    } else {
      assert (a + b)[1..] == a[1..] + b && (a + b)[0] == a[0];
      HasTJoin(a[1..], b);
    }
  }

  lemma DigitsFirst(c: char, rest: string)
    ensures DigitsOf([c] + rest) == (if IsDigit(c) then [c] else "") + DigitsOf(rest)
  {
    assert ([c] + rest)[1..] == rest;
  }

  lemma {:induction false} DigitsJoin(a: string, b: string)
    ensures DigitsOf(a + b) == DigitsOf(a) + DigitsOf(b)
    decreases |a|
  {
    if a == "" {
      assert a + b == b;
    } else {
      DigitsJoin(a[1..], b);
      assert a + b == [a[0]] + (a[1..] + b);
      DigitsFirst(a[0], a[1..] + b);
      DigitsFirst(a[0], a[1..]);
      assert a == [a[0]] + a[1..];
    }
  }

  // ---- What the digits and the units stand for ------------------------------------------

  ghost function PowerOfTen(n: nat): nat { if n == 0 then 1 else 10 * PowerOfTen(n - 1) }

  /** Digits count in tens, from the right. */
  lemma {:induction false} DigitsAreDecimal(s: string, t: string)
    requires AllDigits(s) && AllDigits(t)
    ensures AllDigits(s + t) && DigitsValue(s + t) == DigitsValue(s) * PowerOfTen(|t|) + DigitsValue(t)
    decreases |t|
  {
    if t == "" {
      assert s + t == s;
    } else {
      var rest := t[..|t| - 1];
      DigitsAreDecimal(s, rest);
      assert (s + t)[..|s + t| - 1] == s + rest;
      assert DigitsValue(s) * PowerOfTen(|t|) == DigitsValue(s) * PowerOfTen(|rest|) * 10;
    }
  }

  lemma OneDigit(d: nat)
    requires d < 10
    ensures var digit := ["0123456789"[d]]; AllDigits(digit) && DigitsValue(digit) == d
  {
    var digit := ["0123456789"[d]];
    assert digit[..0] == "";
  }

  /** A number of seconds, as far as 64 bits go. */
  function Seconds(n: nat): Option<int> { if n <= 9_223_372_036_854_775_807 then Some(n) else None }

  lemma OneUnit(digits: string, unit: char, inTime: bool, seconds: nat)
    requires AllDigits(digits) && digits != "" && UnitSeconds(unit, inTime) == Some(seconds)
    ensures DurationSeconds((if inTime then "PT" else "P") + (digits + [unit])) ==
            Seconds(DigitsValue(digits) * seconds)
  {
    ReadsDigits(digits, unit, inTime);
  }

  /** A year is 365 days and a month is 30; before `T` an M is a month, after it a minute. */
  lemma UnitsAreWorth(digits: string)
    requires AllDigits(digits) && digits != ""
    ensures var n := DigitsValue(digits);
            && DurationSeconds("P" + (digits + "Y")) == Seconds(n * 31_536_000)
            && DurationSeconds("P" + (digits + "M")) == Seconds(n * 2_592_000)
            && DurationSeconds("P" + (digits + "W")) == Seconds(n * 604_800)
            && DurationSeconds("P" + (digits + "D")) == Seconds(n * 86_400)
            && DurationSeconds("PT" + (digits + "H")) == Seconds(n * 3_600)
            && DurationSeconds("PT" + (digits + "M")) == Seconds(n * 60)
            && DurationSeconds("PT" + (digits + "S")) == Seconds(n * 1)
  {
    OneUnit(digits, 'Y', false, 31_536_000);
    OneUnit(digits, 'M', false, 2_592_000);
    OneUnit(digits, 'W', false, 604_800);
    OneUnit(digits, 'D', false, 86_400);
    OneUnit(digits, 'H', true, 3_600);
    OneUnit(digits, 'M', true, 60);
    OneUnit(digits, 'S', true, 1);
  }

  /** And there are no other units. */
  lemma OnlyTheseUnits(unit: char, inTime: bool)
    ensures UnitSeconds(unit, inTime).Some? <==> unit in (if inTime then "HMS" else "YMWD")
  {
  }

  lemma Divides(n: int, unit: int)
    requires unit in {86_400, 3_600, 60}
    ensures unit * n % unit == 0 && unit * n / unit == n
  {
  }

  lemma Remains(unit: int, whole: int, rest: int)
    requires unit in {86_400, 3_600, 60} && 0 <= rest < unit
    ensures (unit * whole + rest) % unit == rest
  {
  }

  /** What leaves a remainder of hours leaves one of days, and so on down. */
  lemma SmallerUnitsToo(seconds: int)
    ensures seconds % DAY == 0 ==> seconds % HOUR == 0
    ensures seconds % HOUR == 0 ==> seconds % MINUTE == 0
  {
    if seconds % DAY == 0 {
      assert seconds == HOUR * (24 * (seconds / DAY));
      Divides(24 * (seconds / DAY), HOUR);
    }
    if seconds % HOUR == 0 {
      assert seconds == MINUTE * (60 * (seconds / HOUR));
      Divides(60 * (seconds / HOUR), MINUTE);
    }
  }

  lemma PrintsDays(n: int)
    ensures IsoDuration(86_400 * n) == "P" + SignedDecimal(n) + "D"
  {
    Divides(n, 86_400);
  }

  lemma PrintsHours(n: int)
    requires n % 24 != 0
    ensures IsoDuration(3_600 * n) == "PT" + SignedDecimal(n) + "H"
  {
    var whole, rest := n / 24, n % 24;
    assert 3_600 * n == 86_400 * whole + 3_600 * rest;
    Remains(86_400, whole, 3_600 * rest);
    Divides(n, 3_600);
  }

  lemma PrintsMinutes(n: int)
    requires n % 60 != 0
    ensures IsoDuration(60 * n) == "PT" + SignedDecimal(n) + "M"
  {
    var whole, rest := n / 60, n % 60;
    assert 60 * n == 3_600 * whole + 60 * rest;
    Remains(3_600, whole, 60 * rest);
    Divides(n, 60);
    SmallerUnitsToo(60 * n);
  }

  lemma PrintsSeconds(n: int)
    requires n % 60 != 0
    ensures IsoDuration(n) == "PT" + SignedDecimal(n) + "S"
  {
    SmallerUnitsToo(n);
  }

  /** The printer uses the largest unit that leaves no remainder: days, hours, minutes, seconds. */
  lemma PrintsInTheLargestUnit(n: int)
    ensures IsoDuration(86_400 * n) == "P" + SignedDecimal(n) + "D"
    ensures n % 24 != 0 ==> IsoDuration(3_600 * n) == "PT" + SignedDecimal(n) + "H"
    ensures n % 60 != 0 ==> IsoDuration(60 * n) == "PT" + SignedDecimal(n) + "M"
    ensures n % 60 != 0 ==> IsoDuration(n) == "PT" + SignedDecimal(n) + "S"
  {
    PrintsDays(n);
    if n % 24 != 0 {
      PrintsHours(n);
    }
    if n % 60 != 0 {
      PrintsMinutes(n);
      PrintsSeconds(n);
    }
  }
}
