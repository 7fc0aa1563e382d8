/** Values shared by the route handlers: optional values, the JSON values
    that arrive in request bodies, JavaScript truthiness and the error
    object that handlers pass to Express's `next`. */
module Json {
  import opened Decimal

  datatype Option<+T> = None | Some(value: T)

  /** A JSON value as a handler sees it after Express has parsed the body.
      `Undefined` is a property the body does not have. */
  datatype Value = Undefined | Null | Bool(b: bool) | Num(n: int) | Str(s: string)

  /** A parsed request body (or any plain object): property name to value. */
  type Object = map<string, Value>

  /** `obj.name`: `undefined` when the property is missing. */
  function Get(obj: Object, name: string): Value
  {
    if name in obj then obj[name] else Undefined
  }

  /** JavaScript's `if (v)`: `undefined`, `null`, `false`, `0` and `''` are falsy. */
  predicate Truthy(v: Value)
  {
    match v
    case Undefined => false
    case Null => false
    case Bool(b) => b
    case Num(n) => n != 0
    case Str(s) => s != ""
  }

  /** `${v}` in a template string. */
  function Interpolate(v: Value): string
  {
    match v
    case Undefined => "undefined"
    case Null => "null"
    case Bool(b) => if b then "true" else "false"
    case Num(n) => if n < 0 then "-" + Show(-n) else Show(n)
    case Str(s) => s
  }

  /** `if (s)` on an optional string form field. */
  predicate Present(s: Option<string>)
  {
    s.Some? && s.value != ""
  }

  /** The `{ status, code }` object a handler rejects with or hands to `next`. */
  datatype HttpError = HttpError(status: int, code: int)

  /** The error every read-level check reports. */
  const Forbidden := HttpError(403, 4001)

  /** `lv_read > req.decodedToken.level`: the reader's level is below the
      level the board asks for. */
  predicate ReadDenied(lvRead: int, level: int)
  {
    lvRead > level
  }
}

/** Decimal text of non-negative integers, as JavaScript's `toString` and
    template strings produce it. */
module Decimal {

  predicate IsDigit(c: char)
  {
    '0' <= c <= '9'
  }

  predicate AllDigits(s: string)
  {
    forall i :: 0 <= i < |s| ==> IsDigit(s[i])
  }

  function DigitChar(d: nat): (c: char)
    requires d < 10
    ensures IsDigit(c)
  {
    ('0' as int + d) as char
  }

  function DigitValue(c: char): (d: nat)
    requires IsDigit(c)
    ensures d < 10
  {
    c as int - '0' as int
  }

  /** The number a string of decimal digits denotes. */
  function NumberOf(s: string): nat
    requires AllDigits(s)
  {
    if s == [] then 0 else NumberOf(s[..|s| - 1]) * 10 + DigitValue(s[|s| - 1])
  }

  /** `n.toString()` for a non-negative integer: its decimal digits,
      without leading zeros. */
  function Show(n: nat): (r: string)
    ensures 1 <= |r| && AllDigits(r)
    ensures NumberOf(r) == n
    ensures |r| > 1 ==> r[0] != '0'
  {
    if n < 10 then [DigitChar(n)]
    else
      var r := Show(n / 10) + [DigitChar(n % 10)];
      assert r[..|r| - 1] == Show(n / 10);
      r
  }

  /** A leading zero does not change the number a digit string denotes. */
  lemma {:induction false} LeadingZero(s: string)
    requires AllDigits(s)
    ensures AllDigits("0" + s) && NumberOf("0" + s) == NumberOf(s)
  {
    if s != [] {
      var t := "0" + s;
      assert t[..|t| - 1] == "0" + s[..|s| - 1];
      LeadingZero(s[..|s| - 1]);
    }
  }

  /** A four-digit year prints as exactly four characters. */
  lemma ShowFourDigits(n: nat)
    requires 1000 <= n <= 9999
    ensures |Show(n)| == 4
  {
    assert |Show(n / 1000)| == 1;
    assert |Show(n / 100)| == 2;
    assert |Show(n / 10)| == 3;
  }
}

/** The `YYYYMMDD` day key: `${year}${month}${day}` after month and day
    were padded with `x < 10 ? '0' + x : x`. */
module DayKey {
  import opened Decimal

  /** `x < 10 ? '0' + x : x`, interpolated into a template string. */
  function Pad2(n: nat): (r: string)
    ensures AllDigits(r) && NumberOf(r) == n
    ensures n < 100 ==> |r| == 2 && (r[0] == '0' <==> n < 10)
  {
    if n < 10 then LeadingZero(Show(n)); "0" + Show(n)
    else assert n < 100 ==> |Show(n / 10)| == 1; Show(n)
  }

  /** The key of one calendar day: the cache file name in `./riseset`
      and the upload folder name in `./upload/attachedImage`. */
  function DayFormat(year: nat, month: nat, day: nat): (key: string)
    ensures AllDigits(key) && |key| >= 5
    ensures month < 100 && day < 100 ==> |key| == |Show(year)| + 4
  {
    Show(year) + Pad2(month) + Pad2(day)
  }

  predicate IsCalendarDay(month: nat, day: nat)
  {
    1 <= month <= 12 && 1 <= day <= 31
  }

  /** Reads a day key back: year digits, then two month digits, then two day digits. */
  function ParseDayFormat(key: string): (r: (nat, nat, nat))
    requires |key| >= 4 && AllDigits(key)
  {
    (NumberOf(key[..|key| - 4]), NumberOf(key[|key| - 4..|key| - 2]), NumberOf(key[|key| - 2..]))
  }

  /** The key is all digits: the year as printed, then month and day in
      two digits each, with a '0' in front exactly when the value is below
      10; a four-digit year gives an eight-character key. */
  lemma DayFormatLayout(year: nat, month: nat, day: nat)
    requires IsCalendarDay(month, day)
    ensures var key := DayFormat(year, month, day);
      && AllDigits(key) && |key| == |Show(year)| + 4
      && key[..|key| - 4] == Show(year)
      && (key[|key| - 4] == '0' <==> month < 10)
      && (key[|key| - 2] == '0' <==> day < 10)
      && (1000 <= year <= 9999 ==> |key| == 8)
  {
    var key := DayFormat(year, month, day);
    assert key[..|key| - 4] == Show(year);
    assert key[|key| - 4] == Pad2(month)[0];
    assert key[|key| - 2] == Pad2(day)[0];
    if 1000 <= year <= 9999 {
      ShowFourDigits(year);
    }
  }

  /** Reading the key back gives the day it was built from. */
  lemma DayFormatRoundTrip(year: nat, month: nat, day: nat)
    requires IsCalendarDay(month, day)
    ensures var key := DayFormat(year, month, day);
      |key| >= 4 && AllDigits(key) && ParseDayFormat(key) == (year, month, day)
  {
    var key := DayFormat(year, month, day);
    assert key[..|key| - 4] == Show(year);
    assert key[|key| - 4..|key| - 2] == Pad2(month);
    assert key[|key| - 2..] == Pad2(day);
  }

  /** Two different calendar days never share a key, so the cache holds at
      most one record per day. */
  lemma DayFormatInjective(y1: nat, m1: nat, d1: nat, y2: nat, m2: nat, d2: nat)
    requires IsCalendarDay(m1, d1) && IsCalendarDay(m2, d2)
    requires DayFormat(y1, m1, d1) == DayFormat(y2, m2, d2)
    ensures y1 == y2 && m1 == m2 && d1 == d2
  {
    DayFormatRoundTrip(y1, m1, d1);
    DayFormatRoundTrip(y2, m2, d2);
  }
}

/** Stored upload names: multer's `filename` callbacks name every stored
    file `timestamp + '_' + file.originalname`. */
module Upload {
  import opened Json
  import opened Decimal

  /** `timestamp + '_' + originalname`, the timestamp in milliseconds. */
  function StoredFileName(timestamp: nat, original: string): (name: string)
    ensures var n := |Show(timestamp)|;
      && n < |name| && AllDigits(name[..n]) && NumberOf(name[..n]) == timestamp
      && name[n] == '_' && name[n + 1..] == original
  {
    var name := Show(timestamp) + "_" + original;
    assert name[..|Show(timestamp)|] == Show(timestamp);
    name
  }

  /** Index of the first `c` in `s`, if any. */
  function IndexOf(s: string, c: char): (r: Option<nat>)
    ensures r.Some? ==> r.value < |s| && s[r.value] == c && c !in s[..r.value]
    ensures r.None? ==> c !in s
  {
    if s == [] then None
    else if s[0] == c then Some(0)
    else
      match IndexOf(s[1..], c)
      case None => None
      case Some(i) => assert s[..i + 1] == [s[0]] + s[1..][..i]; Some(i + 1)
  }

  /** Splits a stored name at its first '_' into the timestamp and the
      original name. */
  function SplitStoredFileName(name: string): Option<(nat, string)>
  {
    match IndexOf(name, '_')
    case None => None
    case Some(i) => if AllDigits(name[..i]) then Some((NumberOf(name[..i]), name[i + 1..])) else None
  }

  /** The timestamp's digits hold no '_', so the stored name gives back
      both the timestamp and the original name, whatever that contains. */
  lemma StoredFileNameRoundTrip(timestamp: nat, original: string)
    ensures SplitStoredFileName(StoredFileName(timestamp, original)) == Some((timestamp, original))
  {
    var digits := Show(timestamp);
    var name := StoredFileName(timestamp, original);
    assert '_' !in digits;
    FirstIndexAfter(digits, '_', original);
    assert name[..|digits|] == digits;
    assert name[|digits| + 1..] == original;
  }

  lemma {:induction false} FirstIndexAfter(p: string, c: char, q: string)
    requires c !in p
    ensures IndexOf(p + [c] + q, c) == Some(|p|)
  {
    if p != [] {
      assert (p + [c] + q)[1..] == p[1..] + [c] + q;
      FirstIndexAfter(p[1..], c, q);
    }
  }
}
