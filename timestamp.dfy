/** The two clock renderings on a receipt: the receipt number, "SALE" and a
    `%Y%m%d%H%M%S` stamp, and the purchase time, `%d/%m/%Y %H:%M:%S`. The
    clock reading itself is an input. */
module Timestamp {
  import opened Text

  /** A clock reading to the second. */
  datatype DateTime = DateTime(year: nat, month: nat, day: nat, hour: nat, minute: nat, second: nat)

  /** The readings the clock can give, with a four-digit year. */
  predicate ValidDateTime(t: DateTime)
  {
    && 1000 <= t.year <= 9999 && 1 <= t.month <= 12 && 1 <= t.day <= 31
    && t.hour < 24 && t.minute < 60 && t.second < 60
  }

  function Pad2(n: nat): (s: string)
    requires n < 100
    ensures |s| == 2 && AllDigits(s) && DigitsValue(s) == n
  {
    PadDigits(n, 2)
  }

  function Pad4(n: nat): (s: string)
    requires n < 10000
    ensures |s| == 4 && AllDigits(s) && DigitsValue(s) == n
  {
    PadDigits(n, 4)
  }

  /** `strftime('%Y%m%d%H%M%S')`: fourteen digits, most significant field first. */
  function CompactStamp(t: DateTime): (s: string)
    requires ValidDateTime(t)
    ensures |s| == 14 && AllDigits(s)
  {
    Pad4(t.year) + Pad2(t.month) + Pad2(t.day) + Pad2(t.hour) + Pad2(t.minute) + Pad2(t.second)
  }

  /** Reads a clock reading back out of a fourteen-digit stamp. */
  function DecodeStamp(s: string): Option<DateTime>
  {
    if |s| == 14 && AllDigits(s) then
      DigitSlices(s);
      Some(DateTime(DigitsValue(s[..4]), DigitsValue(s[4..6]), DigitsValue(s[6..8]),
                    DigitsValue(s[8..10]), DigitsValue(s[10..12]), DigitsValue(s[12..])))
    else None
  }

  lemma DigitSlices(s: string)
    requires AllDigits(s)
    ensures forall lo, hi :: 0 <= lo <= hi <= |s| ==> AllDigits(s[lo..hi])
  {
    assert forall lo, hi, i :: 0 <= lo <= hi <= |s| && 0 <= i < hi - lo ==> s[lo..hi][i] == s[lo + i];
  }

  lemma StampRoundTrip(t: DateTime)
    requires ValidDateTime(t)
    ensures DecodeStamp(CompactStamp(t)) == Some(t)
  {
    SixFields(Pad4(t.year), Pad2(t.month), Pad2(t.day), Pad2(t.hour), Pad2(t.minute), Pad2(t.second));
  }

  const RECEIPT_PREFIX := "SALE"

  /** The receipt number: "SALE" followed by the fourteen-digit stamp. */
  function ReceiptNumber(t: DateTime): (r: string)
    requires ValidDateTime(t)
    ensures |r| == 18 && r[..4] == RECEIPT_PREFIX && AllDigits(r[4..])
  {
    RECEIPT_PREFIX + CompactStamp(t)
  }

  /** Reads a clock reading back out of a receipt number. */
  function DecodeReceiptNumber(r: string): Option<DateTime>
  {
    if |r| >= 4 && r[..4] == RECEIPT_PREFIX then DecodeStamp(r[4..]) else None
  }

  lemma ReceiptNumberRoundTrip(t: DateTime)
    requires ValidDateTime(t)
    ensures DecodeReceiptNumber(ReceiptNumber(t)) == Some(t)
  {
    assert ReceiptNumber(t)[4..] == CompactStamp(t);
    StampRoundTrip(t);
  }

  /** Receipt numbers are unique per second: two readings that differ anywhere
      give different numbers (and two within one second give the same one). */
  lemma ReceiptNumberInjective(t1: DateTime, t2: DateTime)
    requires ValidDateTime(t1) && ValidDateTime(t2)
    requires ReceiptNumber(t1) == ReceiptNumber(t2)
    ensures t1 == t2
  {
    ReceiptNumberRoundTrip(t1);
    ReceiptNumberRoundTrip(t2);
  }

  /** `%d/%m/%Y`. */
  function DatePart(t: DateTime): (s: string)
    requires ValidDateTime(t)
    ensures |s| == 10
  {
    Pad2(t.day) + "/" + Pad2(t.month) + "/" + Pad4(t.year)
  }

  /** `%H:%M:%S`. */
  function ClockPart(t: DateTime): (s: string)
    requires ValidDateTime(t)
    ensures |s| == 8
  {
    Pad2(t.hour) + ":" + Pad2(t.minute) + ":" + Pad2(t.second)
  }

  /** `strftime('%d/%m/%Y %H:%M:%S')`; the separators are where
      DecodePurchaseTime looks for them (PurchaseTimeLayout). */
  function PurchaseTime(t: DateTime): (s: string)
    requires ValidDateTime(t)
    ensures |s| == 19
  {
    DatePart(t) + " " + ClockPart(t)
  }

  /** Reads two-, two- and `n`-digit fields separated by `sep`. */
  function DecodeTriple(s: string, sep: char, n: nat): Option<(nat, nat, nat)>
  {
    if |s| == 6 + n && s[2] == sep && s[5] == sep
       && AllDigits(s[..2]) && AllDigits(s[3..5]) && AllDigits(s[6..])
    then Some((DigitsValue(s[..2]), DigitsValue(s[3..5]), DigitsValue(s[6..])))
    else None
  }

  lemma TripleRoundTrip(a: string, b: string, c: string, sep: char)
    requires |a| == 2 && |b| == 2 && AllDigits(a) && AllDigits(b) && AllDigits(c)
    ensures DecodeTriple(a + [sep] + b + [sep] + c, sep, |c|)
      == Some((DigitsValue(a), DigitsValue(b), DigitsValue(c)))
  {
    FiveFields(a, [sep], b, [sep], c);
  }

  /** Reads a clock reading back out of a purchase time. */
  function DecodePurchaseTime(s: string): Option<DateTime>
  {
    if |s| == 19 && s[10] == ' ' then
      match (DecodeTriple(s[..10], '/', 4), DecodeTriple(s[11..], ':', 2))
      case (Some((day, month, year)), Some((hour, minute, second))) =>
        Some(DateTime(year, month, day, hour, minute, second))
      case _ => None
    else None
  }

  lemma PurchaseTimeRoundTrip(t: DateTime)
    requires ValidDateTime(t)
    ensures DecodePurchaseTime(PurchaseTime(t)) == Some(t)
  {
    var s, date, clock := PurchaseTime(t), DatePart(t), ClockPart(t);
    assert s[..10] == date && s[10] == ' ' && s[11..] == clock;
    assert "/" == ['/'] && ":" == [':'];
    TripleRoundTrip(Pad2(t.day), Pad2(t.month), Pad4(t.year), '/');
    TripleRoundTrip(Pad2(t.hour), Pad2(t.minute), Pad2(t.second), ':');
  }

  /** The layout DD/MM/YYYY HH:MM:SS: nineteen characters, the separators in
      fixed places and a digit everywhere else. */
  lemma PurchaseTimeLayout(t: DateTime)
    requires ValidDateTime(t)
    ensures var s := PurchaseTime(t);
      && s[2] == '/' && s[5] == '/' && s[10] == ' ' && s[13] == ':' && s[16] == ':'
      && forall i :: 0 <= i < 19 && i != 2 && i != 5 && i != 10 && i != 13 && i != 16 ==> IsDigit(s[i])
  {
    var s := PurchaseTime(t);
    PurchaseTimeRoundTrip(t);
    var date, clock := s[..10], s[11..];
    SliceLayout(date, '/');
    SliceLayout(clock, ':');
    assert forall i :: 0 <= i < 10 ==> date[i] == s[i];
    assert forall i :: 11 <= i < 19 ==> clock[i - 11] == s[i];
  }

  /** A string that DecodeTriple accepts has digits everywhere but at its two separators. */
  lemma SliceLayout(s: string, sep: char)
    requires |s| >= 6 && s[2] == sep && s[5] == sep
    requires AllDigits(s[..2]) && AllDigits(s[3..5]) && AllDigits(s[6..])
    ensures forall i :: 0 <= i < |s| && i != 2 && i != 5 ==> IsDigit(s[i])
  {
    forall i | 0 <= i < |s| && i != 2 && i != 5
      ensures IsDigit(s[i])
    {
      if i < 2 {
        assert s[..2][i] == s[i];
      } else if i < 5 {
        assert s[3..5][i - 3] == s[i];
      } else {
        assert s[6..][i - 6] == s[i];
      }
    }
  }

  /** Where the fields of a five-field concatenation lie. */
  lemma FiveFields<T>(a: seq<T>, b: seq<T>, c: seq<T>, d: seq<T>, e: seq<T>)
    ensures var s, i := a + b + c + d + e, |a|;
      var j := i + |b|;
      var k := j + |c|;
      var l := k + |d|;
      && s[..i] == a && s[i..j] == b && s[j..k] == c && s[k..l] == d && s[l..] == e
  {
    var ab := a + b;
    var abc := ab + c;
    var abcd := abc + d;
    assert (abcd + e)[..|abcd|] == abcd;
    assert (abc + d)[..|abc|] == abc;
    assert (ab + c)[..|ab|] == ab;
  }

  /** Where the fields of a six-field concatenation lie. */
  lemma SixFields<T>(a: seq<T>, b: seq<T>, c: seq<T>, d: seq<T>, e: seq<T>, f: seq<T>)
    ensures var s, i := a + b + c + d + e + f, |a|;
      var j := i + |b|;
      var k := j + |c|;
      var l := k + |d|;
      var m := l + |e|;
      && s[..i] == a && s[i..j] == b && s[j..k] == c
      && s[k..l] == d && s[l..m] == e && s[m..] == f
  {
    FiveFields(a, b, c, d, e);
    var abcde := a + b + c + d + e;
    assert (abcde + f)[..|abcde|] == abcde;
  }
}
