/**
 * Python `datetime` values as far as the system uses them: the ISO text a calculation
 * record stores (`isoformat` / `fromisoformat`) and the `%Y%m%d_%H%M%S` stamp in working
 * directory names.  The clock itself is never read: instants are passed in.
 */
module Clock {
  import opened Wrappers
  import opened Text

  datatype DateTime = DateTime(year: nat, month: nat, day: nat,
                               hour: nat, minute: nat, second: nat, microsecond: nat)

  predicate IsLeap(year: nat) {
    (year % 4 == 0 && year % 100 != 0) || year % 400 == 0
  }

  function DaysInMonth(year: nat, month: nat): nat {
    if month == 2 then (if IsLeap(year) then 29 else 28)
    else if month == 4 || month == 6 || month == 9 || month == 11 then 30
    else 31
  }

  /** The range Python's `datetime` accepts. */
  predicate Valid(d: DateTime) {
    && 1 <= d.year <= 9999 && 1 <= d.month <= 12 && 1 <= d.day <= DaysInMonth(d.year, d.month)
    && d.hour < 24 && d.minute < 60 && d.second < 60 && d.microsecond < 1000000
  }

  /** `a` is not later than `b` (chronological order of the fields). */
  predicate NotAfter(a: DateTime, b: DateTime) {
    var ka := [a.year, a.month, a.day, a.hour, a.minute, a.second, a.microsecond];
    var kb := [b.year, b.month, b.day, b.hour, b.minute, b.second, b.microsecond];
    LexLessEq(ka, kb)
  }

  predicate LexLessEq(a: seq<nat>, b: seq<nat>)
    requires |a| == |b|
  {
    a == [] || a[0] < b[0] || (a[0] == b[0] && LexLessEq(a[1..], b[1..]))
  }

  /** Python `d.isoformat()`: `YYYY-MM-DDTHH:MM:SS`, then `.ffffff` when the microseconds are not zero. */
  function IsoFormat(d: DateTime): string {
    DateText(d) + "T" + TimeText(d) + FractionText(d)
  }

  function DateText(d: DateTime): string {
    Pad(d.year, 4) + "-" + Pad(d.month, 2) + "-" + Pad(d.day, 2)
  }

  function TimeText(d: DateTime): string {
    Pad(d.hour, 2) + ":" + Pad(d.minute, 2) + ":" + Pad(d.second, 2)
  }

  function FractionText(d: DateTime): string {
    if d.microsecond != 0 then "." + Pad(d.microsecond, 6) else ""
  }

  /** The value of a digit group, when it is all digits. */
  function Num(g: string): (r: Option<nat>)
    ensures r.Some? <==> AllDigits(g)
  {
    if AllDigits(g) then Some(DigitsValue(g)) else None
  }

  /** Three digit groups `a<sep>b<sep>c` (the first `w` wide, the others two) read from a fixed layout. */
  function Triple(s: string, w: nat, sep: char): Option<(nat, nat, nat)>
    requires |s| == w + 6
  {
    if s[w] != sep || s[w + 3] != sep then None
    else Join3(Num(s[..w]), Num(s[w + 1..w + 3]), Num(s[w + 4..]))
  }

  function Join3(a: Option<nat>, b: Option<nat>, c: Option<nat>): (r: Option<(nat, nat, nat)>)
    ensures r.Some? <==> a.Some? && b.Some? && c.Some?
  {
    if a.None? || b.None? || c.None? then None else Some((a.value, b.value, c.value))
  }

  /** Python `datetime.fromisoformat(s)` on the text `isoformat` produces; anything else is rejected. */
  function FromIsoFormat(s: string): (r: Option<DateTime>)
    ensures r.Some? ==> Valid(r.value)
  {
    if |s| != 19 && |s| != 26 then None
    else if s[10] != 'T' || (|s| == 26 && s[19] != '.') then None
    else
      var date, time := Triple(s[..10], 4, '-'), Triple(s[11..19], 2, ':');
      var us := if |s| == 26 then Num(s[20..]) else Some(0);
      if date.None? || time.None? || us.None? then None
      else
        var d := DateTime(date.value.0, date.value.1, date.value.2,
                          time.value.0, time.value.1, time.value.2, us.value);
        if Valid(d) then Some(d) else None
  }

  /** Python `d.strftime("%Y%m%d_%H%M%S")`. */
  function Stamp(d: DateTime): string {
    Pad(d.year, 4) + Pad(d.month, 2) + Pad(d.day, 2) + "_"
      + Pad(d.hour, 2) + Pad(d.minute, 2) + Pad(d.second, 2)
  }

  lemma {:induction false} NatToStringWidth(n: nat, w: nat, bound: nat)
    requires w >= 1 && bound >= 1 && n < bound
    requires bound == Pow10(w)
    ensures |NatToString(n)| <= w
    decreases w
  {
    if n >= 10 {
      assert Pow10(1) == 10;
      assert w >= 2;
      assert n / 10 < Pow10(w - 1) by {
        assert bound == 10 * Pow10(w - 1);
      }
      NatToStringWidth(n / 10, w - 1, Pow10(w - 1));
    }
  }

  function Pow10(w: nat): (p: nat)
    ensures p >= 1
  {
    if w == 0 then 1 else 10 * Pow10(w - 1)
  }

  /** A padded field of the right width reads back as its value. */
  lemma PadGroup(n: nat, w: nat)
    requires w >= 1 && n < Pow10(w)
    ensures |Pad(n, w)| == w && AllDigits(Pad(n, w)) && DigitsValue(Pad(n, w)) == n
  {
    NatToStringWidth(n, w, Pow10(w));
  }

  lemma TripleOf(a: string, b: string, c: string, sep: char)
    requires |a| >= 2 && |b| == 2 && |c| == 2
    requires AllDigits(a) && AllDigits(b) && AllDigits(c)
    ensures Triple(a + [sep] + b + [sep] + c, |a|, sep)
         == Some((DigitsValue(a), DigitsValue(b), DigitsValue(c)))
  {
    var s := a + [sep] + b + [sep] + c;
    var w := |a|;
    assert s[..w] == a;
    assert s[w + 1..w + 3] == b;
    assert s[w + 4..] == c;
    assert s[w] == sep && s[w + 3] == sep;
    assert Num(s[..w]) == Some(DigitsValue(a));
    assert Num(s[w + 1..w + 3]) == Some(DigitsValue(b));
    assert Num(s[w + 4..]) == Some(DigitsValue(c));
  }

  lemma DateTextReads(d: DateTime)
    requires Valid(d)
    ensures |DateText(d)| == 10
    ensures Triple(DateText(d), 4, '-') == Some((d.year, d.month, d.day))
  {
    assert Pow10(2) == 100 && Pow10(4) == 10000;
    PadGroup(d.year, 4);
    PadGroup(d.month, 2);
    PadGroup(d.day, 2);
    TripleOf(Pad(d.year, 4), Pad(d.month, 2), Pad(d.day, 2), '-');
  }

  lemma TimeTextReads(d: DateTime)
    requires Valid(d)
    ensures |TimeText(d)| == 8
    ensures Triple(TimeText(d), 2, ':') == Some((d.hour, d.minute, d.second))
  {
    assert Pow10(2) == 100;
    PadGroup(d.hour, 2);
    PadGroup(d.minute, 2);
    PadGroup(d.second, 2);
    TripleOf(Pad(d.hour, 2), Pad(d.minute, 2), Pad(d.second, 2), ':');
  }

  lemma FractionTextReads(d: DateTime)
    requires Valid(d)
    ensures d.microsecond == 0 ==> FractionText(d) == ""
    ensures d.microsecond != 0 ==> |FractionText(d)| == 7 && FractionText(d)[0] == '.'
                                   && Num(FractionText(d)[1..]) == Some(d.microsecond)
  {
    if d.microsecond != 0 {
      assert Pow10(6) == 1000000;
      PadGroup(d.microsecond, 6);
      assert FractionText(d)[1..] == Pad(d.microsecond, 6);
    }
  }

  /** Reading back the stored ISO text gives the same instant. */
  lemma IsoRoundTrip(d: DateTime)
    requires Valid(d)
    ensures FromIsoFormat(IsoFormat(d)) == Some(d) && |IsoFormat(d)| >= 19
  {
    DateTextReads(d);
    TimeTextReads(d);
    FractionTextReads(d);
    var date, time, frac := DateText(d), TimeText(d), FractionText(d);
    var s := IsoFormat(d);
    assert s == date + "T" + time + frac;
    assert s[..10] == date;
    assert s[10] == 'T';
    assert s[11..19] == time;
    if d.microsecond != 0 {
      assert s[19..] == frac;
      assert s[20..] == frac[1..];
    } else {
      assert |s| == 19;
    }
  }

  /** The stamp is fifteen characters, the date and the time separated by `_`. */
  lemma StampShape(d: DateTime)
    requires Valid(d)
    ensures |Stamp(d)| == 15 && Stamp(d)[8] == '_'
    ensures forall i :: 0 <= i < 15 && i != 8 ==> IsDigit(Stamp(d)[i])
  {
    assert Pow10(2) == 100 && Pow10(4) == 10000;
    PadGroup(d.year, 4);
    PadGroup(d.month, 2);
    PadGroup(d.day, 2);
    PadGroup(d.hour, 2);
    PadGroup(d.minute, 2);
    PadGroup(d.second, 2);
  }
}
