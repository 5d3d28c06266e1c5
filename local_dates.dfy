/**
 * `toLocalYYYYMMDD` (SpecialistResultsPage.tsx): the local calendar date of a `Date` as a
 * `YYYY-MM-DD` key. The booking wizard and the agenda compare such keys as strings; the
 * lemmas here show that, for four-digit years, string order is calendar order.
 */
module LocalDates {
  import opened Strings

  /** The local fields of a `Date`: `getFullYear()`, `getMonth()` (0 to 11) and `getDate()`. */
  datatype LocalDate = LocalDate(year: int, month: int, day: int)

  predicate Plausible(d: LocalDate)
  {
    1000 <= d.year <= 9999 && 0 <= d.month <= 11 && 1 <= d.day <= 31
  }

  /** Calendar order of two dates. */
  predicate Before(a: LocalDate, b: LocalDate)
  {
    a.year < b.year || (a.year == b.year && (a.month < b.month || (a.month == b.month && a.day < b.day)))
  }

  /** `String(n).padStart(width, fill)`. */
  function PadStart(s: string, width: nat, fill: char): (r: string)
    ensures |r| == if |s| >= width then |s| else width
    ensures r[|r| - |s|..] == s
    ensures forall i :: 0 <= i < |r| - |s| ==> r[i] == fill
  {
    if |s| >= width then s else seq(width - |s|, _ => fill) + s
  }

  /** `${year}-${pad2(month + 1)}-${pad2(day)}`. */
  function ToLocalKey(d: LocalDate): string
  {
    IntToDecimal(d.year) + "-" + PadStart(IntToDecimal(d.month + 1), 2, '0') + "-" + PadStart(IntToDecimal(d.day), 2, '0')
  }

  // ---------------------------------------------------------------------------
  // Fixed-width numerals
  // ---------------------------------------------------------------------------

  function Pow10(w: nat): nat
  {
    if w == 0 then 1 else 10 * Pow10(w - 1)
  }

  /** The last `w` decimal digits of `n`, with leading zeros. */
  function Fixed(n: nat, w: nat): (r: string)
    ensures |r| == w
  {
    if w == 0 then [] else Fixed(n / 10, w - 1) + [DigitChar(n % 10)]
  }

  lemma {:induction false} DecimalIsFixed(n: nat, w: nat)
    requires 1 <= w && Pow10(w - 1) <= n < Pow10(w)
    ensures NatToDecimal(n) == Fixed(n, w)
  {
    if w > 1 {
      DecimalIsFixed(n / 10, w - 1);
    }
  }

  lemma {:induction false} FixedOrder(a: nat, b: nat, w: nat)
    requires a < Pow10(w) && b < Pow10(w)
    ensures LexLess(Fixed(a, w), Fixed(b, w)) <==> a < b
    ensures Fixed(a, w) == Fixed(b, w) <==> a == b
  {
    if w > 0 {
      FixedOrder(a / 10, b / 10, w - 1);
      var da, db := [DigitChar(a % 10)], [DigitChar(b % 10)];
      LexLessAppend(Fixed(a / 10, w - 1), da, Fixed(b / 10, w - 1), db);
      assert LexLess(da, db) <==> a % 10 < b % 10;
      if Fixed(a, w) == Fixed(b, w) {
        assert Fixed(a / 10, w - 1) == Fixed(a, w)[..w - 1] == Fixed(b / 10, w - 1);
        assert da[0] == Fixed(a, w)[w - 1] == db[0];
      }
    }
  }

  /** A number from 1 to 99, printed and padded to two digits. */
  lemma Pad2IsFixed(n: nat)
    requires 1 <= n <= 99
    ensures PadStart(IntToDecimal(n), 2, '0') == Fixed(n, 2)
  {
    if n < 10 {
      assert NatToDecimal(n) == [DigitChar(n)];
      assert Fixed(n, 2) == [DigitChar(0), DigitChar(n)];
    } else {
      DecimalIsFixed(n, 2);
    }
  }

  /** For a plausible date the key is four, two and two digits joined by dashes. */
  lemma KeyFields(d: LocalDate)
    requires Plausible(d)
    ensures ToLocalKey(d) == Fixed(d.year, 4) + "-" + Fixed(d.month + 1, 2) + "-" + Fixed(d.day, 2)
  {
    var y, m, dd := IntToDecimal(d.year), PadStart(IntToDecimal(d.month + 1), 2, '0'), PadStart(IntToDecimal(d.day), 2, '0');
    assert ToLocalKey(d) == y + "-" + m + "-" + dd;
    assert y == Fixed(d.year, 4) by { YearIsFixed(d.year); }
    assert m == Fixed(d.month + 1, 2) by { Pad2IsFixed(d.month + 1); }
    assert dd == Fixed(d.day, 2) by { Pad2IsFixed(d.day); }
  }

  /** A four-digit year prints as exactly four digits. */
  lemma YearIsFixed(y: int)
    requires 1000 <= y <= 9999
    ensures IntToDecimal(y) == Fixed(y, 4)
  {
    assert Pow10(3) == 1000 && Pow10(4) == 10000;
    DecimalIsFixed(y, 4);
  }

  /** The key of a plausible date has the ten characters of `YYYY-MM-DD`. */
  lemma KeyLength(d: LocalDate)
    requires Plausible(d)
    ensures |ToLocalKey(d)| == 10
    ensures ToLocalKey(d)[4] == '-' && ToLocalKey(d)[7] == '-'
  {
    KeyFields(d);
    DashedShape(Fixed(d.year, 4), Fixed(d.month + 1, 2), Fixed(d.day, 2));
  }

  lemma DashedShape(y: string, m: string, dd: string)
    requires |y| == 4 && |m| == 2 && |dd| == 2
    ensures |y + "-" + m + "-" + dd| == 10
    ensures (y + "-" + m + "-" + dd)[4] == '-' && (y + "-" + m + "-" + dd)[7] == '-'
  {
  }

  /** Order and equality of three fields joined by dashes, field by field. */
  lemma DashedOrder(x1: string, x2: string, x3: string, y1: string, y2: string, y3: string)
    requires |x1| == |y1| && |x2| == |y2|
    ensures LexLess(x1 + "-" + x2 + "-" + x3, y1 + "-" + y2 + "-" + y3) <==>
              LexLess(x1, y1) || (x1 == y1 && (LexLess(x2, y2) || (x2 == y2 && LexLess(x3, y3))))
    ensures x1 + "-" + x2 + "-" + x3 == y1 + "-" + y2 + "-" + y3 <==> x1 == y1 && x2 == y2 && x3 == y3
  {
    LexLessIrreflexive("-");
    var px, py := x1 + "-" + x2 + "-", y1 + "-" + y2 + "-";
    LexLessAppend(px, x3, py, y3);
    LexLessAppend(x1 + "-" + x2, "-", y1 + "-" + y2, "-");
    LexLessAppend(x1 + "-", x2, y1 + "-", y2);
    LexLessAppend(x1, "-", y1, "-");
    AppendInjective(px, x3, py, y3);
    AppendInjective(x1 + "-" + x2, "-", y1 + "-" + y2, "-");
    AppendInjective(x1 + "-", x2, y1 + "-", y2);
    AppendInjective(x1, "-", y1, "-");
  }

  /** Dashed four-, two- and two-digit fields compare like the numbers they hold. */
  lemma FieldsOrder(y1: nat, m1: nat, d1: nat, y2: nat, m2: nat, d2: nat)
    requires y1 < 10000 && y2 < 10000 && m1 < 100 && m2 < 100 && d1 < 100 && d2 < 100
    ensures LexLess(Fixed(y1, 4) + "-" + Fixed(m1, 2) + "-" + Fixed(d1, 2),
                    Fixed(y2, 4) + "-" + Fixed(m2, 2) + "-" + Fixed(d2, 2)) <==>
              y1 < y2 || (y1 == y2 && (m1 < m2 || (m1 == m2 && d1 < d2)))
    ensures (Fixed(y1, 4) + "-" + Fixed(m1, 2) + "-" + Fixed(d1, 2) ==
             Fixed(y2, 4) + "-" + Fixed(m2, 2) + "-" + Fixed(d2, 2)) <==>
              y1 == y2 && m1 == m2 && d1 == d2
  {
    assert Pow10(2) == 100 && Pow10(4) == 10000;
    FixedOrder(y1, y2, 4);
    FixedOrder(m1, m2, 2);
    FixedOrder(d1, d2, 2);
    DashedOrder(Fixed(y1, 4), Fixed(m1, 2), Fixed(d1, 2), Fixed(y2, 4), Fixed(m2, 2), Fixed(d2, 2));
  }

  /** Comparing two keys as strings compares the dates they name. */
  lemma KeyOrder(a: LocalDate, b: LocalDate)
    requires Plausible(a) && Plausible(b)
    ensures LexLess(ToLocalKey(a), ToLocalKey(b)) <==> Before(a, b)
    ensures ToLocalKey(a) == ToLocalKey(b) <==> a == b
  {
    KeyFields(a);
    KeyFields(b);
    FieldsOrder(a.year, a.month + 1, a.day, b.year, b.month + 1, b.day);
  }

  /** `key >= todayKey` holds for exactly the dates that are not before today. */
  lemma KeyNotBefore(today: LocalDate, d: LocalDate)
    requires Plausible(today) && Plausible(d)
    ensures LexLe(ToLocalKey(today), ToLocalKey(d)) <==> !Before(d, today)
  {
    KeyOrder(today, d);
    KeyOrder(d, today);
  }
}
