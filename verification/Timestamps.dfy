/** UTC timestamps as text, and the order SQLite sorts them in. */
module Timestamps {

  datatype Time = Time(year: nat, month: nat, day: nat, hour: nat, minute: nat, second: nat, micro: nat)

  predicate Valid(t: Time) {
    1 <= t.year <= 9999 && 1 <= t.month <= 12 && 1 <= t.day <= 31
    && t.hour < 24 && t.minute < 60 && t.second < 60 && t.micro < 1_000_000
  }

  /** The clock order of two UTC times: the first field that differs decides. */
  predicate Before(a: Time, b: Time) {
    Lesser(Fields(a) + [a.micro], Fields(b) + [b.micro])
  }

  function Fields(t: Time): seq<nat> {
    [t.year, t.month, t.day, t.hour, t.minute, t.second]
  }

  predicate Lesser(a: seq<nat>, b: seq<nat>) {
    |a| > 0 && |b| > 0 && (a[0] < b[0] || (a[0] == b[0] && Lesser(a[1..], b[1..])))
  }

  // ---------------------------------------------------------------- text

  function Pow10(w: nat): nat {
    if w == 0 then 1 else 10 * Pow10(w - 1)
  }

  /** `n` in exactly `w` decimal digits, zero padded. */
  function Digits(n: nat, w: nat): string {
    if w == 0 then "" else Digits(n / 10, w - 1) + [('0' as int + n % 10) as char]
  }

  const WIDTHS: seq<nat> := [4, 2, 2, 2, 2, 2]
  const SEPARATORS := "--T:: "

  /** Each field in its width, a separator after each but the last. */
  function FieldsText(values: seq<nat>, widths: seq<nat>, separators: string): string
    requires |values| == |widths| == |separators|
  {
    if values == [] then ""
    else
      var rest := if |values| == 1 then "" else [separators[0]] + FieldsText(values[1..], widths[1..], separators[1..]);
      Digits(values[0], widths[0]) + rest
  }

  /** `isoformat` leaves the fraction out when there are no microseconds. */
  function Suffix(micro: nat): string {
    if micro == 0 then "+00:00" else "." + (Digits(micro, 6) + "+00:00")
  }

  function IsoFormat(t: Time): string {
    FieldsText(Fields(t), WIDTHS, SEPARATORS) + Suffix(t.micro)
  }

  /** Character by character, a proper prefix first: the order of SQL text and of Python str. */
  predicate LexLess(a: string, b: string) {
    b != "" && (a == "" || a[0] < b[0] || (a[0] == b[0] && LexLess(a[1..], b[1..])))
  }

  // ---------------------------------------------------------------- order

  /** Behind heads of one length, the tails decide only when the heads are equal. */
  lemma {:induction false} HeadsFirst(a: string, b: string, x: string, y: string)
    requires |a| == |b|
    ensures LexLess(a + x, b + y) <==> LexLess(a, b) || (a == b && LexLess(x, y))
  {
    if a == "" {
      assert a + x == x && b + y == y;
    } else {
      assert (a + x)[1..] == a[1..] + x && (b + y)[1..] == b[1..] + y;
      HeadsFirst(a[1..], b[1..], x, y);
      assert a == [a[0]] + a[1..] && b == [b[0]] + b[1..];
    }
  }

  lemma {:induction false} DigitsOrder(m: nat, n: nat, w: nat)
    requires m < Pow10(w) && n < Pow10(w)
    ensures |Digits(m, w)| == |Digits(n, w)| == w
    ensures LexLess(Digits(m, w), Digits(n, w)) <==> m < n
    ensures Digits(m, w) == Digits(n, w) <==> m == n
  {
    if w > 0 {
      DigitsOrder(m / 10, n / 10, w - 1);
      var c, d := [('0' as int + m % 10) as char], [('0' as int + n % 10) as char];
      HeadsFirst(Digits(m / 10, w - 1), Digits(n / 10, w - 1), c, d);
      assert LexLess(c, d) <==> c[0] < d[0];
      assert Digits(m, w)[..w - 1] == Digits(m / 10, w - 1) && Digits(n, w)[..w - 1] == Digits(n / 10, w - 1);
      assert Digits(m, w)[w - 1] == c[0] && Digits(n, w)[w - 1] == d[0];
    }
  }

  ghost predicate Fits(values: seq<nat>, widths: seq<nat>) {
    |values| == |widths| && forall i :: 0 <= i < |values| ==> values[i] < Pow10(widths[i])
  }

  lemma {:induction false} FieldsOrder(u: seq<nat>, v: seq<nat>, widths: seq<nat>, separators: string)
    requires Fits(u, widths) && Fits(v, widths) && |separators| == |widths|
    ensures |FieldsText(u, widths, separators)| == |FieldsText(v, widths, separators)|
    ensures LexLess(FieldsText(u, widths, separators), FieldsText(v, widths, separators)) <==> Lesser(u, v)
    ensures FieldsText(u, widths, separators) == FieldsText(v, widths, separators) <==> u == v
  {
    if u != [] {
      DigitsOrder(u[0], v[0], widths[0]);
      if |u| == 1 {
        assert FieldsText(u, widths, separators) == Digits(u[0], widths[0]);
        assert FieldsText(v, widths, separators) == Digits(v[0], widths[0]);
      } else {
        FieldsOrder(u[1..], v[1..], widths[1..], separators[1..]);
        var x, y := FieldsText(u[1..], widths[1..], separators[1..]), FieldsText(v[1..], widths[1..], separators[1..]);
        HeadsFirst([separators[0]], [separators[0]], x, y);
        HeadsFirst(Digits(u[0], widths[0]), Digits(v[0], widths[0]), [separators[0]] + x, [separators[0]] + y);
        SplitEqual(Digits(u[0], widths[0]), Digits(v[0], widths[0]), [separators[0]] + x, [separators[0]] + y);
        SplitEqual([separators[0]], [separators[0]], x, y);
        assert u == [u[0]] + u[1..] && v == [v[0]] + v[1..];
      }
    }
  }

  lemma SplitEqual(a: string, b: string, x: string, y: string)
    requires |a| == |b|
    ensures a + x == b + y <==> a == b && x == y
  {
    if a + x == b + y {
      assert (a + x)[..|a|] == a && (b + y)[..|b|] == b;
      assert (a + x)[|a|..] == x && (b + y)[|b|..] == y;
    }
  }

  /** '+' sorts before '.', so a whole second sorts before any fraction of it. */
  lemma SuffixOrder(m: nat, n: nat)
    requires m < 1_000_000 && n < 1_000_000
    ensures LexLess(Suffix(m), Suffix(n)) <==> m < n
    ensures Suffix(m) == Suffix(n) <==> m == n
  {
    assert Pow10(6) == 1_000_000;
    DigitsOrder(m, n, 6);
    HeadsFirst(Digits(m, 6), Digits(n, 6), "+00:00", "+00:00");
    NotLess("+00:00");
    if m != 0 && n != 0 {
      HeadsFirst(".", ".", Digits(m, 6) + "+00:00", Digits(n, 6) + "+00:00");
      SplitEqual(Digits(m, 6), Digits(n, 6), "+00:00", "+00:00");
      SplitEqual(".", ".", Digits(m, 6) + "+00:00", Digits(n, 6) + "+00:00");
      NotLess(".");
    }
    if m == 0 && n != 0 { assert Suffix(m)[0] == '+' && Suffix(n)[0] == '.'; }
    if m != 0 && n == 0 { assert Suffix(m)[0] == '.' && Suffix(n)[0] == '+'; }
  }

  lemma {:induction false} NotLess(a: string)
    ensures !LexLess(a, a)
  {
    if a != "" { NotLess(a[1..]); }
  }

  lemma {:induction false} LesserSplit(a: seq<nat>, b: seq<nat>, m: nat, n: nat)
    requires |a| == |b|
    ensures Lesser(a + [m], b + [n]) <==> Lesser(a, b) || (a == b && m < n)
  {
    if a == [] {
      assert a + [m] == [m] && b + [n] == [n];
    } else {
      assert (a + [m])[1..] == a[1..] + [m] && (b + [n])[1..] == b[1..] + [n];
      LesserSplit(a[1..], b[1..], m, n);
      assert a == [a[0]] + a[1..] && b == [b[0]] + b[1..];
    }
  }

  /**
   * The text is an order embedding although its length varies: sorting stored timestamps as
   * text is sorting them by time, and equal text means equal time.
   */
  lemma TextOrderIsTimeOrder(a: Time, b: Time)
    requires Valid(a) && Valid(b)
    ensures LexLess(IsoFormat(a), IsoFormat(b)) <==> Before(a, b)
    ensures IsoFormat(a) == IsoFormat(b) <==> a == b
  {
    assert Pow10(2) == 100 && Pow10(4) == 10_000;
    FieldsOrder(Fields(a), Fields(b), WIDTHS, SEPARATORS);
    var x, y := FieldsText(Fields(a), WIDTHS, SEPARATORS), FieldsText(Fields(b), WIDTHS, SEPARATORS);
    HeadsFirst(x, y, Suffix(a.micro), Suffix(b.micro));
    SplitEqual(x, y, Suffix(a.micro), Suffix(b.micro));
    SuffixOrder(a.micro, b.micro);
    LesserSplit(Fields(a), Fields(b), a.micro, b.micro);
    if Fields(a) == Fields(b) {
      assert a.year == Fields(b)[0] && a.month == Fields(b)[1] && a.day == Fields(b)[2];
      assert a.hour == Fields(b)[3] && a.minute == Fields(b)[4] && a.second == Fields(b)[5];
    }
  }

  lemma {:induction false} LexTotal(a: string, b: string)
    ensures a == b || LexLess(a, b) || LexLess(b, a)
    ensures !(LexLess(a, b) && LexLess(b, a))
  {
    if a != "" && b != "" {
      LexTotal(a[1..], b[1..]);
      assert a == [a[0]] + a[1..] && b == [b[0]] + b[1..];
    }
  }

  lemma {:induction false} LexTransitive(a: string, b: string, c: string)
    requires LexLess(a, b) && LexLess(b, c)
    ensures LexLess(a, c)
  {
    if a != "" && a[0] == b[0] == c[0] { LexTransitive(a[1..], b[1..], c[1..]); }
  }
}
