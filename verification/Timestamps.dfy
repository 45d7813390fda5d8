/** The stored form of a UTC timestamp (internal/storage/sqlite/store.go): RFC 3339 text with
    a trimmed nanosecond fraction. SQL compares these columns as text. */
module Timestamps {
  import opened Basics

  /** A UTC civil time. */
  datatype Stamp = Stamp(year: nat, month: nat, day: nat, hour: nat, minute: nat, second: nat, nano: nat)

  predicate Leap(year: nat) {
    year % 4 == 0 && (year % 100 != 0 || year % 400 == 0)
  }

  function DaysIn(year: nat, month: nat): nat {
    if month == 2 then if Leap(year) then 29 else 28
    else if month in {4, 6, 9, 11} then 30 else 31
  }

  predicate Valid(t: Stamp) {
    && t.year <= 9999 && 1 <= t.month <= 12 && 1 <= t.day <= DaysIn(t.year, t.month)
    && t.hour < 24 && t.minute < 60 && t.second < 60 && t.nano < 1_000_000_000
  }

  // ---- fixed-width decimal fields ----

  function Pow10(n: nat): nat {
    if n == 0 then 1 else 10 * Pow10(n - 1)
  }

  function Digit(d: nat): char
    requires d < 10
  {
    (48 + d) as char
  }

  predicate IsDigit(c: char) { '0' <= c <= '9' }

  function Digits(n: nat, width: nat): (s: string)
    requires n < Pow10(width)
    ensures |s| == width && forall i | 0 <= i < |s| :: IsDigit(s[i])
  {
    if width == 0 then "" else Digits(n / 10, width - 1) + [Digit(n % 10)]
  }

  function ReadDigits(s: string): Option<nat> {
    if s == "" then Some(0)
    else if !IsDigit(s[|s| - 1]) then None
    else match ReadDigits(s[..|s| - 1])
         case None => None
         case Some(n) => Some(10 * n + (s[|s| - 1] as nat - 48))
  }

  lemma ReadsLast(s: string, d: nat)
    requires d < 10
    ensures ReadDigits(s + [Digit(d)]) == match ReadDigits(s) case None => None case Some(n) => Some(10 * n + d)
  {
  }

  lemma {:induction false} ReadsBack(n: nat, width: nat)
    requires n < Pow10(width)
    ensures ReadDigits(Digits(n, width)) == Some(n)
  {
    if width > 0 {
      ReadsBack(n / 10, width - 1);
      ReadsLast(Digits(n / 10, width - 1), n % 10);
    }
  }

  /** Equal-length heads decide first, then the tails. */
  lemma {:induction false} BeforeConcat(a: string, x: string, b: string, y: string)
    requires |a| == |b|
    ensures Before(a + x, b + y) <==> Before(a, b) || (a == b && Before(x, y))
  {
    if a == "" {
      assert a + x == x && b + y == y;
    } else {
      assert (a + x)[1..] == a[1..] + x && (b + y)[1..] == b[1..] + y;
      BeforeConcat(a[1..], x, b[1..], y);
      assert a == [a[0]] + a[1..] && b == [b[0]] + b[1..];
    }
  }

  lemma {:induction false} DigitsOrder(m: nat, n: nat, width: nat)
    requires m < Pow10(width) && n < Pow10(width)
    ensures Before(Digits(m, width), Digits(n, width)) <==> m < n
    ensures Digits(m, width) == Digits(n, width) <==> m == n
  {
    ReadsBack(m, width);
    ReadsBack(n, width);
    if width > 0 {
      DigitsOrder(m / 10, n / 10, width - 1);
      BeforeConcat(Digits(m / 10, width - 1), [Digit(m % 10)], Digits(n / 10, width - 1), [Digit(n % 10)]);
    }
  }

  // ---- the whole-second part: yyyy-mm-ddThh:mm:ss ----

  function Width(i: nat): nat { if i == 0 then 4 else 2 }

  function Mark(i: nat): string {
    if i < 2 then "-" else if i == 2 then "T" else if i < 5 then ":" else ""
  }

  function Fields(t: Stamp): seq<nat> {
    [t.year, t.month, t.day, t.hour, t.minute, t.second]
  }

  predicate Fit(fields: seq<nat>) {
    |fields| == 6 && forall i | 0 <= i < 6 :: fields[i] < Pow10(Width(i))
  }

  function SecondText(fields: seq<nat>, i: nat): string
    requires Fit(fields) && i <= 6
    decreases 6 - i
  {
    if i == 6 then "" else Digits(fields[i], Width(i)) + Mark(i) + SecondText(fields, i + 1)
  }

  /** Calendar order of whole seconds, field by field. */
  predicate FieldsBefore(f: seq<nat>, g: seq<nat>, i: nat)
    requires |f| == |g| == 6 && i <= 6
    decreases 6 - i
  {
    i < 6 && (f[i] < g[i] || (f[i] == g[i] && FieldsBefore(f, g, i + 1)))
  }

  predicate SameFields(f: seq<nat>, g: seq<nat>, i: nat)
    requires |f| == |g| == 6 && i <= 6
  {
    forall k | i <= k < 6 :: f[k] == g[k]
  }

  lemma FieldStep(d: string, e: string, mark: string, x: string, y: string)
    requires |d| == |e| && |x| == |y|
    ensures Before(d + mark + x, e + mark + y) <==> Before(d, e) || (d == e && Before(x, y))
    ensures d + mark + x == e + mark + y <==> d == e && x == y
  {
    var s, t := d + mark + x, e + mark + y;
    assert s == d + (mark + x) && t == e + (mark + y);
    BeforeConcat(d, mark + x, e, mark + y);
    BeforeConcat(mark, x, mark, y);
    BeforeTotal(mark, mark);
    assert s[..|d|] == d && t[..|d|] == e && s[|d| + |mark|..] == x && t[|d| + |mark|..] == y;
  }

  lemma SecondTextStep(f: seq<nat>, g: seq<nat>, i: nat)
    requires Fit(f) && Fit(g) && i < 6 && |SecondText(f, i + 1)| == |SecondText(g, i + 1)|
    ensures |SecondText(f, i)| == |SecondText(g, i)|
    ensures Before(SecondText(f, i), SecondText(g, i))
            <==> f[i] < g[i] || (f[i] == g[i] && Before(SecondText(f, i + 1), SecondText(g, i + 1)))
    ensures SecondText(f, i) == SecondText(g, i) <==> f[i] == g[i] && SecondText(f, i + 1) == SecondText(g, i + 1)
  {
    DigitsOrder(f[i], g[i], Width(i));
    FieldStep(Digits(f[i], Width(i)), Digits(g[i], Width(i)), Mark(i), SecondText(f, i + 1), SecondText(g, i + 1));
  }

  lemma {:induction false} SecondTextOrder(f: seq<nat>, g: seq<nat>, i: nat)
    requires Fit(f) && Fit(g) && i <= 6
    ensures |SecondText(f, i)| == |SecondText(g, i)|
    ensures Before(SecondText(f, i), SecondText(g, i)) <==> FieldsBefore(f, g, i)
    ensures SecondText(f, i) == SecondText(g, i) <==> SameFields(f, g, i)
    decreases 6 - i
  {
    if i < 6 {
      SecondTextOrder(f, g, i + 1);
      SecondTextStep(f, g, i);
    }
  }

  // ---- the fraction: nothing, or a dot and the nanoseconds without trailing zeros ----

  function TrimZeros(s: string): (r: string)
    ensures r <= s
    ensures r == "" || r[|r| - 1] != '0'
    ensures forall i | |r| <= i < |s| :: s[i] == '0'
  {
    if s != "" && s[|s| - 1] == '0' then TrimZeros(s[..|s| - 1]) else s
  }

  function Fraction(nano: nat): string
    requires nano < 1_000_000_000
  {
    assert Pow10(9) == 1_000_000_000 by { assert Pow10(6) == 1_000_000; }
    TrimZeros(Digits(nano, 9))
  }

  function Dotted(fraction: string): string {
    if fraction == "" then "" else "." + fraction
  }

  function FormatTime(t: Stamp): string
    requires Valid(t)
  {
    FieldsFit(t);
    SecondText(Fields(t), 0) + Dotted(Fraction(t.nano)) + "Z"
  }

  lemma FieldsFit(t: Stamp)
    requires Valid(t)
    ensures Fit(Fields(t))
  {
  }

  lemma LastField(f: seq<nat>)
    requires Fit(f)
    ensures SecondText(f, 5) == Digits(f[5], 2)
  {
    assert SecondText(f, 6) == "";
    assert SecondText(f, 5) == Digits(f[5], 2) + "" + "";
  }

  /** The shape of the stored text: yyyy-mm-ddThh:mm:ss, the fraction if there is one, and Z. */
  lemma TextShape(t: Stamp)
    requires Valid(t)
    ensures FormatTime(t) ==
            (Digits(t.year, 4) + "-" + (Digits(t.month, 2) + "-" + (Digits(t.day, 2) + "T" + (Digits(t.hour, 2) + ":"
             + (Digits(t.minute, 2) + ":" + Digits(t.second, 2))))))
            + (if t.nano == 0 then "" else "." + Fraction(t.nano)) + "Z"
  {
    FieldsFit(t);
    LastField(Fields(t));
    FieldsUnfold(Fields(t));
    ZeroFraction();
    if Fraction(t.nano) == "" { SameFraction(t.nano, 0); }
  }

  lemma FieldsUnfold(f: seq<nat>)
    requires Fit(f)
    ensures SecondText(f, 0) == Digits(f[0], 4) + "-" + SecondText(f, 1)
    ensures SecondText(f, 1) == Digits(f[1], 2) + "-" + SecondText(f, 2)
    ensures SecondText(f, 2) == Digits(f[2], 2) + "T" + SecondText(f, 3)
    ensures SecondText(f, 3) == Digits(f[3], 2) + ":" + SecondText(f, 4)
    ensures SecondText(f, 4) == Digits(f[4], 2) + ":" + SecondText(f, 5)
  {
  }

  /** A field is written with its decimal digits, the last one least. */
  lemma DigitsAt(n: nat, width: nat)
    requires width > 0 && n < Pow10(width)
    ensures Digits(n, width) == Digits(n / 10, width - 1) + [['0', '1', '2', '3', '4', '5', '6', '7', '8', '9'][n % 10]]
  {
  }

  predicate Earlier(a: Stamp, b: Stamp) {
    FieldsBefore(Fields(a), Fields(b), 0) || (Fields(a) == Fields(b) && a.nano < b.nano)
  }

  predicate ProperPrefix(a: string, b: string) { a < b }

  function ZeroPad(s: string, width: nat): string
    requires |s| <= width
  {
    s + seq(width - |s|, _ => '0')
  }

  lemma FractionPads(nano: nat)
    requires nano < 1_000_000_000
    ensures |Fraction(nano)| <= 9
    ensures Pow10(9) == 1_000_000_000
    ensures ZeroPad(Fraction(nano), 9) == Digits(nano, 9)
    ensures forall i | 0 <= i < |Fraction(nano)| :: IsDigit(Fraction(nano)[i])
    ensures Fraction(nano) == "" || Fraction(nano)[|Fraction(nano)| - 1] != '0'
  {
  }

  /** Splits two digit strings at their first difference. */
  lemma {:induction false} CompareTails(f: string, g: string, x: string, y: string, p: string, q: string)
    requires !(f <= g) && !(g <= f)
    ensures Before(f + x, g + y) <==> Before(f + p, g + q)
    decreases |f|
  {
    assert (f + x)[1..] == f[1..] + x && (g + y)[1..] == g[1..] + y;
    assert (f + p)[1..] == f[1..] + p && (g + q)[1..] == g[1..] + q;
    if f[0] == g[0] {
      assert f == [f[0]] + f[1..] && g == [g[0]] + g[1..];
      assert !(f[1..] <= g[1..]) && !(g[1..] <= f[1..]);
      CompareTails(f[1..], g[1..], x, y, p, q);
    }
  }

  lemma PrefixPads(f: string, rest: string)
    requires rest != "" && |f| + |rest| <= 9 && rest[|rest| - 1] != '0'
    requires forall i | 0 <= i < |rest| :: IsDigit(rest[i])
    ensures Before(ZeroPad(f, 9), ZeroPad(f + rest, 9))
  {
    var n := |f| + |rest|;
    var zeros, tail := seq(9 - |f|, _ => '0'), rest + seq(9 - n, _ => '0');
    assert ZeroPad(f + rest, 9) == f + tail;
    BeforeTotal(f, f);
    ZerosFirst(zeros, tail, |rest| - 1);
    BeforeConcat(f, zeros, f, tail);
  }

  lemma PrefixDots(f: string, rest: string)
    requires rest != "" && IsDigit(rest[0])
    ensures Before(Dotted(f + rest) + "Z", Dotted(f) + "Z")
  {
    assert (rest + "Z")[0] == rest[0] < 'Z';
    if f == "" {
      assert f + rest == rest && (Dotted(rest) + "Z")[0] == '.' < 'Z';
    } else {
      assert Dotted(f + rest) + "Z" == Dotted(f) + (rest + "Z");
      BeforeTotal(Dotted(f), Dotted(f));
      BeforeConcat(Dotted(f), rest + "Z", Dotted(f), "Z");
    }
  }

  /** Digits after a common prefix sort above the padding of the shorter string, but below its Z. */
  lemma PrefixText(f: string, g: string)
    requires ProperPrefix(f, g) && |g| <= 9 && g[|g| - 1] != '0' && forall i | 0 <= i < |g| :: IsDigit(g[i])
    ensures Before(ZeroPad(f, 9), ZeroPad(g, 9))
    ensures Before(Dotted(g) + "Z", Dotted(f) + "Z")
  {
    var rest := g[|f|..];
    assert g == f + rest;
    assert rest != "" && rest[|rest| - 1] == g[|g| - 1];
    assert forall i | 0 <= i < |rest| :: rest[i] == g[|f| + i] && IsDigit(rest[i]);
    PrefixPads(f, rest);
    PrefixDots(f, rest);
  }

  /** A longer fraction sorts before its own prefix in the stored text, though it is later. */
  lemma PrefixMisorders(m: nat, n: nat)
    requires m < 1_000_000_000 && n < 1_000_000_000
    requires ProperPrefix(Fraction(m), Fraction(n))
    ensures m < n
    ensures Before(Dotted(Fraction(n)) + "Z", Dotted(Fraction(m)) + "Z")
  {
    FractionPads(m);
    FractionPads(n);
    PrefixText(Fraction(m), Fraction(n));
    DigitsOrder(m, n, 9);
  }

  lemma {:induction false} ZerosFirst(zeros: string, tail: string, at: nat)
    requires |zeros| == |tail| && at < |tail|
    requires forall i | 0 <= i < |zeros| :: zeros[i] == '0' && IsDigit(tail[i])
    requires tail[at] != '0'
    ensures Before(zeros, tail)
  {
    if tail[0] == '0' {
      ZerosFirst(zeros[1..], tail[1..], at - 1);
    }
  }

  lemma UnrelatedText(f: string, g: string)
    requires !(f <= g) && !(g <= f) && |f| <= 9 && |g| <= 9
    ensures Before(Dotted(f) + "Z", Dotted(g) + "Z") <==> Before(ZeroPad(f, 9), ZeroPad(g, 9))
  {
    CompareTails(f, g, "Z", "Z", seq(9 - |f|, _ => '0'), seq(9 - |g|, _ => '0'));
    assert f != "" && g != "";
    assert Dotted(f) + "Z" == "." + (f + "Z") && Dotted(g) + "Z" == "." + (g + "Z");
    BeforeTotal(".", ".");
    BeforeConcat(".", f + "Z", ".", g + "Z");
  }

  /** Fractions neither of which extends the other sort as the numbers do. */
  lemma UnrelatedOrder(m: nat, n: nat)
    requires m < 1_000_000_000 && n < 1_000_000_000
    requires !(Fraction(m) <= Fraction(n)) && !(Fraction(n) <= Fraction(m))
    ensures Before(Dotted(Fraction(m)) + "Z", Dotted(Fraction(n)) + "Z") <==> m < n
  {
    FractionPads(m);
    FractionPads(n);
    UnrelatedText(Fraction(m), Fraction(n));
    DigitsOrder(m, n, 9);
  }

  lemma SameFraction(m: nat, n: nat)
    requires m < 1_000_000_000 && n < 1_000_000_000
    requires Fraction(m) == Fraction(n)
    ensures m == n
  {
    FractionPads(m);
    FractionPads(n);
    DigitsOrder(m, n, 9);
  }

  /** Text order agrees with time order except exactly when both times lie in one second and
      one trimmed fraction is a proper prefix of the other. */
  lemma TextOrder(a: Stamp, b: Stamp)
    requires Valid(a) && Valid(b)
    ensures (Before(FormatTime(a), FormatTime(b)) <==> Earlier(a, b))
            <==> !(Fields(a) == Fields(b)
                   && (ProperPrefix(Fraction(a.nano), Fraction(b.nano))
                     || ProperPrefix(Fraction(b.nano), Fraction(a.nano))))
  {
    FieldsFit(a);
    FieldsFit(b);
    var f, g := Fields(a), Fields(b);
    var x, y := Dotted(Fraction(a.nano)) + "Z", Dotted(Fraction(b.nano)) + "Z";
    SecondTextOrder(f, g, 0);
    assert FormatTime(a) == SecondText(f, 0) + x && FormatTime(b) == SecondText(g, 0) + y;
    BeforeConcat(SecondText(f, 0), x, SecondText(g, 0), y);
    if f == g {
      BeforeTotal(SecondText(f, 0), SecondText(g, 0));
      BeforeTotal(x, y);
      var m, n := a.nano, b.nano;
      if Fraction(m) == Fraction(n) {
        SameFraction(m, n);
      } else if Fraction(m) <= Fraction(n) {
        PrefixMisorders(m, n);
      } else if Fraction(n) <= Fraction(m) {
        PrefixMisorders(n, m);
      } else {
        UnrelatedOrder(m, n);
      }
    } else {
      assert SameFields(f, g, 0) ==> f == g;
    }
  }

  /** On whole-second times the stored text always sorts as the times do. */
  lemma WholeSecondOrder(a: Stamp, b: Stamp)
    requires Valid(a) && Valid(b) && a.nano == b.nano == 0
    ensures Before(FormatTime(a), FormatTime(b)) <==> Earlier(a, b)
  {
    TextOrder(a, b);
  }

  // ---- reading back ----

  function ParseFields(s: string, i: nat): Option<(seq<nat>, string)>
    requires i <= 6
    decreases 6 - i
  {
    if i == 6 then Some(([], s))
    else
      var w, m := Width(i), |Mark(i)|;
      if |s| < w + m || s[w..w + m] != Mark(i) then None
      else match ReadDigits(s[..w])
           case None => None
           case Some(n) =>
             match ParseFields(s[w + m..], i + 1)
             case None => None
             case Some(rest) => Some(([n] + rest.0, rest.1))
  }

  function ParseFraction(s: string): Option<nat> {
    if s == "Z" then Some(0)
    else if |s| < 3 || |s| > 11 || s[0] != '.' || s[|s| - 1] != 'Z' then None
    else ReadDigits(ZeroPad(s[1..|s| - 1], 9))
  }

  function ParseTime(s: string): Option<Stamp> {
    match ParseFields(s, 0)
    case None => None
    case Some(parsed) =>
      match ParseFraction(parsed.1)
      case None => None
      case Some(nano) =>
        if |parsed.0| != 6 then None
        else
          var f := parsed.0;
          var t := Stamp(f[0], f[1], f[2], f[3], f[4], f[5], nano);
          if Valid(t) then Some(t) else None
  }

  lemma SplitField(d: string, mark: string, rest: string)
    ensures var s := d + mark + rest; s[..|d|] == d && s[|d|..|d| + |mark|] == mark && s[|d| + |mark|..] == rest
  {
  }

  lemma ParseStep(s: string, i: nat, d: string, rest: string)
    requires i < 6 && |d| == Width(i) && s == d + Mark(i) + rest
    ensures ParseFields(s, i) ==
            match ReadDigits(d)
            case None => None
            case Some(n) =>
              match ParseFields(rest, i + 1)
              case None => None
              case Some(more) => Some(([n] + more.0, more.1))
  {
    SplitField(d, Mark(i), rest);
  }

  lemma TextStep(fields: seq<nat>, tail: string, i: nat)
    requires Fit(fields) && i < 6
    ensures SecondText(fields, i) + tail == Digits(fields[i], Width(i)) + Mark(i) + (SecondText(fields, i + 1) + tail)
  {
  }

  /** A field that reads back in front of a rest that reads back. */
  lemma ParseJoin(s: string, i: nat, d: string, rest: string, fields: seq<nat>, tail: string)
    requires i < 6 && |fields| == 6 && |d| == Width(i) && s == d + Mark(i) + rest
    requires ReadDigits(d) == Some(fields[i]) && ParseFields(rest, i + 1) == Some((fields[i + 1..], tail))
    ensures ParseFields(s, i) == Some((fields[i..], tail))
  {
    ParseStep(s, i, d, rest);
    assert [fields[i]] + fields[i + 1..] == fields[i..];
  }

  lemma {:induction false} FieldsReadBack(fields: seq<nat>, s: string, tail: string, i: nat)
    requires Fit(fields) && i <= 6 && s == SecondText(fields, i) + tail
    ensures ParseFields(s, i) == Some((fields[i..], tail))
    decreases 6 - i
  {
    if i == 6 {
      assert s == tail && fields[6..] == [];
    } else {
      var rest := SecondText(fields, i + 1) + tail;
      FieldsReadBack(fields, rest, tail, i + 1);
      TextStep(fields, tail, i);
      ReadsBack(fields[i], Width(i));
      ParseJoin(s, i, Digits(fields[i], Width(i)), rest, fields, tail);
    }
  }

  /** Reading the stored text gives back the time that was stored. */
  lemma RoundTrip(t: Stamp)
    requires Valid(t)
    ensures ParseTime(FormatTime(t)) == Some(t)
  {
    FieldsFit(t);
    var tail := Dotted(Fraction(t.nano)) + "Z";
    assert FormatTime(t) == SecondText(Fields(t), 0) + tail;
    FieldsReadBack(Fields(t), FormatTime(t), tail, 0);
    FractionPads(t.nano);
    ReadsBack(t.nano, 9);
    if Fraction(t.nano) == "" {
      DigitsOrder(t.nano, 0, 9);
      SameFraction(t.nano, 0) by { ZeroFraction(); }
    } else {
      assert tail[1..|tail| - 1] == Fraction(t.nano);
    }
    assert ParseFraction(tail) == Some(t.nano);
  }

  lemma ZeroFraction()
    ensures Fraction(0) == ""
  {
  }

  lemma {:induction false} AllZeros(width: nat)
    ensures 0 < Pow10(width)
    ensures TrimZeros(Digits(0, width)) == ""
  {
    if width > 0 {
      AllZeros(width - 1);
      assert Digits(0, width)[..width - 1] == Digits(0, width - 1);
    }
  }
}
