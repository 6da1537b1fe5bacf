// Instants rendered as RFC 3339 date-times with milliseconds, in UTC.

module Rfc3339 {
  import opened Calendar

  const MIN_I64: int := -9223372036854775808
  const MAX_I64: int := 9223372036854775807

  const DAY_MILLIS := 86_400_000

  function MillisOfDay(millis: int): int { millis % DAY_MILLIS }

  function Days(millis: int): int { Quot(millis - MillisOfDay(millis), DAY_MILLIS) }

  // ---- Decimal numbers ----

  function Digit(d: int): char
    requires 0 <= d < 10
  {
    '0' + d as char
  }

  function Decimal(n: nat): string {
    if n < 10 then [Digit(n)] else Decimal(n / 10) + [Digit(n % 10)]
  }

  function Zeros(s: string, width: nat): string
    decreases width - |s|
  {
    if |s| >= width then s else Zeros("0" + s, width)
  }

  /** A zero-padded integer; a sign counts in the width. */
  function Padded(n: int, width: nat): string
    requires width > 0
  {
    if n < 0 then "-" + Zeros(Decimal(-n), width - 1) else Zeros(Decimal(n), width)
  }

  function Render(millis: int): string {
    var date := CivilFromDays(Days(millis));
    var t := MillisOfDay(millis);
    Padded(date.year, 4) + "-" + Padded(date.month, 2) + "-" + Padded(date.day, 2) + "T"
    + Padded(t / 3_600_000, 2) + ":" + Padded(t / 60_000 % 60, 2) + ":" + Padded(t / 1_000 % 60, 2) + "."
    + Padded(t % 1_000, 3) + "Z"
  }

  /** The subtraction before the division stays within 64 bits exactly from the first whole day on. */
  lemma SubtractionFits(millis: int)
    requires MIN_I64 <= millis <= MAX_I64
    ensures MIN_I64 <= millis - MillisOfDay(millis) <= MAX_I64 <==> millis >= -9223372036828800000
  {
  }

  lemma DaysRoundDown(millis: int)
    ensures Days(millis) == millis / DAY_MILLIS
    ensures millis == Days(millis) * DAY_MILLIS + MillisOfDay(millis)
  {
    var d := millis - MillisOfDay(millis);
    assert d == (millis / DAY_MILLIS) * DAY_MILLIS;
    if d < 0 {
      QuotientIs(-d, -(millis / DAY_MILLIS), 0, DAY_MILLIS);
    }
  }

  // ---- Fields of fixed width ----

  function Pow10(w: nat): (p: nat)
    ensures p > 0
  {
    if w == 0 then 1 else 10 * Pow10(w - 1)
  }

  function Fixed(n: nat, w: nat): (s: string)
    ensures |s| == w
  {
    if w == 0 then [] else Fixed(n / 10, w - 1) + [Digit(n % 10)]
  }

  lemma {:induction false} ZerosExtend(s: string, c: char, w: nat)
    requires w > 0
    ensures Zeros(s + [c], w) == Zeros(s, w - 1) + [c]
    decreases w - |s|
  {
    if |s| + 1 < w {
      assert "0" + (s + [c]) == ("0" + s) + [c];
      ZerosExtend("0" + s, c, w);
    }
  }

  lemma {:induction false} ZerosOfOne(n: nat, w: nat)
    requires n < 10 && w > 0
    ensures Zeros([Digit(n)], w) == Fixed(n, w)
  {
    assert [] + [Digit(n)] == [Digit(n)];
    ZerosExtend([], Digit(n), w);
    ZerosAlone(w - 1);
  }

  lemma {:induction false} ZerosAlone(w: nat)
    ensures Zeros([], w) == Fixed(0, w)
  {
    if w == 0 {
    } else {
      assert "0" + [] == [] + ['0'];
      ZerosExtend([], '0', w);
      ZerosAlone(w - 1);
    }
  }

  lemma {:induction false} PaddedIsFixed(n: nat, w: nat)
    requires w > 0 && n < Pow10(w)
    ensures Padded(n, w) == Fixed(n, w)
  {
    if n < 10 {
      ZerosOfOne(n, w);
    } else {
      ZerosExtend(Decimal(n / 10), Digit(n % 10), w);
      PaddedIsFixed(n / 10, w - 1);
    }
  }

  // ---- A layout: fields of fixed width, each with what follows it ----

  datatype Field = Field(width: nat, after: char)

  const LAYOUT :=
    [Field(4, '-'), Field(2, '-'), Field(2, 'T'), Field(2, ':'), Field(2, ':'), Field(2, '.'), Field(3, 'Z')]

  predicate Fits(ns: seq<nat>, layout: seq<Field>) {
    |ns| == |layout| && forall i :: 0 <= i < |ns| ==> ns[i] < Pow10(layout[i].width)
  }

  function Text(ns: seq<nat>, layout: seq<Field>): string
    requires |ns| == |layout|
  {
    if ns == [] then [] else Fixed(ns[0], layout[0].width) + [layout[0].after] + Text(ns[1..], layout[1..])
  }

  /** The order of section 5.1 of RFC 3339: by character. */
  predicate TextBefore(s: string, t: string) {
    t != [] && (s == [] || s[0] < t[0] || (s[0] == t[0] && TextBefore(s[1..], t[1..])))
  }

  predicate FieldsBefore(a: seq<nat>, b: seq<nat>)
    requires |a| == |b|
  {
    a != [] && (a[0] < b[0] || (a[0] == b[0] && FieldsBefore(a[1..], b[1..])))
  }

  lemma OneCharacter(c: char, d: char, s: string, t: string)
    ensures TextBefore([c] + s, [d] + t) <==> c < d || (c == d && TextBefore(s, t))
  {
    assert ([c] + s)[1..] == s && ([d] + t)[1..] == t;
  }

  lemma {:induction false} OneField(a: nat, b: nat, w: nat, s: string, t: string)
    requires a < Pow10(w) && b < Pow10(w)
    ensures TextBefore(Fixed(a, w) + s, Fixed(b, w) + t) <==> a < b || (a == b && TextBefore(s, t))
  {
    if w == 0 {
      assert Fixed(a, w) + s == s && Fixed(b, w) + t == t;
    } else {
      var c, d := Digit(a % 10), Digit(b % 10);
      assert Fixed(a, w) + s == Fixed(a / 10, w - 1) + ([c] + s);
      assert Fixed(b, w) + t == Fixed(b / 10, w - 1) + ([d] + t);
      OneField(a / 10, b / 10, w - 1, [c] + s, [d] + t);
      OneCharacter(c, d, s, t);
    }
  }

  /** By character and field by field are the same order. */
  lemma {:induction false} TextOrder(a: seq<nat>, b: seq<nat>, layout: seq<Field>)
    requires Fits(a, layout) && Fits(b, layout)
    ensures TextBefore(Text(a, layout), Text(b, layout)) <==> FieldsBefore(a, b)
  {
    if a == [] {
    } else {
      var w, c := layout[0].width, layout[0].after;
      var s, t := Text(a[1..], layout[1..]), Text(b[1..], layout[1..]);
      assert Text(a, layout) == Fixed(a[0], w) + ([c] + s) && Text(b, layout) == Fixed(b[0], w) + ([c] + t);
      OneField(a[0], b[0], w, [c] + s, [c] + t);
      OneCharacter(c, c, s, t);
      TextOrder(a[1..], b[1..], layout[1..]);
    }
  }

  // ---- Instants whose year has four digits ----

  predicate FourDigitYear(millis: int) { 0 <= Counted(Days(millis)).year <= 9999 }

  function Fields(millis: int): seq<nat>
    requires FourDigitYear(millis)
  {
    CountedStep(Days(millis));
    var d, t := Counted(Days(millis)), MillisOfDay(millis);
    [d.year, d.month, d.day, t / 3_600_000, t / 60_000 % 60, t / 1_000 % 60, t % 1_000]
  }

  lemma Powers()
    ensures Pow10(2) == 100 && Pow10(3) == 1000 && Pow10(4) == 10000
  {
    assert Pow10(1) == 10;
  }

  lemma FieldsFit(millis: int)
    requires FourDigitYear(millis)
    ensures Fits(Fields(millis), LAYOUT)
  {
    CountedStep(Days(millis));
    Powers();
  }

  lemma RenderIsText(millis: int)
    requires FourDigitYear(millis)
    ensures Render(millis) == Text(Fields(millis), LAYOUT)
  {
    CivilIsCounted(Days(millis));
    FieldsFit(millis);
    var ns := Fields(millis);
    Powers();
    PaddedIsFixed(ns[0], 4);
    PaddedIsFixed(ns[1], 2);
    PaddedIsFixed(ns[2], 2);
    PaddedIsFixed(ns[3], 2);
    PaddedIsFixed(ns[4], 2);
    PaddedIsFixed(ns[5], 2);
    PaddedIsFixed(ns[6], 3);
    TextOfSeven(ns);
  }

  lemma TextNested(n: seq<nat>)
    requires |n| == 7
    ensures Text(n, LAYOUT) ==
            Fixed(n[0], 4) + "-" + (Fixed(n[1], 2) + "-" + (Fixed(n[2], 2) + "T"
            + (Fixed(n[3], 2) + ":" + (Fixed(n[4], 2) + ":" + (Fixed(n[5], 2) + "." + (Fixed(n[6], 3) + "Z"))))))
  {
    var l := LAYOUT;
    assert Text(n[7..], l[7..]) == [];
    assert Text(n[6..], l[6..]) == Fixed(n[6], 3) + "Z";
    assert Text(n[5..], l[5..]) == Fixed(n[5], 2) + "." + Text(n[6..], l[6..]);
    assert Text(n[4..], l[4..]) == Fixed(n[4], 2) + ":" + Text(n[5..], l[5..]);
    assert Text(n[3..], l[3..]) == Fixed(n[3], 2) + ":" + Text(n[4..], l[4..]);
    assert Text(n[2..], l[2..]) == Fixed(n[2], 2) + "T" + Text(n[3..], l[3..]);
    assert Text(n[1..], l[1..]) == Fixed(n[1], 2) + "-" + Text(n[2..], l[2..]);
    assert n[0..] == n && l[0..] == l;
  }

  lemma Regrouped(a: string, b: string, c: string, d: string, e: string, f: string, g: string)
    ensures a + "-" + b + "-" + c + "T" + d + ":" + e + ":" + f + "." + g + "Z"
         == a + "-" + (b + "-" + (c + "T" + (d + ":" + (e + ":" + (f + "." + (g + "Z"))))))
  {
  }

  lemma TextOfSeven(n: seq<nat>)
    requires |n| == 7
    ensures Text(n, LAYOUT) ==
            Fixed(n[0], 4) + "-" + Fixed(n[1], 2) + "-" + Fixed(n[2], 2) + "T"
            + Fixed(n[3], 2) + ":" + Fixed(n[4], 2) + ":" + Fixed(n[5], 2) + "." + Fixed(n[6], 3) + "Z"
  {
    TextNested(n);
    Regrouped(Fixed(n[0], 4), Fixed(n[1], 2), Fixed(n[2], 2), Fixed(n[3], 2), Fixed(n[4], 2), Fixed(n[5], 2),
              Fixed(n[6], 3));
  }

  /** Within a day, the clock's fields are ordered as the milliseconds are. */
  lemma ClockOrder(t: int, u: int)
    requires 0 <= t < u < DAY_MILLIS
    ensures
      || t / 3_600_000 < u / 3_600_000
      || (t / 3_600_000 == u / 3_600_000
          && (|| t / 60_000 % 60 < u / 60_000 % 60
              || (t / 60_000 % 60 == u / 60_000 % 60
                  && (|| t / 1_000 % 60 < u / 1_000 % 60
                      || (t / 1_000 % 60 == u / 1_000 % 60 && t % 1_000 < u % 1_000)))))
  {
    ClockReads(t);
    ClockReads(u);
  }

  lemma ClockReads(t: int)
    requires 0 <= t < DAY_MILLIS
    ensures t == t / 3_600_000 * 3_600_000 + t / 60_000 % 60 * 60_000 + t / 1_000 % 60 * 1_000 + t % 1_000
  {
    assert t / 3_600_000 == t / 60_000 / 60;
    assert t / 60_000 == t / 1_000 / 60;
  }

  lemma Lexicographic(a: seq<nat>, b: seq<nat>)
    requires |a| == |b| == 7
    ensures FieldsBefore(a, b) <==>
            a[0] < b[0] || (a[0] == b[0] && (a[1] < b[1] || (a[1] == b[1] && (a[2] < b[2] || (a[2] == b[2] &&
            (a[3] < b[3] || (a[3] == b[3] && (a[4] < b[4] || (a[4] == b[4] && (a[5] < b[5] || (a[5] == b[5] &&
            a[6] < b[6])))))))))))
  {
    assert FieldsBefore(a[6..], b[6..]) <==> a[6] < b[6];
    assert FieldsBefore(a[5..], b[5..]) <==> a[5] < b[5] || (a[5] == b[5] && FieldsBefore(a[6..], b[6..]));
    assert FieldsBefore(a[4..], b[4..]) <==> a[4] < b[4] || (a[4] == b[4] && FieldsBefore(a[5..], b[5..]));
    assert FieldsBefore(a[3..], b[3..]) <==> a[3] < b[3] || (a[3] == b[3] && FieldsBefore(a[4..], b[4..]));
    assert FieldsBefore(a[2..], b[2..]) <==> a[2] < b[2] || (a[2] == b[2] && FieldsBefore(a[3..], b[3..]));
    assert FieldsBefore(a[1..], b[1..]) <==> a[1] < b[1] || (a[1] == b[1] && FieldsBefore(a[2..], b[2..]));
    assert a[0..] == a && b[0..] == b;
  }

  lemma EarlierFields(m: int, n: int)
    requires m < n && FourDigitYear(m) && FourDigitYear(n)
    ensures FieldsBefore(Fields(m), Fields(n))
  {
    DaysRoundDown(m);
    DaysRoundDown(n);
    Lexicographic(Fields(m), Fields(n));
    if Days(m) < Days(n) {
      DatesIncrease(Days(m), Days(n));
    } else {
      ClockOrder(MillisOfDay(m), MillisOfDay(n));
    }
  }

  lemma {:induction false} FieldsIrreflexive(a: seq<nat>, b: seq<nat>)
    requires |a| == |b| && FieldsBefore(a, b)
    ensures !FieldsBefore(b, a) && a != b
  {
    if a[0] == b[0] {
      FieldsIrreflexive(a[1..], b[1..]);
    }
  }

  // ---- Main results ----

  /** Rendered instants sort as text exactly as the instants sort in time, so no two render alike. */
  lemma RenderedOrder(m: int, n: int)
    requires FourDigitYear(m) && FourDigitYear(n)
    ensures TextBefore(Render(m), Render(n)) <==> m < n
    ensures Render(m) == Render(n) <==> m == n
  {
    RenderIsText(m);
    RenderIsText(n);
    FieldsFit(m);
    FieldsFit(n);
    TextOrder(Fields(m), Fields(n), LAYOUT);
    TextOrder(Fields(n), Fields(m), LAYOUT);
    if m < n {
      EarlierFields(m, n);
      FieldsIrreflexive(Fields(m), Fields(n));
    } else if n < m {
      EarlierFields(n, m);
      FieldsIrreflexive(Fields(n), Fields(m));
    } else {
      TextIrreflexive(Render(m));
    }
  }

  lemma {:induction false} TextIrreflexive(s: string)
    ensures !TextBefore(s, s)
  {
    if s == [] {
    } else {
      TextIrreflexive(s[1..]);
    }
  }

  predicate AllDigits(s: string) { forall i :: 0 <= i < |s| ==> '0' <= s[i] <= '9' }

  function Value(s: string): nat
    requires AllDigits(s)
  {
    if s == [] then 0 else Value(s[..|s| - 1]) * 10 + (s[|s| - 1] - '0') as nat
  }

  lemma {:induction false} FixedReads(n: nat, w: nat)
    requires n < Pow10(w)
    ensures AllDigits(Fixed(n, w)) && Value(Fixed(n, w)) == n
  {
    if w == 0 {
    } else {
      FixedReads(n / 10, w - 1);
      var s := Fixed(n, w);
      assert s[..|s| - 1] == Fixed(n / 10, w - 1);
    }
  }

  /** A number of digits at `i`, with a value in range. */
  predicate Number(s: string, i: nat, j: nat, low: nat, high: nat) {
    i <= j <= |s| && AllDigits(s[i..j]) && low <= Value(s[i..j]) <= high
  }

  /** The date-time of section 5.6 of RFC 3339 with a fraction and a `Z`; days as in section 5.7. */
  predicate IsDateTime(s: string) {
    && |s| >= 22
    && Number(s, 0, 4, 0, 9999) && s[4] == '-'
    && Number(s, 5, 7, 1, 12) && s[7] == '-'
    && AllDigits(s[8..10]) && 1 <= Value(s[8..10]) <= DaysIn(Value(s[0..4]), Value(s[5..7])) && s[10] == 'T'
    && Number(s, 11, 13, 0, 23) && s[13] == ':'
    && Number(s, 14, 16, 0, 59) && s[16] == ':'
    && Number(s, 17, 19, 0, 60) && s[19] == '.'
    && AllDigits(s[20..|s| - 1]) && s[|s| - 1] == 'Z'
  }

  /** Where field `i` of a layout begins. */
  function Offset(layout: seq<Field>, i: nat): nat
    requires i <= |layout|
  {
    if i == 0 then 0 else Offset(layout, i - 1) + layout[i - 1].width + 1
  }

  lemma {:induction false} OffsetTail(layout: seq<Field>, i: nat)
    requires 0 < i <= |layout|
    ensures Offset(layout, i) == layout[0].width + 1 + Offset(layout[1..], i - 1)
  {
    if i > 1 {
      OffsetTail(layout, i - 1);
    }
  }

  ghost predicate SliceIs(s: string, o: nat, f: string, c: char) {
    o + |f| < |s| && s[o..o + |f|] == f && s[o + |f|] == c
  }

  lemma {:induction false} TextSlice(ns: seq<nat>, layout: seq<Field>, i: nat)
    requires |ns| == |layout| && i < |ns|
    ensures SliceIs(Text(ns, layout), Offset(layout, i), Fixed(ns[i], layout[i].width), layout[i].after)
  {
    var head, rest := Fixed(ns[0], layout[0].width), Text(ns[1..], layout[1..]);
    assert Text(ns, layout) == head + ([layout[0].after] + rest);
    if i == 0 {
      First(head, layout[0].after, rest);
    } else {
      OffsetTail(layout, i);
      TextSlice(ns[1..], layout[1..], i - 1);
      Later(head, layout[0].after, rest, Offset(layout[1..], i - 1), Fixed(ns[i], layout[i].width), layout[i].after);
    }
  }

  lemma First(f: string, c: char, rest: string)
    ensures SliceIs(f + ([c] + rest), 0, f, c)
  {
  }

  lemma Later(f: string, c: char, rest: string, o: nat, g: string, d: char)
    requires SliceIs(rest, o, g, d)
    ensures SliceIs(f + ([c] + rest), |f| + 1 + o, g, d)
  {
    Shifted(f, c, rest, o, |g|);
  }

  lemma Shifted(f: string, c: char, rest: string, o: nat, w: nat)
    requires o + w < |rest|
    ensures
      var s, p := f + ([c] + rest), |f| + 1 + o;
      s[p..p + w] == rest[o..o + w] && s[p + w] == rest[o + w]
  {
  }

  lemma {:induction false} TextLength(ns: seq<nat>, layout: seq<Field>)
    requires |ns| == |layout|
    ensures |Text(ns, layout)| == Offset(layout, |layout|)
  {
    if ns == [] {
    } else {
      OffsetTail(layout, |layout|);
      TextLength(ns[1..], layout[1..]);
    }
  }

  lemma Offsets()
    ensures Offset(LAYOUT, 0) == 0 && Offset(LAYOUT, 1) == 5 && Offset(LAYOUT, 2) == 8 && Offset(LAYOUT, 3) == 11
    ensures Offset(LAYOUT, 4) == 14 && Offset(LAYOUT, 5) == 17 && Offset(LAYOUT, 6) == 20 && Offset(LAYOUT, 7) == 24
  {
  }

  lemma Slices(n: seq<nat>, s: string)
    requires |n| == 7 && s == Text(n, LAYOUT)
    ensures |s| == 24
    ensures s[0..4] == Fixed(n[0], 4) && s[5..7] == Fixed(n[1], 2) && s[8..10] == Fixed(n[2], 2)
    ensures s[11..13] == Fixed(n[3], 2) && s[14..16] == Fixed(n[4], 2) && s[17..19] == Fixed(n[5], 2)
    ensures s[20..23] == Fixed(n[6], 3)
    ensures s[4] == '-' && s[7] == '-' && s[10] == 'T' && s[13] == ':' && s[16] == ':' && s[19] == '.' && s[23] == 'Z'
  {
    Offsets();
    TextLength(n, LAYOUT);
    TextSlice(n, LAYOUT, 0);
    TextSlice(n, LAYOUT, 1);
    TextSlice(n, LAYOUT, 2);
    TextSlice(n, LAYOUT, 3);
    TextSlice(n, LAYOUT, 4);
    TextSlice(n, LAYOUT, 5);
    TextSlice(n, LAYOUT, 6);
  }

  lemma RenderedFields(millis: int)
    requires FourDigitYear(millis)
    ensures IsDateTime(Render(millis))
    ensures
      var s, d, t := Render(millis), Counted(Days(millis)), MillisOfDay(millis);
      && |s| == 24
      && Value(s[0..4]) == d.year && Value(s[5..7]) == d.month && Value(s[8..10]) == d.day
      && AllDigits(s[20..23])
      && t == Value(s[11..13]) * 3_600_000 + Value(s[14..16]) * 60_000 + Value(s[17..19]) * 1_000 + Value(s[20..23])
  {
    var n, s := Fields(millis), Render(millis);
    RenderIsText(millis);
    Slices(n, s);
    CountedStep(Days(millis));
    FieldsFit(millis);
    Powers();
    ClockReads(MillisOfDay(millis));
    FixedReads(n[0], 4);
    FixedReads(n[1], 2);
    FixedReads(n[2], 2);
    FixedReads(n[3], 2);
    FixedReads(n[4], 2);
    FixedReads(n[5], 2);
    FixedReads(n[6], 3);
  }

  /** The instant a rendered text names, by the calendar. */
  function Instant(s: string): int
    requires IsDateTime(s) && |s| == 24
  {
    DaysFromCivil(Date(Value(s[0..4]), Value(s[5..7]), Value(s[8..10]))) * DAY_MILLIS
    + Value(s[11..13]) * 3_600_000 + Value(s[14..16]) * 60_000 + Value(s[17..19]) * 1_000 + Value(s[20..23])
  }

  /** Reading a rendered instant gives the instant. */
  lemma RenderedReadsBack(millis: int)
    requires FourDigitYear(millis)
    ensures IsDateTime(Render(millis)) && |Render(millis)| == 24
    ensures Instant(Render(millis)) == millis
  {
    RenderedFields(millis);
    CivilIsCounted(Days(millis));
    DaysRecovered(Days(millis));
    DaysRoundDown(millis);
  }

  lemma {:induction false} ZerosKeep(s: string, w: nat)
    ensures AllDigits(s) ==> AllDigits(Zeros(s, w))
    ensures |Zeros(s, w)| >= |s|
    decreases w - |s|
  {
    if |s| < w {
      ZerosKeep("0" + s, w);
    }
  }

  lemma {:induction false} DecimalDigits(n: nat, w: nat)
    ensures AllDigits(Decimal(n))
    ensures n >= Pow10(w) ==> |Decimal(n)| > w
  {
    if n >= 10 {
      DecimalDigits(n / 10, if w > 0 then w - 1 else 0);
    }
  }

  /** What is rendered is an RFC 3339 date-time exactly when the year has four digits. */
  lemma RenderedGrammar(millis: int)
    ensures IsDateTime(Render(millis)) <==> FourDigitYear(millis)
  {
    CivilIsCounted(Days(millis));
    var y, s := Counted(Days(millis)).year, Render(millis);
    if FourDigitYear(millis) {
      RenderedFields(millis);
    } else if y < 0 {
      assert s[0] == '-';
      assert s[0..4][0] == '-';
    } else {
      Powers();
      DecimalDigits(y, 4);
      ZerosKeep(Decimal(y), 4);
      assert s[4] == Padded(y, 4)[4];
    }
  }
}
