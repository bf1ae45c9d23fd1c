/**
  The timestamps of the two-host record against the calendar and the clock: a text passes
  exactly when it prints a real moment and is not before the boundary in text order.
 */
module Calendar {
  import opened Texts
  import opened RedactionPolicy

  // ----- the length of a month -----

  /** Days since a fixed day, counted in years that begin in March: 153 days to every five months. */
  function DayNumber(year: nat, month: nat, day: nat): int
    requires year > 0 && 1 <= month <= 12
  {
    var y := if month <= 2 then year - 1 else year;
    var m := if month <= 2 then month + 9 else month - 3;
    365 * y + y / 4 - y / 100 + y / 400 + (153 * m + 2) / 5 + day
  }

  lemma LeapSteps(y: nat)
    requires y > 0
    ensures y / 4 - (y - 1) / 4 == if y % 4 == 0 then 1 else 0
    ensures y / 100 - (y - 1) / 100 == if y % 100 == 0 then 1 else 0
    ensures y / 400 - (y - 1) / 400 == if y % 400 == 0 then 1 else 0
    ensures (y % 400 == 0 ==> y % 100 == 0) && (y % 100 == 0 ==> y % 4 == 0)
  {
  }

  /** A month is as long as the way from its first day to the first of the next, in every year. */
  lemma DaysInExactly(year: nat, month: nat)
    requires year > 0 && 1 <= month <= 12
    ensures DayNumber(year, month, 1) + DaysIn(year, month) ==
      if month == 12 then DayNumber(year + 1, 1, 1) else DayNumber(year, month + 1, 1)
  {
    if month == 2 {
      LeapSteps(year);
      assert DayNumber(year, 3, 1) == 365 * year + year / 4 - year / 100 + year / 400 + 1;
      assert DayNumber(year, 2, 1) == 365 * (year - 1) + (year - 1) / 4 - (year - 1) / 100 + (year - 1) / 400 + 338;
    } else {
      var m := if month == 1 then 10 else month - 3;
      assert (153 * (m + 1) + 2) / 5 - (153 * m + 2) / 5 == DaysIn(year, month);
    }
  }

  // ----- moments and their text -----

  datatype Moment = Moment(year: nat, month: nat, day: nat, hour: nat, minute: nat, second: nat)

  function NextMonth(year: nat, month: nat): int
    requires year > 0 && 1 <= month <= 12
  {
    if month == 12 then DayNumber(year + 1, 1, 1) else DayNumber(year, month + 1, 1)
  }

  /** A moment of this century: the day comes before the next month begins. */
  predicate IsReal(c: Moment) {
    && 2000 <= c.year < 2100 && 1 <= c.month <= 12
    && 1 <= c.day && DayNumber(c.year, c.month, c.day) < NextMonth(c.year, c.month)
    && c.hour < 24 && c.minute < 60 && c.second < 60
  }

  function Seconds(c: Moment): int
    requires IsReal(c)
  {
    ((DayNumber(c.year, c.month, c.day) * 24 + c.hour) * 60 + c.minute) * 60 + c.second
  }

  function Two(n: nat): Text
    requires n < 100
  {
    ['0' as int + n / 10, '0' as int + n % 10]
  }

  /** 20YY-MM-DDThh:mm:ssZ. */
  function Stamp(c: Moment): Text
    requires IsReal(c)
  {
    RealFields(c);
    Two(20) + (Two(c.year - 2000) + (['-' as int] + (Two(c.month) + (['-' as int] + (Two(c.day) + (['T' as int] + Clock(c)))))))
  }

  function Clock(c: Moment): Text
    requires IsReal(c)
  {
    Two(c.hour) + ([':' as int] + (Two(c.minute) + ([':' as int] + (Two(c.second) + ['Z' as int]))))
  }

  lemma RealFields(c: Moment)
    requires IsReal(c)
    ensures 1 <= c.day <= DaysIn(c.year, c.month) <= 31
  {
    hide DayNumber;
    DaysInExactly(c.year, c.month);
    DayCounts(c.year, c.month, c.day);
  }

  lemma DayCounts(year: nat, month: nat, day: nat)
    requires year > 0 && 1 <= month <= 12
    ensures DayNumber(year, month, day) == DayNumber(year, month, 1) + day - 1
  {
  }

  // ----- text order is time order -----

  lemma {:induction false} BeforeParts(a: Text, b: Text, x: Text, y: Text)
    requires |a| == |b|
    ensures Before(a + x, b + y) <==> Before(a, b) || (a == b && Before(x, y))
  {
    if a == [] {
      assert a + x == x && b + y == y;
    } else {
      assert (a + x)[1..] == a[1..] + x && (b + y)[1..] == b[1..] + y;
      BeforeParts(a[1..], b[1..], x, y);
      assert a == [a[0]] + a[1..] && b == [b[0]] + b[1..];
    }
  }

  lemma BeforeSame(a: Text, x: Text, y: Text)
    ensures Before(a + x, a + y) <==> Before(x, y)
  {
    BeforeParts(a, a, x, y);
    BeforeIrreflexive(a);
  }

  lemma BeforeTwo(m: nat, n: nat, x: Text, y: Text)
    requires m < 100 && n < 100
    ensures Before(Two(m) + x, Two(n) + y) <==> m < n || (m == n && Before(x, y))
  {
    BeforeParts(Two(m), Two(n), x, y);
    TwoOrder(m, n);
  }

  lemma TwoOrder(m: nat, n: nat)
    requires m < 100 && n < 100
    ensures (Before(Two(m), Two(n)) <==> m < n) && (Two(m) == Two(n) <==> m == n)
  {
    var a, b := Two(m), Two(n);
    var a1, b1 := a[1..], b[1..];
    assert !Before(a1[1..], b1[1..]);
    assert Before(a1, b1) <==> a[1] < b[1];
    assert Before(a, b) <==> a[0] < b[0] || (a[0] == b[0] && a[1] < b[1]);
    assert a == b ==> a[0] == b[0] && a[1] == b[1];
  }

  /** Numbers in order of weight. */
  predicate Earlier(c: Moment, e: Moment) {
    c.year < e.year || (c.year == e.year && (c.month < e.month || (c.month == e.month && (c.day < e.day || (c.day == e.day && EarlierClock(c, e))))))
  }

  predicate EarlierClock(c: Moment, e: Moment) {
    c.hour < e.hour || (c.hour == e.hour && (c.minute < e.minute || (c.minute == e.minute && c.second < e.second)))
  }

  lemma ClockOrder(c: Moment, e: Moment)
    requires IsReal(c) && IsReal(e)
    ensures Before(Clock(c), Clock(e)) <==> EarlierClock(c, e)
  {
    hide DayNumber;
    hide Before;
    hide Two;
    var z: Text := ['Z' as int];
    var cs, es := Two(c.second) + z, Two(e.second) + z;
    BeforeIrreflexive(z);
    BeforeTwo(c.second, e.second, z, z);
    BeforeSame([':' as int], cs, es);
    BeforeTwo(c.minute, e.minute, [':' as int] + cs, [':' as int] + es);
    BeforeSame([':' as int], Two(c.minute) + ([':' as int] + cs), Two(e.minute) + ([':' as int] + es));
    BeforeTwo(c.hour, e.hour, [':' as int] + (Two(c.minute) + ([':' as int] + cs)), [':' as int] + (Two(e.minute) + ([':' as int] + es)));
  }

  lemma StampOrder(c: Moment, e: Moment)
    requires IsReal(c) && IsReal(e)
    ensures Before(Stamp(c), Stamp(e)) <==> Earlier(c, e)
  {
    hide DayNumber;
    hide Before;
    hide Two;
    hide Clock;
    RealFields(c);
    RealFields(e);
    ClockOrder(c, e);
    hide IsReal;
    hide EarlierClock;
    var cd, ed := ['T' as int] + Clock(c), ['T' as int] + Clock(e);
    BeforeSame(['T' as int], Clock(c), Clock(e));
    BeforeTwo(c.day, e.day, cd, ed);
    var cm, em := ['-' as int] + (Two(c.day) + cd), ['-' as int] + (Two(e.day) + ed);
    BeforeSame(['-' as int], Two(c.day) + cd, Two(e.day) + ed);
    BeforeTwo(c.month, e.month, cm, em);
    var cy, ey := ['-' as int] + (Two(c.month) + cm), ['-' as int] + (Two(e.month) + em);
    BeforeSame(['-' as int], Two(c.month) + cm, Two(e.month) + em);
    BeforeTwo(c.year - 2000, e.year - 2000, cy, ey);
    BeforeSame(Two(20), Two(c.year - 2000) + cy, Two(e.year - 2000) + ey);
  }

  // ----- weight is time -----

  /** The first days of months are in order. */
  lemma {:induction false} MonthsOrdered(y: nat, m: nat, y': nat, m': nat)
    requires 0 < y <= y' && 1 <= m <= 12 && 1 <= m' <= 12 && (y < y' || m < m')
    ensures NextMonth(y, m) <= DayNumber(y', m', 1)
    decreases y' - y, 12 - m
  {
    hide DayNumber;
    var yn, mn := if m == 12 then y + 1 else y, if m == 12 then 1 else m + 1;
    if yn != y' || mn != m' {
      DaysInExactly(yn, mn);
      MonthsOrdered(yn, mn, y', m');
    }
  }

  lemma EarlierDay(c: Moment, e: Moment)
    requires IsReal(c) && IsReal(e) && (c.year < e.year || (c.year == e.year && (c.month < e.month || (c.month == e.month && c.day < e.day))))
    ensures DayNumber(c.year, c.month, c.day) < DayNumber(e.year, e.month, e.day)
  {
    hide DayNumber;
    DayCounts(c.year, c.month, c.day);
    DayCounts(e.year, e.month, e.day);
    if c.year < e.year || c.month < e.month {
      MonthsOrdered(c.year, c.month, e.year, e.month);
    }
  }

  lemma EarlierIsSooner(c: Moment, e: Moment)
    requires IsReal(c) && IsReal(e) && Earlier(c, e)
    ensures Seconds(c) < Seconds(e)
  {
    hide DayNumber;
    if c.year != e.year || c.month != e.month || c.day != e.day {
      EarlierDay(c, e);
    }
  }

  /** Two stamps are in text order exactly when their moments are in order of time. */
  lemma TextOrderIsTimeOrder(c: Moment, e: Moment)
    requires IsReal(c) && IsReal(e)
    ensures Before(Stamp(c), Stamp(e)) <==> Seconds(c) < Seconds(e)
  {
    hide Seconds;
    hide Stamp;
    hide IsReal;
    StampOrder(c, e);
    if Earlier(c, e) {
      EarlierIsSooner(c, e);
    } else if Earlier(e, c) {
      EarlierIsSooner(e, c);
    }
  }

  // ----- the record's timestamps -----

  /** The text prints a real moment. */
  ghost predicate IsStamp(t: Text) {
    exists c :: IsReal(c) && t == Stamp(c)
  }

  const BOUNDARY: Moment := Moment(2026, 8, 30, 0, 0, 0)

  lemma BoundaryIsReal()
    ensures IsReal(BOUNDARY)
  {
    DaysInExactly(2026, 8);
    DayCounts(2026, 8, 30);
  }

  lemma BoundaryText()
    ensures IsReal(BOUNDARY) && Stamp(BOUNDARY) == U("2026-08-30T00:00:00Z")
  {
    hide DayNumber;
    BoundaryIsReal();
    hide IsReal;
    assert Two(20) == U("20") && Two(26) == U("26") && Two(8) == U("08") && Two(30) == U("30") && Two(0) == U("00");
    BoundaryPieces();
  }

  lemma BoundaryPieces()
    ensures U("2026-08-30T00:00:00Z") ==
      U("20") + (U("26") + (['-' as int] + (U("08") + (['-' as int] + (U("30") + (['T' as int] +
        (U("00") + ([':' as int] + (U("00") + ([':' as int] + (U("00") + ['Z' as int])))))))))))
  {
  }

  /** The numbers a timestamp shows. */
  function Shown(t: Text): Moment
    requires TimestampShape(t)
  {
    Moment(2000 + TwoDigits(t, 2), TwoDigits(t, 5), TwoDigits(t, 8), TwoDigits(t, 11), TwoDigits(t, 14), TwoDigits(t, 17))
  }

  lemma TwoShown(t: Text, i: nat)
    requires i + 2 <= |t| && IsDigit(t[i]) && IsDigit(t[i + 1])
    ensures t[i..i + 2] == Two(TwoDigits(t, i))
  {
  }

  lemma StampCharacters(c: Moment, i: nat)
    requires IsReal(c) && i < 20
    ensures |Stamp(c)| == 20
    ensures Stamp(c)[i] == (if i < 2 then Two(20)[i] else if i < 4 then Two(c.year - 2000)[i - 2] else if i == 4 then '-' as int
      else if i < 7 then (RealFields(c); Two(c.month)[i - 5]) else if i == 7 then '-' as int
      else if i < 10 then (RealFields(c); Two(c.day)[i - 8]) else if i == 10 then 'T' as int
      else if i < 13 then Two(c.hour)[i - 11] else if i == 13 then ':' as int
      else if i < 16 then Two(c.minute)[i - 14] else if i == 16 then ':' as int
      else if i < 19 then Two(c.second)[i - 17] else 'Z' as int)
  {
    hide DayNumber;
    RealFields(c);
    hide IsReal;
  }

  lemma StampIsShaped(c: Moment)
    requires IsReal(c)
    ensures TimestampShape(Stamp(c)) && Shown(Stamp(c)) == c
  {
    hide DayNumber;
    RealFields(c);
    var t := Stamp(c);
    StampCharacters(c, 0);
    StampCharacters(c, 1);
    StampCharacters(c, 2);
    StampCharacters(c, 3);
    StampCharacters(c, 4);
    StampCharacters(c, 5);
    StampCharacters(c, 6);
    StampCharacters(c, 7);
    StampCharacters(c, 8);
    StampCharacters(c, 9);
    StampCharacters(c, 10);
    StampCharacters(c, 11);
    StampCharacters(c, 12);
    StampCharacters(c, 13);
    StampCharacters(c, 14);
    StampCharacters(c, 15);
    StampCharacters(c, 16);
    StampCharacters(c, 17);
    StampCharacters(c, 18);
    StampCharacters(c, 19);
    hide Stamp;
    hide IsReal;
  }

  lemma Cut(t: Text, i: nat, j: nat)
    requires i <= j <= |t|
    ensures t[i..] == t[i..j] + t[j..]
  {
  }

  lemma Slices(t: Text)
    requires |t| == 20
    ensures t == t[0..2] + (t[2..4] + (t[4..5] + (t[5..7] + (t[7..8] + (t[8..10] + (t[10..11] +
      (t[11..13] + (t[13..14] + (t[14..16] + (t[16..17] + (t[17..19] + t[19..20])))))))))))
  {
    hide *;
    assert t[0..] == t && t[19..] == t[19..20];
    Cut(t, 0, 2);
    Cut(t, 2, 4);
    Cut(t, 4, 5);
    Cut(t, 5, 7);
    Cut(t, 7, 8);
    Cut(t, 8, 10);
    Cut(t, 10, 11);
    Cut(t, 11, 13);
    Cut(t, 13, 14);
    Cut(t, 14, 16);
    Cut(t, 16, 17);
    Cut(t, 17, 19);
  }

  lemma OneSlice(t: Text, i: nat)
    requires i < |t|
    ensures t[i..i + 1] == [t[i]]
  {
  }

  lemma ShapeNumbers(t: Text)
    requires TimestampShape(t)
    ensures var c := Shown(t);
      && t[0..2] == Two(20) && t[2..4] == Two(c.year - 2000) && t[5..7] == Two(c.month) && t[8..10] == Two(c.day)
      && t[11..13] == Two(c.hour) && t[14..16] == Two(c.minute) && t[17..19] == Two(c.second)
  {
    TwoShown(t, 2);
    TwoShown(t, 5);
    TwoShown(t, 8);
    TwoShown(t, 11);
    TwoShown(t, 14);
    TwoShown(t, 17);
    assert t[0..2] == ['2' as int, '0' as int];
  }

  lemma ShapeSigns(t: Text)
    requires TimestampShape(t)
    ensures t[4..5] == t[7..8] == ['-' as int] && t[10..11] == ['T' as int] && t[13..14] == t[16..17] == [':' as int]
    ensures t[19..20] == ['Z' as int]
  {
    OneSlice(t, 4);
    OneSlice(t, 7);
    OneSlice(t, 10);
    OneSlice(t, 13);
    OneSlice(t, 16);
    OneSlice(t, 19);
  }

  lemma ShapeIsStamp(t: Text)
    requires TimestampShape(t)
    requires var c := Shown(t); 1 <= c.month <= 12 && 1 <= c.day <= DaysIn(c.year, c.month)
    ensures IsReal(Shown(t)) && t == Stamp(Shown(t))
  {
    hide DayNumber;
    hide Two;
    var c := Shown(t);
    DaysInExactly(c.year, c.month);
    DayCounts(c.year, c.month, c.day);
    assert IsReal(c);
    Slices(t);
    ShapeNumbers(t);
    ShapeSigns(t);
    hide IsReal;
    hide TimestampShape;
  }

  /** A text is an accepted timestamp exactly when it prints a real moment and is not before the boundary. */
  lemma ObservationExactly(t: Text)
    ensures Observation(t) <==> IsStamp(t) && !Before(t, U("2026-08-30T00:00:00Z"))
  {
    hide Before;
    hide DayNumber;
    hide U;
    hide Stamp;
    hide TimestampShape;
    BoundaryText();
    if Observation(t) {
      ShapeIsStamp(t);
      StampOrder(Shown(t), BOUNDARY);
    }
    if IsStamp(t) && !Before(t, U("2026-08-30T00:00:00Z")) {
      var c :| IsReal(c) && t == Stamp(c);
      StampIsShaped(c);
      RealFields(c);
      StampOrder(c, BOUNDARY);
    }
  }
}
