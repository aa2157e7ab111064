/**
 The civil date of a second count: a closed form against the calendar counted day by
 day, and the text of section 5.6 of RFC 3339, which reads back to the same second.
 */
module CivilDate {
  import opened Protocol

  const DAY_SECONDS: int := 86_400

  datatype Date = Date(year: int, month: int, day: int)

  // ---------------------------------------------------------------------
  // The closed form

  /** The year of an era of 400 years that a day of it is in. Eras and years begin on the first of March. */
  function YearOfEra(doe: int): int {
    (doe - doe / 1460 + doe / 36_524 - doe / 146_096) / 365
  }

  /** The day of an era on which a year of it begins. */
  function EraYearStart(yoe: int): int {
    365 * yoe + yoe / 4 - yoe / 100
  }

  function DayOfYear(doe: int, yoe: int): int {
    doe - EraYearStart(yoe)
  }

  /** The date of the doy-th day, from 0, of the year that begins on the first of March. */
  function InMarchYear(year: int, doy: int): Date {
    var mp := (5 * doy + 2) / 153;
    var day := doy - (153 * mp + 2) / 5 + 1;
    var month := if mp < 10 then mp + 3 else mp - 9;
    Date(year + if month <= 2 then 1 else 0, month, day)
  }

  /** The year that begins on the first of March, and the day of it, of a day count from 1 January 1970. */
  function MarchDay(days: int): (int, int) {
    var z := days + 719_468;
    var era, doe := z / 146_097, z % 146_097;
    var yoe := YearOfEra(doe);
    (yoe + era * 400, DayOfYear(doe, yoe))
  }

  /** The date of a day count from 1 January 1970. */
  function Civil(days: int): Date {
    InMarchYear(MarchDay(days).0, MarchDay(days).1)
  }

  // ---------------------------------------------------------------------
  // The calendar

  predicate IsLeap(year: int) {
    year % 4 == 0 && (year % 100 != 0 || year % 400 == 0)
  }

  function DaysIn(year: int, month: int): int {
    if month == 2 then if IsLeap(year) then 29 else 28
    else if month in {4, 6, 9, 11} then 30
    else 31
  }

  predicate IsDate(date: Date) {
    1 <= date.month <= 12 && 1 <= date.day <= DaysIn(date.year, date.month)
  }

  function NextDate(date: Date): Date {
    if date.day < DaysIn(date.year, date.month) then date.(day := date.day + 1)
    else if date.month < 12 then Date(date.year, date.month + 1, 1)
    else Date(date.year + 1, 1, 1)
  }

  const EPOCH: Date := Date(1970, 1, 1)

  // ---------------------------------------------------------------------
  // The closed form steps as the calendar does

  /** The length of the year-th year of an era, which ends with February of the next. */
  function EraYearLength(yoe: int): int {
    if IsLeap(yoe + 1) then 366 else 365
  }

  /** A year of an era as its century, its leap cycle and the year of that. */
  lemma YearParts(yoe: int) returns (c: int, q: int, k: int)
    requires 0 <= yoe < 400
    ensures 0 <= c <= 3 && 0 <= q <= 24 && 0 <= k <= 3
    ensures yoe == 100 * c + 4 * q + k && EraYearStart(yoe) == 36_524 * c + 1_461 * q + 365 * k
  {
    c, q, k := yoe / 100, yoe % 100 / 4, yoe % 4;
    assert yoe == 100 * c + 4 * q + k;
    assert yoe / 4 == 25 * c + q;
  }

  /** The quotients of the closed form, unless the day is the era's last. */
  lemma QuotientsOf(c: int, q: int, k: int, doy: int, doe: int)
    requires 0 <= c <= 3 && 0 <= q <= 24 && 0 <= k <= 3 && 0 <= doy < 366
    requires doy == 365 ==> k == 3 && (q < 24 || c == 3)
    requires doe == 36_524 * c + 1_461 * q + 365 * k + doy && doe < 146_096
    ensures doe / 36_524 == c && doe / 146_096 == 0
    ensures doe / 1460 == 25 * c + q + if 24 * c + q + 365 * k + doy >= 1460 then 1 else 0
  {
  }

  /** The closed form finds the year, for every year of an era and day of it. */
  lemma YearIsFound(yoe: int, doy: int)
    requires 0 <= yoe < 400 && 0 <= doy < EraYearLength(yoe)
    ensures YearOfEra(EraYearStart(yoe) + doy) == yoe
  {
    var c, q, k := YearParts(yoe);
    var doe := EraYearStart(yoe) + doy;
    LeapsOfEra(c, q, k);
    if doe == 146_096 {
      assert yoe == 399;
    } else {
      QuotientsOf(c, q, k, doy, doe);
      NumeratorFits(c, q, k, doy);
    }
  }

  lemma NumeratorFits(c: int, q: int, k: int, doy: int)
    requires 0 <= c <= 3 && 0 <= q <= 24 && 0 <= k <= 3 && 0 <= doy < 366
    requires doy == 365 ==> k == 3 && (q < 24 || c == 3)
    requires 36_524 * c + 1_461 * q + 365 * k + doy < 146_096
    ensures var doe := 36_524 * c + 1_461 * q + 365 * k + doy;
            var leaps := 25 * c + q + if 24 * c + q + 365 * k + doy >= 1460 then 1 else 0;
            (doe - leaps + c) / 365 == 100 * c + 4 * q + k
  {
  }

  lemma LeapsOfEra(c: int, q: int, k: int)
    requires 0 <= c <= 3 && 0 <= q <= 24 && 0 <= k <= 3
    ensures IsLeap(100 * c + 4 * q + k + 1) <==> k == 3 && (q < 24 || c == 3)
  {
    var year := 100 * c + 4 * q + k + 1;
    assert year % 4 == (k + 1) % 4;
    if k == 3 {
      assert year == 100 * c + 4 * (q + 1);
      assert q == 24 ==> year == 100 * (c + 1);
      assert q < 24 ==> year % 100 == 4 * (q + 1);
    }
  }

  lemma YearsOfEraMeet(yoe: int)
    requires 0 <= yoe < 400
    ensures EraYearStart(yoe) + EraYearLength(yoe) == if yoe < 399 then EraYearStart(yoe + 1) else 146_097
  {
    var c, q, k := YearParts(yoe);
    LeapsOfEra(c, q, k);
    if k == 3 {
      if q < 24 {
        assert (yoe + 1) / 4 == 25 * c + q + 1;
        assert (yoe + 1) / 100 == c;
      } else {
        assert (yoe + 1) / 4 == 25 * c + 25;
        assert (yoe + 1) / 100 == c + 1;
      }
    } else {
      assert (yoe + 1) / 4 == 25 * c + q;
      assert (yoe + 1) / 100 == c;
    }
  }

  /** Every day of an era is a day of one of its years. */
  lemma {:induction false} DayIsInSomeYear(doe: int, from: int) returns (yoe: int, doy: int)
    requires 0 <= from < 400 && EraYearStart(from) <= doe < 146_097
    ensures 0 <= yoe < 400 && 0 <= doy < EraYearLength(yoe) && doe == EraYearStart(yoe) + doy
    decreases 400 - from
  {
    YearsOfEraMeet(from);
    if doe < EraYearStart(from) + EraYearLength(from) {
      yoe, doy := from, doe - EraYearStart(from);
    } else {
      yoe, doy := DayIsInSomeYear(doe, from + 1);
    }
  }

  /** A day as its era, the year of it and the day of that; and the day after it. */
  datatype EraDay = EraDay(era: int, yoe: int, doy: int) {
    predicate Valid() {
      0 <= yoe < 400 && 0 <= doy < EraYearLength(yoe)
    }

    function Days(): int {
      146_097 * era + EraYearStart(yoe) + doy - 719_468
    }

    function MarchYear(): int {
      yoe + era * 400
    }

    function Next(): EraDay {
      if doy + 1 < EraYearLength(yoe) then this.(doy := doy + 1)
      else if yoe < 399 then EraDay(era, yoe + 1, 0)
      else EraDay(era + 1, 0, 0)
    }
  }

  lemma EraOf(z: int, era: int, doe: int)
    requires z == 146_097 * era + doe && 0 <= doe < 146_097
    ensures z / 146_097 == era && z % 146_097 == doe
  {
  }

  lemma MarchDayWith(days: int, z: int, era: int, doe: int, yoe: int, doy: int)
    requires z == days + 719_468 && z / 146_097 == era && z % 146_097 == doe
    requires YearOfEra(doe) == yoe && DayOfYear(doe, yoe) == doy
    ensures MarchDay(days) == (yoe + era * 400, doy)
  {
  }

  lemma DayIsFound(days: int, era: int, doe: int, yoe: int, doy: int)
    requires days + 719_468 == 146_097 * era + doe && doe == EraYearStart(yoe) + doy
    requires 0 <= yoe < 400 && 0 <= doy < EraYearLength(yoe)
    ensures MarchDay(days) == (yoe + era * 400, doy)
  {
    var z := days + 719_468;
    assert z / 146_097 == era && z % 146_097 == doe by {
      EraYearsFit(yoe);
      EraOf(z, era, doe);
    }
    assert YearOfEra(doe) == yoe by {
      YearIsFound(yoe, doy);
    }
    MarchDayWith(days, z, era, doe, yoe, doy);
  }

  /** The closed form finds each day of each era. */
  lemma MarchDayIs(day: EraDay, days: int)
    requires day.Valid() && day.Days() == days
    ensures MarchDay(days) == (day.MarchYear(), day.doy)
  {
    DayIsFound(days, day.era, EraYearStart(day.yoe) + day.doy, day.yoe, day.doy);
  }

  lemma EraYearsFit(yoe: int)
    requires 0 <= yoe < 400
    ensures 0 <= EraYearStart(yoe) && EraYearStart(yoe) + EraYearLength(yoe) <= 146_097
  {
    var c, q, k := YearParts(yoe);
    LeapsOfEra(c, q, k);
  }

  lemma RemainderBy4(year: int, k: int)
    ensures (year + 4 * k) % 4 == year % 4
  {
  }

  lemma RemainderBy100(year: int, k: int)
    ensures (year + 100 * k) % 100 == year % 100
  {
  }

  lemma RemainderBy400(year: int, k: int)
    ensures (year + 400 * k) % 400 == year % 400
  {
  }

  lemma RemaindersRecur(year: int, era: int)
    ensures (year + era * 400) % 4 == year % 4
    ensures (year + era * 400) % 100 == year % 100
    ensures (year + era * 400) % 400 == year % 400
  {
    RemainderBy4(year, 100 * era);
    RemainderBy100(year, 4 * era);
    RemainderBy400(year, era);
  }

  /** Leap years recur every era. */
  lemma LeapsRecur(year: int, era: int)
    ensures IsLeap(year + era * 400) <==> IsLeap(year)
  {
    RemaindersRecur(year, era);
  }

  /** The first day of the mp-th month from March, counted from the first of March. */
  function MonthStart(mp: int): int {
    (153 * mp + 2) / 5
  }

  /** The length of the mp-th month from March, in the year that begins then. */
  function MarchMonthLength(year: int, mp: int): int {
    if mp < 11 then MonthStart(mp + 1) - MonthStart(mp) else if IsLeap(year + 1) then 29 else 28
  }

  lemma MonthsAreTheCalendars(year: int, mp: int)
    requires 0 <= mp <= 11
    ensures var month := if mp < 10 then mp + 3 else mp - 9;
            && 1 <= month <= 12
            && DaysIn(year + if month <= 2 then 1 else 0, month) == MarchMonthLength(year, mp)
  {
    assert MonthStart(0) == 0 && MonthStart(1) == 31 && MonthStart(2) == 61 && MonthStart(3) == 92;
    assert MonthStart(4) == 122 && MonthStart(5) == 153 && MonthStart(6) == 184 && MonthStart(7) == 214;
    assert MonthStart(8) == 245 && MonthStart(9) == 275 && MonthStart(10) == 306 && MonthStart(11) == 337;
  }

  /** The closed form finds the month. */
  lemma MonthIsFound(mp: int, day: int)
    requires 0 <= mp <= 11 && 1 <= day <= if mp < 11 then MonthStart(mp + 1) - MonthStart(mp) else 29
    ensures (5 * (MonthStart(mp) + day - 1) + 2) / 153 == mp
  {
  }

  function MarchDate(year: int, mp: int, day: int): Date {
    var month := if mp < 10 then mp + 3 else mp - 9;
    Date(year + if month <= 2 then 1 else 0, month, day)
  }

  lemma InMarchYearIs(year: int, mp: int, day: int)
    requires 0 <= mp <= 11 && 1 <= day <= MarchMonthLength(year, mp)
    ensures InMarchYear(year, MonthStart(mp) + day - 1) == MarchDate(year, mp, day)
    ensures IsDate(MarchDate(year, mp, day))
  {
    MonthIsFound(mp, day);
    MonthsAreTheCalendars(year, mp);
  }

  lemma DayHasMonth(year: int, doy: int, length: int) returns (mp: int, day: int)
    requires length == if IsLeap(year + 1) then 366 else 365
    requires 0 <= doy < length
    ensures 0 <= mp <= 11 && 1 <= day <= MarchMonthLength(year, mp) && doy == MonthStart(mp) + day - 1
    ensures doy + 1 == length <==> mp == 11 && day == MarchMonthLength(year, mp)
  {
    mp := (5 * doy + 2) / 153;
    MonthOf(mp, doy);
    day := doy - MonthStart(mp) + 1;
    assert MonthStart(11) == 337;
  }

  /** The date in a March year is valid, and its next day is the calendar's. */
  lemma MarchYearSteps(year: int, doy: int, length: int)
    requires length == if IsLeap(year + 1) then 366 else 365
    requires 0 <= doy < length
    ensures IsDate(InMarchYear(year, doy))
    ensures doy + 1 < length ==> InMarchYear(year, doy + 1) == NextDate(InMarchYear(year, doy))
    ensures doy + 1 == length ==> InMarchYear(year + 1, 0) == NextDate(InMarchYear(year, doy))
  {
    var mp, day := DayHasMonth(year, doy, length);
    InMarchYearIs(year, mp, day);
    MonthsAreTheCalendars(year, mp);
    if day < MarchMonthLength(year, mp) {
      InMarchYearIs(year, mp, day + 1);
    } else if mp < 11 {
      MonthsAreTheCalendars(year, mp + 1);
      InMarchYearIs(year, mp + 1, 1);
    } else {
      assert MonthStart(0) == 0;
      MonthsAreTheCalendars(year + 1, 0);
      InMarchYearIs(year + 1, 0, 1);
    }
  }

  lemma MonthOf(mp: int, doy: int)
    requires mp == (5 * doy + 2) / 153 && 0 <= doy < 366
    ensures 0 <= mp <= 11 && MonthStart(mp) <= doy
    ensures mp < 11 ==> doy < MonthStart(mp + 1)
  {
  }

  lemma NextIsADayLater(day: EraDay)
    requires day.Valid()
    ensures var next := day.Next();
            && next.Valid() && next.Days() == day.Days() + 1
            && (next.MarchYear(), next.doy)
               == if day.doy + 1 < EraYearLength(day.yoe) then (day.MarchYear(), day.doy + 1)
                   else (day.MarchYear() + 1, 0)
  {
    YearsOfEraMeet(day.yoe);
    assert EraYearStart(0) == 0;
  }

  lemma DayOf(days: int) returns (day: EraDay)
    ensures day.Valid() && day.Days() == days
  {
    var z := days + 719_468;
    var yoe, doy := DayIsInSomeYear(z % 146_097, 0);
    day := EraDay(z / 146_097, yoe, doy);
  }

  /** From one day to the next, the March year and day step as their length allows. */
  lemma MarchDaySteps(days: int) returns (year: int, doy: int, length: int)
    ensures length == (if IsLeap(year + 1) then 366 else 365) && 0 <= doy < length
    ensures MarchDay(days) == (year, doy)
    ensures MarchDay(days + 1) == if doy + 1 < length then (year, doy + 1) else (year + 1, 0)
  {
    var day := DayOf(days);
    year, doy, length := day.MarchYear(), day.doy, EraYearLength(day.yoe);
    LeapsRecur(day.yoe + 1, day.era);
    NextIsADayLater(day);
    MarchDayIs(day, days);
    MarchDayIs(day.Next(), days + 1);
  }

  /** Each day the closed form steps to the calendar's next date. */
  lemma CivilSteps(days: int)
    ensures IsDate(Civil(days)) && Civil(days + 1) == NextDate(Civil(days))
  {
    var year, doy, length := MarchDaySteps(days);
    MarchYearSteps(year, doy, length);
    if doy + 1 < length {
      assert Civil(days + 1) == InMarchYear(year, doy + 1);
    } else {
      assert Civil(days + 1) == InMarchYear(year + 1, 0);
    }
  }

  /** It begins at 1 January 1970. */
  lemma CivilBegins()
    ensures Civil(0) == EPOCH
  {
    var day := EraDay(4, 369, 306);
    assert EraYearStart(369) == 134_774 && day.Days() == 0;
    MarchDayIs(day, 0);
    assert MonthStart(10) == 306;
    MonthsAreTheCalendars(1969, 10);
    InMarchYearIs(1969, 10, 1);
  }

  // ---------------------------------------------------------------------
  // The calendar counted from the epoch

  function PreviousDate(date: Date): Date {
    if date.day > 1 then date.(day := date.day - 1)
    else if date.month > 1 then Date(date.year, date.month - 1, DaysIn(date.year, date.month - 1))
    else Date(date.year - 1, 12, 31)
  }

  /** The date so many days after the epoch, counted one by one. */
  function DateAt(days: int): Date
    decreases if days < 0 then -days else days
  {
    if days == 0 then EPOCH
    else if days > 0 then NextDate(DateAt(days - 1))
    else PreviousDate(DateAt(days + 1))
  }

  lemma PreviousUndoesNext(date: Date)
    requires IsDate(date)
    ensures PreviousDate(NextDate(date)) == date
  {
  }

  /** Only one numbering of dates begins at the epoch and steps as the calendar does. */
  lemma {:induction false} OnlyOneCalendar(numbering: int -> Date, days: int)
    requires numbering(0) == EPOCH
    requires forall n :: IsDate(numbering(n)) && numbering(n + 1) == NextDate(numbering(n))
    ensures numbering(days) == DateAt(days)
    decreases if days < 0 then -days else days
  {
    if days > 0 {
      OnlyOneCalendar(numbering, days - 1);
      assert numbering(days - 1 + 1) == NextDate(numbering(days - 1));
    } else if days < 0 {
      OnlyOneCalendar(numbering, days + 1);
      PreviousUndoesNext(numbering(days));
    }
  }

  /** For every day count, the closed form is the date counted day by day from the epoch. */
  lemma CivilIsTheCalendar(days: int)
    ensures Civil(days) == DateAt(days) && IsDate(DateAt(days))
  {
    hide MarchDay;
    var numbering := (n: int) => Civil(n);
    forall n
      ensures IsDate(numbering(n)) && numbering(n + 1) == NextDate(numbering(n))
    {
      CivilSteps(n);
    }
    CivilBegins();
    OnlyOneCalendar(numbering, days);
  }

  function YearLength(year: int): int {
    if IsLeap(year) then 366 else 365
  }

  function DaysBeforeYear(year: int): int
    decreases if year < 1970 then 1970 - year else year - 1970
  {
    if year == 1970 then 0
    else if year > 1970 then DaysBeforeYear(year - 1) + YearLength(year - 1)
    else DaysBeforeYear(year + 1) - YearLength(year)
  }

  function DaysBeforeMonth(year: int, month: int): int
    decreases month
  {
    if month <= 1 then 0 else DaysBeforeMonth(year, month - 1) + DaysIn(year, month - 1)
  }

  /** The day number of a date, by the lengths of the years and months before it. */
  function DayNumber(date: Date): int {
    DaysBeforeYear(date.year) + DaysBeforeMonth(date.year, date.month) + date.day - 1
  }

  lemma NextDayNumber(date: Date)
    requires IsDate(date)
    ensures DayNumber(NextDate(date)) == DayNumber(date) + 1
  {
    if date.month == 12 && date.day == 31 {
      MonthsOfYear(date.year);
      assert DaysBeforeMonth(date.year + 1, 1) == 0;
      assert DaysBeforeYear(date.year + 1) == DaysBeforeYear(date.year) + YearLength(date.year);
    }
  }

  lemma MonthsOfYear(year: int)
    ensures DaysBeforeMonth(year, 12) + 31 == YearLength(year)
  {
    assert DaysBeforeMonth(year, 3) == 31 + DaysIn(year, 2);
    assert DaysBeforeMonth(year, 6) == DaysBeforeMonth(year, 3) + 92;
    assert DaysBeforeMonth(year, 9) == DaysBeforeMonth(year, 6) + 92;
    assert DaysBeforeMonth(year, 12) == DaysBeforeMonth(year, 9) + 91;
  }

  /** Day numbers count along any numbering that begins at the epoch and steps as the calendar does. */
  lemma {:induction false} DayNumberCounts(numbering: int -> Date, days: int)
    requires numbering(0) == EPOCH
    requires forall n :: IsDate(numbering(n)) && numbering(n + 1) == NextDate(numbering(n))
    ensures DayNumber(numbering(days)) == days
    decreases if days < 0 then -days else days
  {
    if days == 0 {
      assert DaysBeforeMonth(1970, 1) == 0;
    } else if days > 0 {
      DayNumberCounts(numbering, days - 1);
      assert numbering(days - 1 + 1) == NextDate(numbering(days - 1));
      NextDayNumber(numbering(days - 1));
    } else {
      DayNumberCounts(numbering, days + 1);
      NextDayNumber(numbering(days));
    }
  }

  /** The date's day number is the count it came from. */
  lemma CivilUndone(days: int)
    ensures IsDate(Civil(days)) && DayNumber(Civil(days)) == days
  {
    var numbering := (n: int) => Civil(n);
    forall n
      ensures IsDate(numbering(n)) && numbering(n + 1) == NextDate(numbering(n))
    {
      CivilSteps(n);
    }
    CivilBegins();
    DayNumberCounts(numbering, days);
  }

  // ---------------------------------------------------------------------
  // The text

  function Digit(n: nat): char
    requires n < 10
  {
    '0' + n as char
  }

  function Decimal(n: nat): string {
    if n < 10 then [Digit(n)] else Decimal(n / 10) + [Digit(n % 10)]
  }

  function Padded(n: nat, width: nat): string
    decreases width - |Decimal(n)|
  {
    PadWith(Decimal(n), width)
  }

  function PadWith(text: string, width: nat): string
    decreases width - |text|
  {
    if |text| < width then PadWith("0" + text, width) else text
  }

  /** An integer at least `width` wide, its sign counted, filled with zeros after the sign. */
  function Signed(n: int, width: nat): string {
    if n < 0 then "-" + Padded(-n, if width > 0 then width - 1 else 0) else Padded(n, width)
  }

  /** A date and a time of day. */
  datatype Parts = Parts(date: Date, hour: int, minute: int, second: int)

  function PartsOf(secs: int): Parts {
    var rem := secs % DAY_SECONDS;
    Parts(Civil(secs / DAY_SECONDS), rem / 3600, rem % 3600 / 60, rem % 60)
  }

  function TextOf(p: Parts): string {
    Joined(Signed(p.date.year, 4), "-", Signed(p.date.month, 2), Signed(p.date.day, 2)) + "T"
    + Joined(Signed(p.hour, 2), ":", Signed(p.minute, 2), Signed(p.second, 2)) + "Z"
  }

  function Joined(a: string, mark: string, b: string, c: string): string {
    a + mark + b + mark + c
  }

  function Rfc3339(secs: int): string {
    TextOf(PartsOf(secs))
  }

  // ---------------------------------------------------------------------
  // Reading it back

  predicate IsNumber(text: string) {
    forall i :: 0 <= i < |text| ==> '0' <= text[i] <= '9'
  }

  function Number(text: string): nat
    requires IsNumber(text)
  {
    if text == "" then 0 else 10 * Number(text[..|text| - 1]) + (text[|text| - 1] - '0') as nat
  }

  /** A date-time of section 5.6 of RFC 3339, in UTC, to the second, without a leap second. */
  function Read(text: string): Option<int> {
    if |text| != 20 then None
    else
      var y, mo, d := text[..4], text[5..7], text[8..10];
      var h, mi, s := text[11..13], text[14..16], text[17..19];
      if !(IsNumber(y) && IsNumber(mo) && IsNumber(d) && IsNumber(h) && IsNumber(mi) && IsNumber(s)) then None
      else if [text[4], text[7], text[10], text[13], text[16], text[19]] != "--T::Z" then None
      else
        var date := Date(Number(y), Number(mo), Number(d));
        if !IsDate(date) || Number(h) >= 24 || Number(mi) >= 60 || Number(s) >= 60 then None
        else Some(DayNumber(date) * DAY_SECONDS + Number(h) * 3600 + Number(mi) * 60 + Number(s))
  }

  lemma {:induction false} DecimalReads(n: nat)
    ensures IsNumber(Decimal(n)) && Number(Decimal(n)) == n
    ensures |Decimal(n)| >= 1
    ensures n < 10 <==> |Decimal(n)| <= 1
    ensures n < 100 <==> |Decimal(n)| <= 2
    ensures n < 1000 <==> |Decimal(n)| <= 3
    ensures n < 10000 <==> |Decimal(n)| <= 4
  {
    if n < 10 {
      assert Decimal(n)[..0] == "";
    } else {
      DecimalReads(n / 10);
      assert Decimal(n)[..|Decimal(n)| - 1] == Decimal(n / 10);
    }
  }

  lemma {:induction false} PaddingReads(text: string, width: nat)
    requires IsNumber(text)
    ensures IsNumber(PadWith(text, width)) && Number(PadWith(text, width)) == Number(text)
    ensures |PadWith(text, width)| == if |text| < width then width else |text|
    decreases width - |text|
  {
    if |text| < width {
      LeadingZero(text);
      PaddingReads("0" + text, width);
    }
  }

  lemma {:induction false} LeadingZero(text: string)
    requires IsNumber(text)
    ensures IsNumber("0" + text) && Number("0" + text) == Number(text)
  {
    if text == "" {
      assert ("0" + text)[..0] == "";
    } else {
      LeadingZero(text[..|text| - 1]);
      assert ("0" + text)[..|text|] == "0" + text[..|text| - 1];
    }
  }

  /** A number of few enough digits is written in exactly that width, and reads back. */
  lemma PaddedReads(n: nat, width: nat)
    ensures IsNumber(Padded(n, width)) && Number(Padded(n, width)) == n
    ensures |Padded(n, width)| == if |Decimal(n)| < width then width else |Decimal(n)|
  {
    DecimalReads(n);
    PaddingReads(Decimal(n), width);
  }

  lemma TwoDigits(n: int)
    requires 0 <= n < 100
    ensures |Signed(n, 2)| == 2 && IsNumber(Signed(n, 2)) && Number(Signed(n, 2)) == n
  {
    PaddedReads(n, 2);
    DecimalReads(n);
  }

  predicate IsTime(p: Parts) {
    IsDate(p.date) && 0 <= p.hour < 24 && 0 <= p.minute < 60 && 0 <= p.second < 60
  }

  function SecondsOf(p: Parts): int {
    DayNumber(p.date) * DAY_SECONDS + p.hour * 3600 + p.minute * 60 + p.second
  }

  lemma TimeOfDay(rem: int)
    requires 0 <= rem < DAY_SECONDS
    ensures 0 <= rem / 3600 < 24 && 0 <= rem % 3600 / 60 < 60 && 0 <= rem % 60 < 60
    ensures rem / 3600 * 3600 + rem % 3600 / 60 * 60 + rem % 60 == rem
  {
    assert rem % 3600 % 60 == rem % 60;
  }

  lemma PartsAreRight(secs: int)
    ensures IsTime(PartsOf(secs)) && SecondsOf(PartsOf(secs)) == secs
  {
    var days, rem, date := secs / DAY_SECONDS, secs % DAY_SECONDS, Civil(secs / DAY_SECONDS);
    assert IsDate(date) && DayNumber(date) == days by {
      CivilUndone(days);
    }
    TimeOfDay(rem);
    SecondsAddUp(PartsOf(secs), date, days, rem);
  }

  lemma SecondsAddUp(p: Parts, date: Date, days: int, rem: int)
    requires p == Parts(date, rem / 3600, rem % 3600 / 60, rem % 60) && DayNumber(date) == days
    requires rem / 3600 * 3600 + rem % 3600 / 60 * 60 + rem % 60 == rem
    ensures SecondsOf(p) == days * DAY_SECONDS + rem
  {
  }

  lemma JoinedParts(a: string, mark: string, b: string, c: string)
    requires |mark| == 1 && |b| == 2 && |c| == 2
    ensures var text, n := Joined(a, mark, b, c), |a|;
            && |text| == n + 6 && text[..n] == a && text[n + 1..n + 3] == b && text[n + 4..n + 6] == c
            && text[n] == mark[0] && text[n + 3] == mark[0]
  {
  }

  lemma WholeParts(date: string, time: string)
    requires |date| == 10 && |time| == 8
    ensures var text := date + "T" + time + "Z";
            && |text| == 20 && text[10] == 'T' && text[19] == 'Z'
            && (forall i, j :: 0 <= i <= j <= 10 ==> text[i..j] == date[i..j])
            && (forall i, j :: 0 <= i <= j <= 8 ==> text[11 + i..11 + j] == time[i..j])
            && (forall i :: 0 <= i < 10 ==> text[i] == date[i])
            && (forall i :: 0 <= i < 8 ==> text[11 + i] == time[i])
  {
  }

  lemma PartsHaveTwoDigits(p: Parts)
    requires IsTime(p)
    ensures |Signed(p.date.month, 2)| == |Signed(p.date.day, 2)| == 2
    ensures |Signed(p.hour, 2)| == |Signed(p.minute, 2)| == |Signed(p.second, 2)| == 2
  {
    TwoDigits(p.date.month);
    TwoDigits(p.date.day);
    TwoDigits(p.hour);
    TwoDigits(p.minute);
    TwoDigits(p.second);
  }

  /** Where each part stands in a text whose year has four characters. */
  lemma TextIsLaidOut(p: Parts)
    requires IsTime(p)
    ensures |TextOf(p)| == |Signed(p.date.year, 4)| + 16
    ensures |Signed(p.date.year, 4)| == 4 ==>
              var text := TextOf(p);
              && text[..4] == Signed(p.date.year, 4)
              && text[5..7] == Signed(p.date.month, 2) && text[8..10] == Signed(p.date.day, 2)
              && text[11..13] == Signed(p.hour, 2) && text[14..16] == Signed(p.minute, 2)
              && text[17..19] == Signed(p.second, 2)
              && [text[4], text[7], text[10], text[13], text[16], text[19]] == "--T::Z"
  {
    PartsHaveTwoDigits(p);
    LaidOut(Signed(p.date.year, 4), Signed(p.date.month, 2), Signed(p.date.day, 2),
            Signed(p.hour, 2), Signed(p.minute, 2), Signed(p.second, 2));
  }

  lemma LaidOut(y: string, mo: string, d: string, h: string, mi: string, s: string)
    requires |mo| == |d| == |h| == |mi| == |s| == 2
    ensures var text := Joined(y, "-", mo, d) + "T" + Joined(h, ":", mi, s) + "Z";
            && |text| == |y| + 16
            && (|y| == 4 ==>
                  && text[..4] == y && text[5..7] == mo && text[8..10] == d
                  && text[11..13] == h && text[14..16] == mi && text[17..19] == s
                  && [text[4], text[7], text[10], text[13], text[16], text[19]] == "--T::Z")
  {
    JoinedParts(y, "-", mo, d);
    JoinedParts(h, ":", mi, s);
    if |y| == 4 {
      var date, time := Joined(y, "-", mo, d), Joined(h, ":", mi, s);
      WholeParts(date, time);
      var text := date + "T" + time + "Z";
      assert text[0..4] == text[..4] && date[0..4] == date[..4] && time[0..2] == time[..2];
      assert text[11 + 0..11 + 2] == time[0..2] && text[11 + 3..11 + 5] == time[3..5]
          && text[11 + 6..11 + 8] == time[6..8];
      assert text[11 + 2] == time[2] && text[11 + 5] == time[5];
    }
  }

  /** A year is written in four digits exactly from 0 to 9999. */
  lemma YearText(year: int)
    ensures var text := Signed(year, 4);
            && (0 <= year <= 9999 <==> |text| == 4 && IsNumber(text))
            && (0 <= year <= 9999 ==> Number(text) == year)
  {
    if year >= 0 {
      PaddedReads(year, 4);
      DecimalReads(year);
    } else {
      assert Signed(year, 4)[0] == '-';
    }
  }

  /**
   For every second count, the text reads back to the same second exactly if its year is
   one that section 5.6 of RFC 3339 can write, from 0 to 9999.
   */
  lemma TextReadsBack(secs: int)
    ensures 0 <= PartsOf(secs).date.year <= 9999 ==> Read(Rfc3339(secs)) == Some(secs)
    ensures !(0 <= PartsOf(secs).date.year <= 9999) ==> Read(Rfc3339(secs)) == None
  {
    PartsAreRight(secs);
    ReadingParts(PartsOf(secs));
  }

  lemma ReadingParts(p: Parts)
    requires IsTime(p)
    ensures Read(TextOf(p)) == if 0 <= p.date.year <= 9999 then Some(SecondsOf(p)) else None
  {
    TextIsLaidOut(p);
    YearText(p.date.year);
    if |Signed(p.date.year, 4)| == 4 {
      PartsRead(p);
      ReadingLaidOut(TextOf(p), p);
    }
  }

  /** Every part but the year reads back from its two digits. */
  lemma PartsRead(p: Parts)
    requires IsTime(p)
    ensures forall n :: n in {p.date.month, p.date.day, p.hour, p.minute, p.second} ==>
                          IsNumber(Signed(n, 2)) && Number(Signed(n, 2)) == n
  {
    forall n | 0 <= n < 100
      ensures IsNumber(Signed(n, 2)) && Number(Signed(n, 2)) == n
    {
      TwoDigits(n);
    }
  }

  lemma ReadingLaidOut(text: string, p: Parts)
    requires IsTime(p) && |text| == 20
    requires [text[4], text[7], text[10], text[13], text[16], text[19]] == "--T::Z"
    requires 0 <= p.date.year <= 9999 <==> IsNumber(text[..4])
    requires 0 <= p.date.year <= 9999 ==> Number(text[..4]) == p.date.year
    requires IsNumber(text[5..7]) && Number(text[5..7]) == p.date.month
    requires IsNumber(text[8..10]) && Number(text[8..10]) == p.date.day
    requires IsNumber(text[11..13]) && Number(text[11..13]) == p.hour
    requires IsNumber(text[14..16]) && Number(text[14..16]) == p.minute
    requires IsNumber(text[17..19]) && Number(text[17..19]) == p.second
    ensures Read(text) == if 0 <= p.date.year <= 9999 then Some(SecondsOf(p)) else None
  {
  }
}
