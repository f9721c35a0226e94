/**
 The two calendar conversions, which live in different files of the server, against a
 plain count of days; and the release check that compares dates as text.
 Integers are unbounded; the casts to 32 bits at the end of one conversion are not modelled.
 */
module Calendar {
  import opened Options
  import opened Text
  import opened Decimal

  // ----- The code ------------------------------------------------------------------

  /** Division that truncates toward zero. */
  function TruncDiv(a: int, b: int): int
    requires b > 0
  {
    if a >= 0 then a / b else -((-a) / b)
  }

  datatype Date = Date(year: int, month: int, day: int)

  function UnixDaysFromCivil(year: int, month: int, day: int): int {
    var y := if month <= 2 then year - 1 else year;
    var era := TruncDiv(if y >= 0 then y else y - 399, 400);
    var yoe := y - era * 400;
    var doy := TruncDiv(153 * (if month > 2 then month - 3 else month + 9) + 2, 5) + day - 1;
    var doe := yoe * 365 + TruncDiv(yoe, 4) - TruncDiv(yoe, 100) + doy;
    era * 146_097 + doe - 719_468
  }

  function YearOfEra(doe: int): int {
    (doe - TruncDiv(doe, 1_460) + TruncDiv(doe, 36_524) - TruncDiv(doe, 146_096)) / 365
  }

  /** Days before year `yoe` of an era whose years begin in March. */
  function YearStart(yoe: int): int {
    365 * yoe + TruncDiv(yoe, 4) - TruncDiv(yoe, 100)
  }

  /** The date `doy` days after the 1st of March of `year`. */
  function MarchDate(year: int, doy: int): Date {
    var mp := (5 * doy + 2) / 153;
    var day := doy - (153 * mp + 2) / 5 + 1;
    var month := mp + if mp < 10 then 3 else -9;
    Date(if month <= 2 then year + 1 else year, month, day)
  }

  function DateInEra(era: int, doe: int): Date {
    var yoe := YearOfEra(doe);
    MarchDate(yoe + era * 400, doe - YearStart(yoe))
  }

  function Era(days: int): int {
    (if days >= 0 then days else days - 146_096) / 146_097
  }

  function CivilFromUnixDays(daysSinceUnixEpoch: int): Date {
    var days := daysSinceUnixEpoch + 719_468;
    DateInEra(Era(days), days - Era(days) * 146_097)
  }

  // ----- The reference: counting days ------------------------------------------------

  predicate Leap(year: int) {
    year % 4 == 0 && (year % 100 != 0 || year % 400 == 0)
  }

  function DaysInMonth(year: int, month: int): int {
    if month == 2 then (if Leap(year) then 29 else 28)
    else if month == 4 || month == 6 || month == 9 || month == 11 then 30
    else 31
  }

  predicate Valid(date: Date) {
    1 <= date.month <= 12 && 1 <= date.day <= DaysInMonth(date.year, date.month)
  }

  function NextDay(date: Date): Date {
    if date.day < DaysInMonth(date.year, date.month) then date.(day := date.day + 1)
    else if date.month < 12 then Date(date.year, date.month + 1, 1)
    else Date(date.year + 1, 1, 1)
  }

  function DaysBeforeYear(year: int): int
    requires year >= 1
  {
    if year == 1 then 0 else DaysBeforeYear(year - 1) + if Leap(year - 1) then 366 else 365
  }

  function DaysBeforeMonth(year: int, month: int): int
    requires 1 <= month <= 12
  {
    if month == 1 then 0 else DaysBeforeMonth(year, month - 1) + DaysInMonth(year, month - 1)
  }

  lemma DivUnique(a: int, b: int, q: int)
    requires b > 0 && q * b <= a < q * b + b
    ensures a / b == q
  {
    var d := a / b - q;
    assert b * d < b && -b < b * d;
    assert d >= 1 ==> b * d >= b;
    assert d <= -1 ==> b * d <= -b;
  }

  lemma DivStep(n: int, k: int)
    requires k >= 2
    ensures n / k - (n - 1) / k == if n % k == 0 then 1 else 0
  {
    var q := n / k;
    assert n == q * k + n % k;
    DivUnique(n - 1, k, if n % k == 0 then q - 1 else q);
  }

  /** Days before the March-based year `y`, counted from the year 0. */
  function YearDays(y: int): int {
    365 * y + y / 4 - y / 100 + y / 400
  }

  lemma YearDaysStep(y: int)
    ensures YearDays(y) == YearDays(y - 1) + if Leap(y) then 366 else 365
  {
    DivStep(y, 4);
    DivStep(y, 100);
    DivStep(y, 400);
    Divisible(y);
  }

  lemma Divisible(y: int)
    ensures (y % 400 == 0 ==> y % 100 == 0) && (y % 100 == 0 ==> y % 4 == 0)
  {
    if y % 400 == 0 {
      DivUnique(y, 100, 4 * (y / 400));
    }
    if y % 100 == 0 {
      DivUnique(y, 4, 25 * (y / 100));
    }
  }

  lemma {:induction false} DaysBeforeYearClosed(year: int)
    requires year >= 1
    ensures DaysBeforeYear(year) == YearDays(year - 1)
  {
    if year > 1 {
      DaysBeforeYearClosed(year - 1);
      YearDaysStep(year - 1);
    }
  }

  lemma MonthLengths(year: int, month: int)
    requires 1 <= month <= 12
    ensures DaysBeforeMonth(year, month)
         == [0, 31, 59, 90, 120, 151, 181, 212, 243, 273, 304, 334][month - 1]
             + if month > 2 && Leap(year) then 1 else 0
  {
    if month > 1 {
      MonthLengths(year, month - 1);
    }
  }

  /** Flooring the shifted year: the code's truncating division with its adjustment. */
  lemma EraOfYear(y: int)
    ensures TruncDiv(if y >= 0 then y else y - 399, 400) == y / 400
  {
  }

  lemma YearSplit(y: int)
    ensures var era := y / 400; var yoe := y - era * 400;
            0 <= yoe < 400 && YearDays(y) == era * 146_097 + YearStart(yoe)
  {
    var era := y / 400;
    var yoe := y - era * 400;
    DivUnique(y, 4, era * 100 + yoe / 4);
    DivUnique(y, 100, era * 4 + yoe / 100);
  }

  function MonthPrime(month: int): int {
    if month > 2 then month - 3 else month + 9
  }

  lemma UnixDaysForm(year: int, month: int, day: int)
    requires 1 <= month <= 12
    ensures var y := if month <= 2 then year - 1 else year;
            UnixDaysFromCivil(year, month, day)
            == YearDays(y) + (153 * MonthPrime(month) + 2) / 5 + day - 1 - 719_468
  {
    var y := if month <= 2 then year - 1 else year;
    EraOfYear(y);
    YearSplit(y);
  }

  lemma MonthOffset(year: int, month: int)
    requires 1 <= month <= 12
    ensures (153 * MonthPrime(month) + 2) / 5
         == DaysBeforeMonth(year, month) + if month <= 2 then 306 else -59 - if Leap(year) then 1 else 0
  {
    MonthLengths(year, month);
  }

  lemma DaysBeforeEpoch(year: int)
    requires year == 1970
    ensures DaysBeforeYear(year) == 719_162
  {
    DaysBeforeYearClosed(year);
  }

  /** The days of the Gregorian calendar from 0001-01-01 up to the given date. */
  function DaysBefore(date: Date): int
    requires date.year >= 1 && 1 <= date.month <= 12
  {
    DaysBeforeYear(date.year) + DaysBeforeMonth(date.year, date.month) + date.day - 1
  }

  lemma DaysFromYear1(date: Date)
    requires Valid(date) && date.year >= 1
    ensures UnixDaysFromCivil(date.year, date.month, date.day) == DaysBefore(date) - 719_162
  {
    UnixDaysForm(date.year, date.month, date.day);
    DaysBeforeYearClosed(date.year);
    MonthOffset(date.year, date.month);
    YearDaysStep(date.year);
  }

  /** The conversion is the count of days since 1970-01-01. */
  lemma CountsDays(date: Date, epoch: Date)
    requires Valid(date) && date.year >= 1 && epoch.year == 1970 && epoch.month == 1 && epoch.day == 1
    ensures UnixDaysFromCivil(date.year, date.month, date.day) == DaysBefore(date) - DaysBefore(epoch)
  {
    DaysFromYear1(date);
    DaysBeforeEpoch(epoch.year);
  }

  lemma YearLength(year: int)
    requires year >= 1
    ensures DaysBeforeYear(year + 1) == DaysBeforeYear(year) + DaysBeforeMonth(year, 12) + DaysInMonth(year, 12)
  {
    MonthLengths(year, 12);
  }

  lemma OneDayLater(date: Date)
    requires Valid(date) && date.year >= 1
    ensures Valid(NextDay(date)) && NextDay(date).year >= 1 && DaysBefore(NextDay(date)) == DaysBefore(date) + 1
  {
    YearLength(date.year);
  }

  /** The next calendar day is one more. */
  lemma NextDayIsOneMore(date: Date)
    requires Valid(date) && date.year >= 1
    ensures Valid(NextDay(date)) && NextDay(date).year >= 1
    ensures var next := NextDay(date);
            UnixDaysFromCivil(next.year, next.month, next.day) == UnixDaysFromCivil(date.year, date.month, date.day) + 1
  {
    OneDayLater(date);
    DaysFromYear1(date);
    DaysFromYear1(NextDay(date));
  }

  // ----- Inverses ----------------------------------------------------------------------

  /** The March-based year `yoe` of an era ends with a 29th of February. */
  predicate LongYear(yoe: int) {
    yoe % 4 == 3 && (yoe % 100 != 99 || yoe == 399)
  }

  predicate DayOfYear(yoe: int, doy: int) {
    0 <= yoe < 400 && 0 <= doy <= 365 && (doy == 365 ==> LongYear(yoe))
  }

  lemma CycleStart(c: int, q: int, r: int)
    requires 0 <= c < 4 && 0 <= q < 25 && 0 <= r < 4
    ensures YearStart(100 * c + 4 * q + r) == 36_524 * c + 1_461 * q + 365 * r
  {
    DivUnique(100 * c + 4 * q + r, 4, 25 * c + q);
    DivUnique(100 * c + 4 * q + r, 100, c);
  }

  /** The corrected day count of an era, for a day of it. */
  lemma CycleDays(c: int, q: int, r: int, doy: int)
    requires 0 <= c < 4 && 0 <= q < 25 && 0 <= r < 4 && DayOfYear(100 * c + 4 * q + r, doy)
    ensures var doe := 36_524 * c + 1_461 * q + 365 * r + doy;
            var e := if 24 * c + q + 365 * r + doy >= 1_460 then 1 else 0;
            && 0 <= doe < 146_097 && 0 <= doy - e < 365
            && doe - doe / 1_460 + doe / 36_524 - doe / 146_096 == 365 * (100 * c + 4 * q + r) + doy - e
  {
    var doe := 36_524 * c + 1_461 * q + 365 * r + doy;
    var e := if 24 * c + q + 365 * r + doy >= 1_460 then 1 else 0;
    var last := if doe == 146_096 then 1 else 0;
    DivUnique(doe, 1_460, 25 * c + q + e);
    DivUnique(doe, 36_524, c + last);
    DivUnique(doe, 146_096, last);
  }

  /** Centuries, four-year cycles, years and days, counted from the start of an era. */
  lemma Recompose(c: int, q: int, r: int, doy: int)
    requires 0 <= c < 4 && 0 <= q < 25 && 0 <= r < 4 && DayOfYear(100 * c + 4 * q + r, doy)
    ensures var yoe := 100 * c + 4 * q + r; var doe := YearStart(yoe) + doy;
            doe == 36_524 * c + 1_461 * q + 365 * r + doy && 0 <= doe < 146_097 && YearOfEra(doe) == yoe
  {
    var yoe := 100 * c + 4 * q + r;
    var e := if 24 * c + q + 365 * r + doy >= 1_460 then 1 else 0;
    CycleStart(c, q, r);
    CycleDays(c, q, r, doy);
    DivUnique(365 * yoe + doy - e, 365, yoe);
  }

  lemma YearOfEraCorrect(yoe: int, doy: int)
    requires DayOfYear(yoe, doy)
    ensures var doe := YearStart(yoe) + doy; 0 <= doe < 146_097 && YearOfEra(doe) == yoe
  {
    var c := yoe / 100;
    var q := (yoe - 100 * c) / 4;
    Recompose(c, q, yoe - 100 * c - 4 * q, doy);
  }

  lemma YearOfEraTotal(doe: int)
    requires 0 <= doe < 146_097
    ensures DayOfYear(YearOfEra(doe), doe - YearStart(YearOfEra(doe)))
  {
    var c := if doe / 36_524 < 3 then doe / 36_524 else 3;
    var rest := doe - 36_524 * c;
    var q := rest / 1_461;
    var rest' := rest - 1_461 * q;
    var r := if rest' / 365 < 3 then rest' / 365 else 3;
    Recompose(c, q, r, rest' - 365 * r);
  }

  lemma MarchDateOfDate(date: Date)
    requires Valid(date)
    ensures var y := if date.month <= 2 then date.year - 1 else date.year;
            var doy := (153 * MonthPrime(date.month) + 2) / 5 + date.day - 1;
            && MarchDate(y, doy) == date
            && 0 <= doy <= 365 && (doy == 365 ==> Leap(y + 1))
  {
  }

  lemma ModShift(a: int, b: int, k: int, m: int)
    requires m > 0 && a == b + k * m
    ensures a % m == b % m
  {
    var q := b / m;
    assert (q + k) * m == q * m + k * m;
    DivUnique(a, m, q + k);
  }

  lemma LeapInEra(yoe: int)
    requires 0 <= yoe < 400
    ensures Leap(yoe + 1) <==> LongYear(yoe)
  {
  }

  /** A March-based year, by its era. */
  lemma YearInEra(era: int, yoe: int)
    requires 0 <= yoe < 400
    ensures YearDays(yoe + era * 400) == era * 146_097 + YearStart(yoe)
    ensures Leap(yoe + era * 400 + 1) <==> LongYear(yoe)
  {
    var y := yoe + era * 400;
    DivUnique(y, 400, era);
    YearSplit(y);
    ModShift(y + 1, yoe + 1, 100 * era, 4);
    ModShift(y + 1, yoe + 1, 4 * era, 100);
    ModShift(y + 1, yoe + 1, era, 400);
    LeapInEra(yoe);
  }

  lemma DateOfDayOfYear(era: int, yoe: int, doy: int)
    requires DayOfYear(yoe, doy)
    ensures DateInEra(era, YearStart(yoe) + doy) == MarchDate(yoe + era * 400, doy)
  {
    YearOfEraCorrect(yoe, doy);
  }

  lemma EraOfDays(era: int, doe: int)
    requires 0 <= doe < 146_097 && era >= 0
    ensures Era(era * 146_097 + doe) == era
  {
    DivUnique(era * 146_097 + doe, 146_097, era);
  }

  lemma DaysOfDate(date: Date, y: int, doy: int)
    requires Valid(date) && y == if date.month <= 2 then date.year - 1 else date.year
    requires doy == (153 * MonthPrime(date.month) + 2) / 5 + date.day - 1
    ensures UnixDaysFromCivil(date.year, date.month, date.day) == YearDays(y) + doy - 719_468
    ensures MarchDate(y, doy) == date && 0 <= doy <= 365 && (doy == 365 ==> Leap(y + 1))
  {
    UnixDaysForm(date.year, date.month, date.day);
    MarchDateOfDate(date);
  }

  /** Every valid date from 0000-03-01 on comes back from its day number. */
  lemma CivilOfDays(date: Date)
    requires Valid(date) && UnixDaysFromCivil(date.year, date.month, date.day) >= -719_468
    ensures CivilFromUnixDays(UnixDaysFromCivil(date.year, date.month, date.day)) == date
  {
    var y := if date.month <= 2 then date.year - 1 else date.year;
    var doy := (153 * MonthPrime(date.month) + 2) / 5 + date.day - 1;
    DaysOfDate(date, y, doy);
    CivilOfMarchDays(y, doy, YearDays(y) + doy - 719_468);
  }

  lemma CivilOfMarchDays(y: int, doy: int, days: int)
    requires 0 <= doy <= 365 && (doy == 365 ==> Leap(y + 1)) && days == YearDays(y) + doy - 719_468 >= -719_468
    ensures CivilFromUnixDays(days) == MarchDate(y, doy)
  {
    YearDaysBounds(y);
    var era := y / 400;
    var yoe := y - era * 400;
    YearInEra(era, yoe);
    CivilOfEra(era, yoe, doy, days);
  }

  lemma CivilOfEra(era: int, yoe: int, doy: int, days: int)
    requires era >= 0 && DayOfYear(yoe, doy) && days + 719_468 == era * 146_097 + YearStart(yoe) + doy
    ensures CivilFromUnixDays(days) == MarchDate(yoe + era * 400, doy)
  {
    var doe := YearStart(yoe) + doy;
    YearOfEraCorrect(yoe, doy);
    EraOfDays(era, doe);
    DateOfDayOfYear(era, yoe, doy);
    CivilUnfolded(days, era, doe);
  }

  lemma CivilUnfolded(days: int, era: int, doe: int)
    requires days + 719_468 == era * 146_097 + doe && Era(days + 719_468) == era
    ensures CivilFromUnixDays(days) == DateInEra(era, doe)
  {
  }

  /** From 0000-03-01 on every day number is the number of one valid date. */
  lemma CivilIsValid(days: int)
    requires days >= -719_468
    ensures var date := CivilFromUnixDays(days);
            Valid(date) && UnixDaysFromCivil(date.year, date.month, date.day) == days
  {
    var era := Era(days + 719_468);
    var doe := days + 719_468 - era * 146_097;
    DateInEraDays(era, doe);
  }

  lemma DateInEraIs(era: int, doe: int, yoe: int, doy: int)
    requires yoe == YearOfEra(doe) && doy == doe - YearStart(yoe)
    ensures DateInEra(era, doe) == MarchDate(yoe + era * 400, doy)
  {
  }

  lemma DateInEraDays(era: int, doe: int)
    requires 0 <= doe < 146_097
    ensures var date := DateInEra(era, doe);
            Valid(date) && UnixDaysFromCivil(date.year, date.month, date.day) == era * 146_097 + doe - 719_468
  {
    var yoe := YearOfEra(doe);
    var doy := doe - YearStart(yoe);
    YearOfEraTotal(doe);
    MarchDateDays(era, yoe, doy);
    DateInEraIs(era, doe, yoe, doy);
  }

  lemma MarchDateDays(era: int, yoe: int, doy: int)
    requires 0 <= yoe < 400 && 0 <= doy <= 366
    ensures var date := MarchDate(yoe + era * 400, doy);
            && UnixDaysFromCivil(date.year, date.month, date.day) == era * 146_097 + YearStart(yoe) + doy - 719_468
            && (DayOfYear(yoe, doy) ==> Valid(date))
  {
    YearInEra(era, yoe);
    DaysOfMarchDate(yoe + era * 400, doy);
  }

  lemma DaysOfMarchDate(y: int, doy: int)
    requires 0 <= doy <= 366
    ensures var date := MarchDate(y, doy);
            && UnixDaysFromCivil(date.year, date.month, date.day) == YearDays(y) + doy - 719_468
            && (doy < 365 || (doy == 365 && Leap(y + 1)) ==> Valid(date))
  {
    MarchDateShape(y, doy);
    var date := MarchDate(y, doy);
    UnixDaysForm(date.year, date.month, date.day);
  }

  lemma MarchDateShape(y: int, doy: int)
    requires 0 <= doy <= 366
    ensures var date := MarchDate(y, doy);
            && 1 <= date.month <= 12 && 1 <= date.day
            && date.year == (if date.month <= 2 then y + 1 else y)
            && (153 * MonthPrime(date.month) + 2) / 5 + date.day - 1 == doy
            && (doy < 365 || (doy == 365 && Leap(y + 1)) ==> Valid(date))
  {
    var mp := (5 * doy + 2) / 153;
    assert 0 <= mp <= 11;
  }

  /**
   The round trip from day numbers, exactly: it holds from 0000-03-01 on, and before that
   only on the last day of an era. Elsewhere the negative branch is a day off.
   */
  lemma DaysOfCivil(days: int)
    ensures var date := CivilFromUnixDays(days);
            UnixDaysFromCivil(date.year, date.month, date.day) == days
            <==> days >= -719_468 || (days + 719_468) % 146_097 == 146_096
  {
    if days >= -719_468 {
      CivilIsValid(days);
    } else {
      BeforeTheEras(days);
    }
  }

  lemma EraBefore(shifted: int)
    requires shifted < 0
    ensures Era(shifted) == shifted / 146_097 - if shifted % 146_097 == 146_096 then 0 else 1
  {
    var floor, x := shifted / 146_097, shifted % 146_097;
    DivUnique(shifted - 146_096, 146_097, if x == 146_096 then floor else floor - 1);
  }

  lemma BeforeTheEras(days: int)
    requires days < -719_468
    ensures var date := CivilFromUnixDays(days);
            UnixDaysFromCivil(date.year, date.month, date.day)
            == if (days + 719_468) % 146_097 == 146_096 then days else days + 1
  {
    var floor, x := (days + 719_468) / 146_097, (days + 719_468) % 146_097;
    EraBefore(days + 719_468);
    if x == 146_096 {
      CivilUnfolded(days, floor, x);
      DateInEraDays(floor, x);
    } else {
      CivilUnfolded(days, floor - 1, 146_097 + x);
      DayLate(floor - 1, x);
    }
  }

  lemma DayLate(era: int, x: int)
    requires 0 <= x < 146_096
    ensures var date := DateInEra(era, 146_097 + x);
            UnixDaysFromCivil(date.year, date.month, date.day) == (era + 1) * 146_097 + x - 719_468 + 1
  {
    OneEraTooFar(x);
    var yoe := YearOfEra(146_097 + x) - 400;
    assert (yoe + 400) + era * 400 == yoe + (era + 1) * 400;
    MarchDateDays(era + 1, yoe, 146_097 + x - YearStart(yoe + 400));
  }

  /** With the era one too low, the year comes out 400 higher and the day one later. */
  lemma OneEraTooFar(x: int)
    requires 0 <= x < 146_096
    ensures var doe := 146_097 + x; var yoe := YearOfEra(doe) - 400;
            0 <= yoe < 400 && 0 <= doe - YearStart(yoe + 400) <= 366 && YearStart(yoe + 400) == YearStart(yoe) + 146_096
  {
    var z := x + 1;
    var year := YearOfEra(z);
    var doy := z - YearStart(year);
    assert DayOfYear(year, doy) by {
      YearOfEraTotal(z);
    }
    var c := year / 100;
    var q := (year - 100 * c) / 4;
    var r := year - 100 * c - 4 * q;
    assert z == 36_524 * c + 1_461 * q + 365 * r + doy by {
      CycleStart(c, q, r);
    }
    OneEraTooFarAt(c, q, r, doy);
  }

  /** Whether the leap days make one more cycle of 1460 days than the four-year cycles do. */
  function Late(c: int, q: int, r: int, doy: int): int {
    if 24 * c + q + 365 * r + doy + 96 >= 1_460 then 1 else 0
  }

  lemma TooFarDays(c: int, q: int, r: int, doy: int)
    requires 0 <= c < 4 && 0 <= q < 25 && 0 <= r < 4 && DayOfYear(100 * c + 4 * q + r, doy)
    requires 36_524 * c + 1_461 * q + 365 * r + doy >= 1
    ensures var doe := 146_096 + 36_524 * c + 1_461 * q + 365 * r + doy;
            var e := Late(c, q, r, doy);
            && (doy == 0 ==> e == 0)
            && doe - doe / 1_460 + doe / 36_524 - doe / 146_096 == 365 * (400 + 100 * c + 4 * q + r) + doy - 1 - e
  {
    var doe := 146_096 + 36_524 * c + 1_461 * q + 365 * r + doy;
    var e := Late(c, q, r, doy);
    var last := if doe == 292_192 then 1 else 0;
    DivUnique(doe, 1_460, 100 + 25 * c + q + e);
    DivUnique(doe, 36_524, 4 + c + last);
    DivUnique(doe, 146_096, 1 + last);
  }

  lemma TooFarYear(c: int, q: int, r: int, doy: int)
    requires 0 <= c < 4 && 0 <= q < 25 && 0 <= r < 4 && DayOfYear(100 * c + 4 * q + r, doy)
    requires 36_524 * c + 1_461 * q + 365 * r + doy >= 1
    ensures YearOfEra(146_096 + 36_524 * c + 1_461 * q + 365 * r + doy)
         == 400 + 100 * c + 4 * q + r - if doy >= 1 + Late(c, q, r, doy) then 0 else 1
  {
    var year := 100 * c + 4 * q + r;
    var before := if doy >= 1 + Late(c, q, r, doy) then year else year - 1;
    TooFarDays(c, q, r, doy);
    DivUnique(365 * (400 + year) + doy - 1 - Late(c, q, r, doy), 365, 400 + before);
  }

  lemma OneEraTooFarAt(c: int, q: int, r: int, doy: int)
    requires 0 <= c < 4 && 0 <= q < 25 && 0 <= r < 4 && DayOfYear(100 * c + 4 * q + r, doy)
    requires 36_524 * c + 1_461 * q + 365 * r + doy >= 1
    ensures var doe := 146_096 + 36_524 * c + 1_461 * q + 365 * r + doy; var yoe := YearOfEra(doe) - 400;
            0 <= yoe < 400 && 0 <= doe - YearStart(yoe + 400) <= 366 && YearStart(yoe + 400) == YearStart(yoe) + 146_096
  {
    var year := 100 * c + 4 * q + r;
    var before := if doy >= 1 + Late(c, q, r, doy) then year else year - 1;
    TooFarYear(c, q, r, doy);
    YearStartLater(before);
    CycleStart(c, q, r);
    if before < year {
      YearStartStep(year);
    }
  }

  lemma YearStartLater(yoe: int)
    requires yoe >= 0
    ensures YearStart(yoe + 400) == YearStart(yoe) + 146_096
  {
    DivUnique(yoe + 400, 4, yoe / 4 + 100);
    DivUnique(yoe + 400, 100, yoe / 100 + 4);
  }

  lemma YearStartStep(yoe: int)
    requires yoe >= 1
    ensures 365 <= YearStart(yoe) - YearStart(yoe - 1) <= 366
  {
    DivStep(yoe, 4);
    DivStep(yoe, 100);
    Divisible(yoe);
  }

  /** The start-time parser takes days up to 31 in every month: exactly the real dates survive the round trip. */
  lemma ParsedDateRoundTrip(year: int, month: int, day: int)
    requires 1 <= year <= 9999 && 1 <= month <= 12 && 1 <= day <= 31
    ensures CivilFromUnixDays(UnixDaysFromCivil(year, month, day)) == Date(year, month, day)
            <==> day <= DaysInMonth(year, month)
  {
    var date := Date(year, month, day);
    var days := UnixDaysFromCivil(year, month, day);
    DaysBeforeYearClosed(year);
    if day <= DaysInMonth(year, month) {
      DaysFromYear1(date);
      MonthLengths(year, month);
      CivilOfDays(date);
    } else {
      var last := date.(day := DaysInMonth(year, month));
      DaysFromYear1(last);
      MonthLengths(year, month);
      assert days == UnixDaysFromCivil(year, month, last.day) + day - last.day;
      CivilIsValid(days);
    }
  }

  /** The start-time parser on the numbers it reads: milliseconds since the epoch. */
  function StartMs(year: int, month: int, day: int, hour: int, minute: int): Option<int> {
    if !(1 <= year <= 9999) || !(1 <= month <= 12) || !(1 <= day <= 31) then None
    else Some((UnixDaysFromCivil(year, month, day) * 86_400 + hour * 3_600 + minute * 60) * 1000)
  }

  /**
   The hours and minutes may be any numbers: the UTC day of a parsed start is as many days off as
   they exceed a day.
   */
  lemma DayOfStart(year: int, month: int, day: int, hour: int, minute: int)
    requires StartMs(year, month, day, hour, minute).Some?
    ensures StartMs(year, month, day, hour, minute).value / 86_400_000
         == UnixDaysFromCivil(year, month, day) + (hour * 60 + minute) / 1440
  {
    var days, time := UnixDaysFromCivil(year, month, day), hour * 60 + minute;
    assert StartMs(year, month, day, hour, minute).value == days * 86_400_000 + time * 60_000;
    DivUnique(days * 86_400_000 + time * 60_000, 86_400_000, days + time / 1440);
  }

  /** A day number that is read as the given date is the date's own, and the date exists. */
  lemma ReadAsDate(days: int, date: Date)
    requires date.year >= 1 && CivilFromUnixDays(days) == date
    ensures Valid(date) && UnixDaysFromCivil(date.year, date.month, date.day) == days
  {
    CivilYear(days);
    CivilIsValid(days);
  }

  lemma ReadOnTime(date: Date, days: int)
    requires 1 <= date.year <= 9999 && 1 <= date.month <= 12 && 1 <= date.day <= 31
    requires days == UnixDaysFromCivil(date.year, date.month, date.day)
    ensures CivilFromUnixDays(days) == date <==> date.day <= DaysInMonth(date.year, date.month)
  {
    ParsedDateRoundTrip(date.year, date.month, date.day);
  }

  lemma ReadsDate(date: Date, days: int)
    requires 1 <= date.year <= 9999 && 1 <= date.month <= 12 && 1 <= date.day <= 31
    ensures CivilFromUnixDays(days) == date
            <==> date.day <= DaysInMonth(date.year, date.month)
                 && days == UnixDaysFromCivil(date.year, date.month, date.day)
  {
    if CivilFromUnixDays(days) == date {
      ReadAsDate(days, date);
    } else if days == UnixDaysFromCivil(date.year, date.month, date.day) {
      ReadOnTime(date, days);
    }
  }

  lemma WithinADay(days: int, time: int)
    ensures days + time / 1440 == days <==> 0 <= time < 1440
  {
  }

  /** It is the day that was written exactly for dates that exist and times within a day. */
  lemma StartFallsOnItsDate(year: int, month: int, day: int, hour: int, minute: int)
    requires StartMs(year, month, day, hour, minute).Some?
    ensures CivilFromUnixDays(StartMs(year, month, day, hour, minute).value / 86_400_000) == Date(year, month, day)
            <==> day <= DaysInMonth(year, month) && 0 <= hour * 60 + minute < 1440
  {
    var days := StartMs(year, month, day, hour, minute).value / 86_400_000;
    DayOfStart(year, month, day, hour, minute);
    WithinADay(UnixDaysFromCivil(year, month, day), hour * 60 + minute);
    ReadsDate(Date(year, month, day), days);
  }

  /** The time of day of a parsed start is the one written, if it is within a day. */
  lemma TimeOfStart(year: int, month: int, day: int, hour: int, minute: int)
    requires StartMs(year, month, day, hour, minute).Some? && 0 <= hour * 60 + minute < 1440
    ensures StartMs(year, month, day, hour, minute).value % 86_400_000 == (hour * 60 + minute) * 60_000
  {
    var ms := StartMs(year, month, day, hour, minute).value;
    DayOfStart(year, month, day, hour, minute);
    assert ms == UnixDaysFromCivil(year, month, day) * 86_400_000 + (hour * 60 + minute) * 60_000;
  }

  /** Exactly which numbers are taken for a date. */
  lemma StartIsParsedIff(year: int, month: int, day: int, hour: int, minute: int)
    ensures StartMs(year, month, day, hour, minute).Some? <==> 1 <= year <= 9999 && 1 <= month <= 12 && 1 <= day <= 31
  {
  }

  // ----- Dates as text -----------------------------------------------------------------

  function Show(date: Date): string
    requires date.year >= 0 && date.month >= 0 && date.day >= 0
  {
    Padded(date.year, 4) + "-" + Padded(date.month, 2) + "-" + Padded(date.day, 2)
  }

  function UtcDate(days: int): string
    requires days >= -719_468
  {
    CivilIsValid(days);
    CivilYear(days);
    Show(CivilFromUnixDays(days))
  }

  lemma CivilYear(days: int)
    requires days >= -719_468
    ensures CivilFromUnixDays(days).year >= 0
    ensures days >= -719_162 <==> CivilFromUnixDays(days).year >= 1
    ensures days <= 2_932_896 <==> CivilFromUnixDays(days).year <= 9999
  {
    var date := CivilFromUnixDays(days);
    CivilIsValid(days);
    YearFromDays(date, days);
  }

  lemma YearFromDays(date: Date, days: int)
    requires Valid(date) && UnixDaysFromCivil(date.year, date.month, date.day) == days
    ensures days >= -719_468 ==> date.year >= 0
    ensures days >= -719_162 <==> date.year >= 1
    ensures days <= 2_932_896 <==> date.year <= 9999
  {
    var y := if date.month <= 2 then date.year - 1 else date.year;
    var doy := (153 * MonthPrime(date.month) + 2) / 5 + date.day - 1;
    assert days == YearDays(y) + doy - 719_468 by {
      UnixDaysForm(date.year, date.month, date.day);
    }
    assert 0 <= doy <= 365 && (date.month <= 2 <==> doy >= 306) by {
      MarchDateOfDate(date);
    }
    YearBounds(y, doy, days);
  }

  lemma YearBounds(y: int, doy: int, days: int)
    requires 0 <= doy <= 365 && days == YearDays(y) + doy - 719_468
    ensures days >= -719_468 ==> y >= 0
    ensures days >= -719_162 <==> y >= 1 || (y == 0 && doy >= 306)
    ensures days <= 2_932_896 <==> y <= 9998 || (y == 9999 && doy < 306)
  {
    YearDaysBounds(y);
  }

  lemma YearDaysBounds(y: int)
    ensures y <= -1 ==> YearDays(y) <= -366
    ensures y <= 0 ==> YearDays(y) <= 0
    ensures y >= 0 ==> YearDays(y) >= 0
    ensures y >= 1 ==> YearDays(y) >= 365
    ensures y <= 9998 ==> YearDays(y) <= 3_651_696
    ensures y == 9999 ==> YearDays(y) == 3_652_059
    ensures y >= 10_000 ==> YearDays(y) >= 3_652_424
  {
  }

  /** Order of strings by their characters, as `str` compares. */
  predicate LexLe(a: string, b: string) {
    a == "" || (b != "" && (a[0] < b[0] || (a[0] == b[0] && LexLe(a[1..], b[1..]))))
  }

  predicate DateShape(date: string) {
    |date| == 10 && forall i :: 0 <= i < 10 ==> if i == 4 || i == 7 then date[i] == '-' else IsDigit(date[i])
  }

  predicate NotAfter(date: string, today: string) {
    DateShape(date) && LexLe(date, today)
  }

  predicate IsReleased(date: string, today: string) {
    NotAfter(Trim(date), today)
  }

  /** Among numbers of the same width, order of the digits is order of the numbers. */
  lemma {:induction false} LexFixed(n: nat, m: nat, width: nat, s: string, t: string)
    requires n < Pow10(width) && m < Pow10(width)
    ensures LexLe(Fixed(n, width) + s, Fixed(m, width) + t) <==> n < m || (n == m && LexLe(s, t))
  {
    if width == 0 {
      assert "" + s == s && "" + t == t;
    } else {
      var s', t' := [Digit(n % 10)] + s, [Digit(m % 10)] + t;
      LexFixed(n / 10, m / 10, width - 1, s', t');
      assert Fixed(n, width) + s == Fixed(n / 10, width - 1) + s';
      assert Fixed(m, width) + t == Fixed(m / 10, width - 1) + t';
      assert s'[1..] == s && t'[1..] == t;
      assert s'[0] < t'[0] <==> n % 10 < m % 10;
    }
  }

  lemma LexSame(c: char, s: string, t: string)
    ensures LexLe([c] + s, [c] + t) <==> LexLe(s, t)
  {
    assert ([c] + s)[1..] == s && ([c] + t)[1..] == t;
  }

  lemma ShowFixed(date: Date)
    requires Valid(date) && 0 <= date.year <= 9999
    ensures Show(date) == Fixed(date.year, 4) + (['-'] + (Fixed(date.month, 2) + (['-'] + (Fixed(date.day, 2) + ""))))
  {
    assert Pow10(4) == 10_000 && Pow10(2) == 100 by {
      assert Pow10(1) == 10;
      assert Pow10(3) == 1000;
    }
    PaddedIsFixed(date.year, 4);
    PaddedIsFixed(date.month, 2);
    PaddedIsFixed(date.day, 2);
  }

  /** Calendar order, field by field. */
  predicate NotLater(a: Date, b: Date) {
    a.year < b.year || (a.year == b.year && (a.month < b.month || (a.month == b.month && a.day <= b.day)))
  }

  /** Up to year 9999, text order is calendar order. */
  lemma TextOrder(a: Date, b: Date)
    requires Valid(a) && Valid(b) && 0 <= a.year <= 9999 && 0 <= b.year <= 9999
    ensures LexLe(Show(a), Show(b))
            <==> NotLater(a, b)
  {
    ShowFixed(a);
    ShowFixed(b);
    assert Pow10(4) == 10_000 && Pow10(2) == 100 by {
      assert Pow10(1) == 10;
      assert Pow10(3) == 1000;
    }
    var a2, b2 := Fixed(a.day, 2) + "", Fixed(b.day, 2) + "";
    var a1, b1 := Fixed(a.month, 2) + (['-'] + a2), Fixed(b.month, 2) + (['-'] + b2);
    LexFixed(a.year, b.year, 4, ['-'] + a1, ['-'] + b1);
    LexSame('-', a1, b1);
    LexFixed(a.month, b.month, 2, ['-'] + a2, ['-'] + b2);
    LexSame('-', a2, b2);
    LexFixed(a.day, b.day, 2, "", "");
  }

  lemma {:induction false} YearsGrow(a: int, b: int)
    requires 1 <= a < b
    ensures DaysBeforeYear(a) + (if Leap(a) then 366 else 365) <= DaysBeforeYear(b)
    decreases b - a
  {
    if a < b - 1 {
      YearsGrow(a, b - 1);
    }
  }

  lemma {:induction false} MonthsGrow(year: int, a: int, b: int)
    requires 1 <= a < b <= 12
    ensures DaysBeforeMonth(year, a) + DaysInMonth(year, a) <= DaysBeforeMonth(year, b)
    decreases b - a
  {
    if a < b - 1 {
      MonthsGrow(year, a, b - 1);
    }
  }

  lemma Earlier(a: Date, b: Date)
    requires Valid(a) && Valid(b) && a.year >= 1 && b.year >= 1
    requires a.year < b.year || (a.year == b.year && (a.month < b.month || (a.month == b.month && a.day < b.day)))
    ensures UnixDaysFromCivil(a.year, a.month, a.day) < UnixDaysFromCivil(b.year, b.month, b.day)
  {
    DaysFromYear1(a);
    DaysFromYear1(b);
    if a.year < b.year {
      YearsGrow(a.year, b.year);
      MonthLengths(a.year, a.month);
      MonthLengths(b.year, b.month);
    } else if a.month < b.month {
      MonthsGrow(a.year, a.month, b.month);
    }
  }

  lemma CalendarOrder(a: Date, b: Date)
    requires Valid(a) && Valid(b) && a.year >= 1 && b.year >= 1
    ensures UnixDaysFromCivil(a.year, a.month, a.day) <= UnixDaysFromCivil(b.year, b.month, b.day)
            <==> NotLater(a, b)
  {
    if a.year < b.year || (a.year == b.year && (a.month < b.month || (a.month == b.month && a.day < b.day))) {
      Earlier(a, b);
    } else if a != b {
      Earlier(b, a);
    }
  }

  lemma TrimTwice(s: string)
    ensures Trim(Trim(s)) == Trim(s)
  {
    TrimIsTrimmed(s);
    TrimOfTrimmed(Trim(s));
  }

  /** White space around a release date does not count, and a text that is no date is never released. */
  lemma ReleasedAsTrimmed(date: string, today: string)
    ensures IsReleased(date, today) <==> IsReleased(Trim(date), today)
    ensures IsReleased(date, today) ==>
              && |Trim(date)| == 10 && Trim(date)[4] == '-' && Trim(date)[7] == '-'
              && forall i :: 0 <= i < 10 && i != 4 && i != 7 ==> '0' <= Trim(date)[i] <= '9'
  {
    TrimTwice(date);
  }

  /** The release check compares days: a release date passes exactly when it is not after today. */
  lemma ReleasedIffNotAfterToday(date: Date, today: int)
    requires Valid(date) && 1 <= date.year <= 9999 && -719_162 <= today <= 2_932_896
    ensures IsReleased(Show(date), UtcDate(today)) <==> UnixDaysFromCivil(date.year, date.month, date.day) <= today
  {
    var now := CivilFromUnixDays(today);
    assert 1 <= now.year <= 9999 by {
      CivilYear(today);
    }
    assert Valid(now) && UnixDaysFromCivil(now.year, now.month, now.day) == today by {
      CivilIsValid(today);
    }
    assert NotAfter(Show(date), Show(now)) <==> NotLater(date, now) by {
      ShowOrder(date, now);
    }
    assert NotLater(date, now) <==> UnixDaysFromCivil(date.year, date.month, date.day) <= today by {
      CalendarOrder(date, now);
    }
    assert Trim(Show(date)) == Show(date) by {
      ShowShape(date);
      TrimOfTrimmed(Show(date));
    }
    assert UtcDate(today) == Show(now);
  }

  lemma ShowOrder(date: Date, now: Date)
    requires Valid(date) && 1 <= date.year <= 9999 && Valid(now) && 1 <= now.year <= 9999
    ensures NotAfter(Show(date), Show(now)) <==> NotLater(date, now)
  {
    NotAfterText(Show(date), Show(now), NotLater(date, now)) by {
      ShowShape(date);
      TextOrder(date, now);
    }
  }

  lemma NotAfterText(date: string, today: string, order: bool)
    requires DateShape(date) && (LexLe(date, today) <==> order)
    ensures NotAfter(date, today) <==> order
  {
  }

  lemma ShowShape(date: Date)
    requires Valid(date) && 0 <= date.year <= 9999
    ensures Trimmed(Show(date)) && DateShape(Show(date))
  {
    ShowFixed(date);
    ShapeOf(Fixed(date.year, 4), Fixed(date.month, 2), Fixed(date.day, 2), Show(date));
  }

  lemma ShapeOf(y: string, m: string, d: string, s: string)
    requires |y| == 4 && |m| == 2 && |d| == 2 && AllDigits(y) && AllDigits(m) && AllDigits(d)
    requires s == y + (['-'] + (m + (['-'] + (d + ""))))
    ensures DateShape(s) && Trimmed(s)
  {
    forall i | 0 <= i < 10 ensures if i == 4 || i == 7 then s[i] == '-' else IsDigit(s[i]) {
      if i < 4 {
        assert s[i] == y[i] && y[i] in y;
      } else if 4 < i < 7 {
        assert s[i] == m[i - 5] && m[i - 5] in m;
      } else if i > 7 {
        assert s[i] == d[i - 8] && d[i - 8] in d;
      }
    }
  }
}
