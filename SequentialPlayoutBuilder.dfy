/**
 * The sequential (YAML) playout builder: the schedule windows that pick
 * which instruction list applies on a date, the merge of imported
 * definitions, the flattening of sequence instructions, the instruction
 * loop, and the pruning of playout history.
 *
 * Instruction handlers, the enumerators they draw from, the YAML loader and
 * the cycle test of the sequence graph are parameters; dates come from a
 * parameter that maps an instant to its calendar date in the playout's
 * offset.
 */
module SequentialPlayoutBuilder {
  import opened Common
  import opened PlayoutTypes

  // ---------------------------------------------------------------------
  // Calendar dates as System.DateTime sees them
  // ---------------------------------------------------------------------

  datatype CivilDate = CivilDate(year: int, month: int, day: int)

  predicate IsLeapYear(y: int)
  {
    y % 4 == 0 && (y % 100 != 0 || y % 400 == 0)
  }

  function DaysInMonth(y: int, m: int): (r: int)
    requires 1 <= m <= 12
    ensures 28 <= r <= 31
    ensures m == 2 ==> (r == 29 <==> IsLeapYear(y))
  {
    if m == 2 then (if IsLeapYear(y) then 29 else 28)
    else if m == 4 || m == 6 || m == 9 || m == 11 then 30
    else 31
  }

  function DaysInYear(y: int): int
  {
    if IsLeapYear(y) then 366 else 365
  }

  /** The dates `new DateTime(year, month, day)` accepts; it throws for any other. */
  predicate ValidDate(d: CivilDate)
  {
    1 <= d.year <= 9999 && 1 <= d.month <= 12 && 1 <= d.day <= DaysInMonth(d.year, d.month)
  }

  /** The calendar date of a DateTimeOffset, which is always a valid date. */
  type Date = d: CivilDate | ValidDate(d) witness CivilDate(1, 1, 1)

  /** Days of the year `y` before the first of month `m`. */
  function DaysBeforeMonth(y: int, m: int): nat
    requires 1 <= m <= 13
  {
    if m == 1 then 0 else DaysBeforeMonth(y, m - 1) + DaysInMonth(y, m - 1)
  }

  /** DateTime.DayOfYear. */
  function DayOfYear(d: CivilDate): (r: int)
    requires ValidDate(d)
    ensures r >= 1
  {
    DaysBeforeMonth(d.year, d.month) + d.day
  }

  /** Days from 0001-01-01 to the first of January of year `y`. */
  function DaysBeforeYear(y: int): int
    requires y >= 1
  {
    var p := y - 1;
    365 * p + p / 4 - p / 100 + p / 400
  }

  /** DateTime.Ticks / TicksPerDay: the day number DateTime compares dates by. */
  function DayNumber(d: CivilDate): int
    requires ValidDate(d)
  {
    DaysBeforeYear(d.year) + DayOfYear(d) - 1
  }

  /** Month-and-day order within one year. */
  predicate MonthDayAtMost(m1: int, d1: int, m2: int, d2: int)
  {
    m1 < m2 || (m1 == m2 && d1 <= d2)
  }

  /** Calendar order: year, then month, then day. */
  predicate DateAtMost(a: CivilDate, b: CivilDate)
  {
    a.year < b.year || (a.year == b.year && MonthDayAtMost(a.month, a.day, b.month, b.day))
  }

  lemma {:induction false} DaysBeforeMonthGrows(y: int, a: int, b: int)
    requires 1 <= a < b <= 13
    ensures DaysBeforeMonth(y, a) + DaysInMonth(y, a) <= DaysBeforeMonth(y, b)
    decreases b - a
  {
    if a + 1 < b {
      DaysBeforeMonthGrows(y, a, b - 1);
    }
  }

  /** The months of a year add up to the length of the year. */
  lemma {:induction false} DaysBeforeMonthsOfYear(y: int)
    ensures DaysBeforeMonth(y, 13) == DaysInYear(y)
  {
    assert DaysBeforeMonth(y, 2) == 31;
    assert DaysBeforeMonth(y, 3) == 31 + DaysInMonth(y, 2);
    assert DaysBeforeMonth(y, 4) == 62 + DaysInMonth(y, 2);
    assert DaysBeforeMonth(y, 5) == 92 + DaysInMonth(y, 2);
    assert DaysBeforeMonth(y, 6) == 123 + DaysInMonth(y, 2);
    assert DaysBeforeMonth(y, 7) == 153 + DaysInMonth(y, 2);
    assert DaysBeforeMonth(y, 8) == 184 + DaysInMonth(y, 2);
    assert DaysBeforeMonth(y, 9) == 215 + DaysInMonth(y, 2);
    assert DaysBeforeMonth(y, 10) == 245 + DaysInMonth(y, 2);
    assert DaysBeforeMonth(y, 11) == 276 + DaysInMonth(y, 2);
    assert DaysBeforeMonth(y, 12) == 306 + DaysInMonth(y, 2);
  }

  /** A valid date's day of the year is within its year. */
  lemma {:induction false} DayOfYearWithinYear(d: CivilDate)
    requires ValidDate(d)
    ensures DayOfYear(d) <= DaysInYear(d.year)
  {
    DaysBeforeMonthsOfYear(d.year);
    if d.month < 12 {
      DaysBeforeMonthGrows(d.year, d.month, 13);
    }
  }

  /** Day of the year orders the dates of one year by month, then day. */
  lemma {:induction false} DayOfYearOrder(a: CivilDate, b: CivilDate)
    requires ValidDate(a) && ValidDate(b) && a.year == b.year
    ensures DayOfYear(a) <= DayOfYear(b) <==> MonthDayAtMost(a.month, a.day, b.month, b.day)
  {
    if a.month < b.month {
      DaysBeforeMonthGrows(a.year, a.month, b.month);
    } else if b.month < a.month {
      DaysBeforeMonthGrows(a.year, b.month, a.month);
    }
  }

  lemma {:induction false} DivStep(n: int, k: int)
    requires n >= 1 && k > 0
    ensures n / k - (n - 1) / k == (if n % k == 0 then 1 else 0)
  {
    var q := (n - 1) / k;
    if (n - 1) % k == k - 1 {
      DivUnique(n, k, q + 1);
    } else {
      DivUnique(n, k, q);
    }
  }

  /** A multiple of `k * j` is a multiple of `k`. */
  lemma {:induction false} MultipleOfFactor(y: int, k: int, j: int)
    requires k > 0 && j > 0 && y % (k * j) == 0
    ensures y % k == 0
  {
    var q := y / (k * j);
    assert y == (k * j) * q;
    assert y == k * (j * q);
    DivUnique(y, k, j * q);
  }

  /** Consecutive years start one year-length apart. */
  lemma {:induction false} DaysBeforeNextYear(y: int)
    requires y >= 1
    ensures DaysBeforeYear(y + 1) == DaysBeforeYear(y) + DaysInYear(y)
  {
    DivStep(y, 4);
    DivStep(y, 100);
    DivStep(y, 400);
    if y % 100 == 0 {
      MultipleOfFactor(y, 4, 25);
    }
    if y % 400 == 0 {
      MultipleOfFactor(y, 100, 4);
    }
    var step := (y / 4 - (y - 1) / 4) - (y / 100 - (y - 1) / 100) + (y / 400 - (y - 1) / 400);
    assert step == (if IsLeapYear(y) then 1 else 0);
    assert DaysBeforeYear(y + 1) - DaysBeforeYear(y) == 365 + step;
  }

  lemma {:induction false} DaysBeforeYearGrows(a: int, b: int)
    requires 1 <= a < b
    ensures DaysBeforeYear(a) + DaysInYear(a) <= DaysBeforeYear(b)
    decreases b - a
  {
    DaysBeforeNextYear(a);
    if a + 1 < b {
      DaysBeforeYearGrows(a + 1, b);
    }
  }

  /** Comparing DateTime values compares calendar dates. */
  lemma {:induction false} DayNumberOrder(a: CivilDate, b: CivilDate)
    requires ValidDate(a) && ValidDate(b)
    ensures DayNumber(a) <= DayNumber(b) <==> DateAtMost(a, b)
  {
    if a.year == b.year {
      DayOfYearOrder(a, b);
    } else if a.year < b.year {
      DayOfYearWithinYear(a);
      DaysBeforeYearGrows(a.year, b.year);
    } else {
      DayOfYearWithinYear(b);
      DaysBeforeYearGrows(b.year, a.year);
    }
  }

  // ---------------------------------------------------------------------
  // Schedule dates: "MM-DD" or "YYYY-MM-DD"
  // ---------------------------------------------------------------------

  const Int32Max: int := 2147483647

  /**
   * int.Parse with the invariant culture on a piece of a date: optional
   * surrounding white space, an optional '+', decimal digits, and a value
   * that fits an Int32. (No piece can hold a '-': the date was split on it.)
   */
  function ParseInt(s: string): (r: Option<int>)
    ensures r.Some? ==> 0 <= r.value <= Int32Max
  {
    var t := Trim(s);
    var digits := if |t| > 0 && t[0] == '+' then t[1..] else t;
    match ParseNat(digits)
    case Some(n) => if n <= Int32Max then Some(n) else None
    case None => None
  }

  /** Month, day and, for "YYYY-MM-DD", the year. */
  datatype DateParts = DateParts(month: int, day: int, year: Option<int>)

  /**
   * ParseDate: two '-'-separated pieces are month and day, three are year,
   * month and day; any other shape, or a piece that is not a number, is the
   * FormatException the source throws.
   */
  function ParseDate(s: string): (r: Result<DateParts>)
    ensures r.Ok? ==> |Split(s, '-')| == 2 || |Split(s, '-')| == 3
    ensures r.Ok? ==> (r.value.year.None? <==> |Split(s, '-')| == 2)
    ensures r.Ok? ==> 0 <= r.value.month <= Int32Max && 0 <= r.value.day <= Int32Max
  {
    var parts := Split(s, '-');
    if |parts| == 2 then
      match (ParseInt(parts[0]), ParseInt(parts[1]))
      case (Some(m), Some(d)) => Ok(DateParts(m, d, None))
      case _ => Err("Invalid date format: " + s)
    else if |parts| == 3 then
      match (ParseInt(parts[1]), ParseInt(parts[2]), ParseInt(parts[0]))
      case (Some(m), Some(d), Some(y)) => Ok(DateParts(m, d, Some(y)))
      case _ => Err("Invalid date format: " + s)
    else Err("Invalid date format: " + s + ". Expected MM-DD or YYYY-MM-DD.")
  }

  /** The "MM-DD" / "YYYY-MM-DD" text of a date, without zero padding. */
  function FormatDate(p: DateParts): string
    requires p.month >= 0 && p.day >= 0 && (p.year.Some? ==> p.year.value >= 0)
  {
    var md := NatToString(p.month) + "-" + NatToString(p.day);
    if p.year.Some? then NatToString(p.year.value) + "-" + md else md
  }

  lemma {:induction false} SplitWithout(a: string, sep: char)
    requires sep !in a
    ensures Split(a, sep) == [a]
  {
    if |a| > 0 {
      SplitWithout(a[1..], sep);
      assert [a[0]] + a[1..] == a;
    }
  }

  lemma {:induction false} SplitAtFirst(a: string, rest: string, sep: char)
    requires sep !in a
    ensures Split(a + [sep] + rest, sep) == [a] + Split(rest, sep)
  {
    if |a| > 0 {
      var s := a + [sep] + rest;
      assert s[0] == a[0] && s[1..] == a[1..] + [sep] + rest;
      SplitAtFirst(a[1..], rest, sep);
      assert [a[0]] + a[1..] == a;
    } else {
      assert a + [sep] + rest == [sep] + rest;
      assert ([sep] + rest)[1..] == rest;
    }
  }

  lemma {:induction false} ParseIntOfNat(n: nat)
    requires n <= Int32Max
    ensures ParseInt(NatToString(n)) == Some(n)
  {
    var s := NatToString(n);
    assert !IsWhiteSpace(s[0]) && !IsWhiteSpace(s[|s| - 1]);
    assert TrimStart(s) == s;
    assert TrimEnd(s) == s;
    ParseNatRoundTrip(n);
  }

  /** Every formatted date parses back to itself. */
  lemma {:induction false} ParseDateRoundTrip(p: DateParts)
    requires 0 <= p.month <= Int32Max && 0 <= p.day <= Int32Max
    requires p.year.Some? ==> 0 <= p.year.value <= Int32Max
    ensures ParseDate(FormatDate(p)) == Ok(p)
  {
    var m, d := NatToString(p.month), NatToString(p.day);
    ParseIntOfNat(p.month);
    ParseIntOfNat(p.day);
    if p.year.Some? {
      var y := NatToString(p.year.value);
      ParseIntOfNat(p.year.value);
      SplitThree(y, m, d);
      assert FormatDate(p) == y + "-" + (m + "-" + d);
      ParseThreePieces(FormatDate(p), y, m, d);
    } else {
      SplitTwo(m, d);
      assert FormatDate(p) == m + "-" + d;
      ParseTwoPieces(FormatDate(p), m, d);
    }
  }

  lemma {:induction false} ParseTwoPieces(s: string, m: string, d: string)
    requires Split(s, '-') == [m, d] && ParseInt(m).Some? && ParseInt(d).Some?
    ensures ParseDate(s) == Ok(DateParts(ParseInt(m).value, ParseInt(d).value, None))
  {
  }

  lemma {:induction false} ParseThreePieces(s: string, y: string, m: string, d: string)
    requires Split(s, '-') == [y, m, d] && ParseInt(y).Some? && ParseInt(m).Some? && ParseInt(d).Some?
    ensures ParseDate(s) == Ok(DateParts(ParseInt(m).value, ParseInt(d).value, Some(ParseInt(y).value)))
  {
  }

  lemma {:induction false} SplitTwo(m: string, d: string)
    requires '-' !in m && '-' !in d
    ensures Split(m + "-" + d, '-') == [m, d]
  {
    SplitWithout(d, '-');
    SplitAtFirst(m, d, '-');
    assert m + "-" + d == m + ['-'] + d;
  }

  lemma {:induction false} SplitThree(y: string, m: string, d: string)
    requires '-' !in y && '-' !in m && '-' !in d
    ensures Split(y + "-" + (m + "-" + d), '-') == [y, m, d]
  {
    SplitTwo(m, d);
    SplitAtFirst(y, m + "-" + d, '-');
    assert y + "-" + (m + "-" + d) == y + ['-'] + (m + "-" + d);
  }

  // ---------------------------------------------------------------------
  // Schedule windows
  // ---------------------------------------------------------------------

  /**
   * IsDateInSchedule on the window's two date strings. A blank bound means
   * no window; a bound that does not parse, or a date DateTime rejects
   * (month 13, or 02-29 of a common year for a recurring window), is the
   * exception the source lets escape.
   */
  function IsDateInSchedule(startDate: string, endDate: string, date: Date): (r: Result<bool>)
    ensures IsBlank(startDate) || IsBlank(endDate) ==> r == Ok(false)
    ensures !IsBlank(startDate) && !IsBlank(endDate) && (ParseDate(startDate).Err? || ParseDate(endDate).Err?)
            ==> r.Err?
    ensures r == Ok(true) ==>
              ParseDate(startDate).Ok? && ParseDate(endDate).Ok?
              && (ParseDate(startDate).value.year.Some? <==> ParseDate(endDate).value.year.Some?)
  {
    if IsBlank(startDate) || IsBlank(endDate) then Ok(false)
    else
      match (ParseDate(startDate), ParseDate(endDate))
      case (Ok(s), Ok(e)) =>
        if s.year.Some? && e.year.Some? then
          var sd := CivilDate(s.year.value, s.month, s.day);
          var ed := CivilDate(e.year.value, e.month, e.day);
          if !ValidDate(sd) || !ValidDate(ed) then Err("date out of range")
          else Ok(DayNumber(date) >= DayNumber(sd) && DayNumber(date) <= DayNumber(ed))
        else if s.year.Some? || e.year.Some? then Ok(false)
        else
          var sd := CivilDate(date.year, s.month, s.day);
          var ed := CivilDate(date.year, e.month, e.day);
          if !ValidDate(sd) || !ValidDate(ed) then Err("date out of range")
          else
            var today, first, last := DayOfYear(date), DayOfYear(sd), DayOfYear(ed);
            if first <= last then Ok(today >= first && today <= last)
            else Ok(today >= first || today <= last)
      case (Err(e), _) => Err(e)
      case (_, Err(e)) => Err(e)
  }

  /** A window with a year on both bounds is the inclusive range of calendar dates between them. */
  lemma {:induction false} YearWindow(startDate: string, endDate: string, date: Date, s: CivilDate, e: CivilDate)
    requires !IsBlank(startDate) && !IsBlank(endDate)
    requires ParseDate(startDate) == Ok(DateParts(s.month, s.day, Some(s.year)))
    requires ParseDate(endDate) == Ok(DateParts(e.month, e.day, Some(e.year)))
    ensures ValidDate(s) && ValidDate(e) ==>
              IsDateInSchedule(startDate, endDate, date) == Ok(DateAtMost(s, date) && DateAtMost(date, e))
    ensures !ValidDate(s) || !ValidDate(e) ==> IsDateInSchedule(startDate, endDate, date).Err?
  {
    if ValidDate(s) && ValidDate(e) {
      DayNumberOrder(s, date);
      DayNumberOrder(date, e);
    }
  }

  /** A window with a year on only one bound never matches. */
  lemma {:induction false} MixedWindow(startDate: string, endDate: string, date: Date)
    requires !IsBlank(startDate) && !IsBlank(endDate)
    requires ParseDate(startDate).Ok? && ParseDate(endDate).Ok?
    requires ParseDate(startDate).value.year.Some? != ParseDate(endDate).value.year.Some?
    ensures IsDateInSchedule(startDate, endDate, date) == Ok(false)
  {
  }

  /**
   * A recurring "MM-DD" window is the inclusive month-and-day range, read in
   * the date's own year; when the start comes after the end the window wraps
   * across the new year.
   */
  lemma {:induction false} RecurringWindow(startDate: string, endDate: string, date: Date, sm: int, sd: int, em: int, ed: int)
    requires !IsBlank(startDate) && !IsBlank(endDate)
    requires ParseDate(startDate) == Ok(DateParts(sm, sd, None))
    requires ParseDate(endDate) == Ok(DateParts(em, ed, None))
    ensures ValidDate(CivilDate(date.year, sm, sd)) && ValidDate(CivilDate(date.year, em, ed)) ==>
              IsDateInSchedule(startDate, endDate, date) ==
                Ok(if MonthDayAtMost(sm, sd, em, ed)
                   then MonthDayAtMost(sm, sd, date.month, date.day) && MonthDayAtMost(date.month, date.day, em, ed)
                   else MonthDayAtMost(sm, sd, date.month, date.day) || MonthDayAtMost(date.month, date.day, em, ed))
    ensures !ValidDate(CivilDate(date.year, sm, sd)) || !ValidDate(CivilDate(date.year, em, ed)) ==>
              IsDateInSchedule(startDate, endDate, date).Err?
  {
    var s, e := CivilDate(date.year, sm, sd), CivilDate(date.year, em, ed);
    if ValidDate(s) && ValidDate(e) {
      DayOfYearOrder(s, e);
      DayOfYearOrder(s, date);
      DayOfYearOrder(date, e);
      if !MonthDayAtMost(sm, sd, em, ed) {
        DayOfYearOrder(e, s);
      }
    }
  }

  /** A recurring window starting on 29 February cannot be read in a common year. */
  lemma {:induction false} LeapDayWindowFailsInCommonYears(startDate: string, endDate: string, date: Date)
    requires !IsBlank(startDate) && !IsBlank(endDate)
    requires ParseDate(startDate) == Ok(DateParts(2, 29, None))
    requires ParseDate(endDate).Ok? && ParseDate(endDate).value.year.None?
    requires !IsLeapYear(date.year)
    ensures IsDateInSchedule(startDate, endDate, date).Err?
  {
    assert !ValidDate(CivilDate(date.year, 2, 29));
  }

  // ---------------------------------------------------------------------
  // Instructions, sequences and schedules
  // ---------------------------------------------------------------------

  /**
   * What the builder itself looks at in an instruction. A sequence
   * instruction names a sequence and a repeat count; every other kind of
   * instruction has a handler, which may move the instruction index itself
   * (ChangesIndex) and may or may not run on reset.
   */
  datatype InstructionKind =
    | SequenceInstruction(sequence: string, repeat: int)
    | HandledInstruction(tag: string, changesIndex: bool, runsOnReset: bool)

  /** An instruction object; flattening writes its sequence key and custom title in place. */
  class Instruction {
    const kind: InstructionKind
    var customTitle: Option<string>
    var sequenceKey: Option<string>

    constructor (kind: InstructionKind, customTitle: Option<string>)
      ensures this.kind == kind && this.customTitle == customTitle && sequenceKey == None
    {
      this.kind := kind;
      this.customTitle := customTitle;
      sequenceKey := None;
    }
  }

  /** An instruction list that flattening clears and refills in place. */
  class InstructionList {
    var items: seq<Instruction>

    constructor (items: seq<Instruction>)
      ensures this.items == items
    {
      this.items := items;
    }
  }

  datatype SequenceItem = SequenceItem(key: string, items: seq<Instruction>)

  /** A content entry of the definition: its key and the rest of its YAML, which the builder passes on. */
  datatype ContentItem = ContentItem(key: string, body: string)

  datatype Schedule = Schedule(
    name: string,
    startDate: string,
    endDate: string,
    reset: seq<Instruction>,
    playout: InstructionList)

  datatype Definition = Definition(
    content: seq<ContentItem>,
    sequences: seq<SequenceItem>,
    reset: seq<Instruction>,
    playout: InstructionList,
    schedules: seq<Schedule>)

  function InSchedule(schedule: Schedule, date: Date): Result<bool>
  {
    IsDateInSchedule(schedule.startDate, schedule.endDate, date)
  }

  /** Each schedule's answer for `date`, in order. */
  function Verdicts(schedules: seq<Schedule>, date: Date): (r: seq<Result<bool>>)
    ensures |r| == |schedules| && forall j :: 0 <= j < |r| ==> r[j] == InSchedule(schedules[j], date)
  {
    seq(|schedules|, j requires 0 <= j < |schedules| => InSchedule(schedules[j], date))
  }

  /**
   * The scan of GetActiveSchedule from position `i` on: the first window
   * that holds the date, none when no window does, and the first exception
   * when one is raised before a match.
   */
  function FirstMatchFrom(verdicts: seq<Result<bool>>, i: nat): (r: Result<Option<nat>>)
    requires i <= |verdicts|
    ensures r.Ok? && r.value.Some? ==>
              i <= r.value.value < |verdicts| && verdicts[r.value.value] == Ok(true)
              && forall j :: i <= j < r.value.value ==> verdicts[j] == Ok(false)
    ensures r == Ok(None) <==> forall j :: i <= j < |verdicts| ==> verdicts[j] == Ok(false)
    ensures r.Err? ==>
              exists j :: i <= j < |verdicts| && verdicts[j].Err? && r.error == verdicts[j].error
                          && forall k :: i <= k < j ==> verdicts[k] == Ok(false)
    decreases |verdicts| - i
  {
    if i == |verdicts| then Ok(None)
    else
      match verdicts[i]
      case Err(e) => Err(e)
      case Ok(b) => if b then Ok(Some(i)) else FirstMatchFrom(verdicts, i + 1)
  }

  /** GetActiveSchedule: the position of the schedule in force on `date`, if any. */
  function ActiveSchedule(schedules: seq<Schedule>, date: Date): (r: Result<Option<nat>>)
    ensures r.Ok? && r.value.Some? ==> r.value.value < |schedules|
  {
    FirstMatchFrom(Verdicts(schedules, date), 0)
  }

  // ---------------------------------------------------------------------
  // Imports
  // ---------------------------------------------------------------------

  /** The keys of `s` as OrdinalIgnoreCase compares them. */
  function FoldedKeys<T>(s: seq<T>, key: T -> string): (r: seq<string>)
    ensures |r| == |s| && forall i :: 0 <= i < |s| ==> r[i] == ToLower(key(s[i]))
  {
    if s == [] then [] else FoldedKeys(s[..|s| - 1], key) + [ToLower(key(s[|s| - 1]))]
  }

  /** Some element of `s` has key `k`, ignoring case. */
  predicate HasKey<T>(s: seq<T>, key: T -> string, k: string)
  {
    ToLower(k) in FoldedKeys(s, key)
  }

  /**
   * The imported entries an import keeps: each one whose key matches no key
   * already present, counting the entries this same import added before it.
   */
  function NewEntries<T>(existing: seq<T>, imported: seq<T>, key: T -> string): (r: seq<T>)
    ensures forall x :: x in r ==> x in imported
  {
    if imported == [] then []
    else
      var init := imported[..|imported| - 1];
      var x := imported[|imported| - 1];
      var kept := NewEntries(existing, init, key);
      kept + (if HasKey(existing + kept, key, key(x)) then [] else [x])
  }

  lemma {:induction false} FoldedKeysAppend<T>(a: seq<T>, b: seq<T>, key: T -> string)
    ensures FoldedKeys(a + b, key) == FoldedKeys(a, key) + FoldedKeys(b, key)
  {
    assert forall i :: 0 <= i < |a + b| ==> FoldedKeys(a + b, key)[i] == (FoldedKeys(a, key) + FoldedKeys(b, key))[i];
  }

  /** After an import, the keys present are those of the existing entries and of every imported one. */
  lemma {:induction false} NewEntriesKeys<T>(existing: seq<T>, imported: seq<T>, key: T -> string)
    ensures forall z :: z in FoldedKeys(existing + NewEntries(existing, imported, key), key)
                        <==> z in FoldedKeys(existing + imported, key)
  {
    if imported != [] {
      var init := imported[..|imported| - 1];
      var x := imported[|imported| - 1];
      var kept := NewEntries(existing, init, key);
      NewEntriesKeys(existing, init, key);
      assert NewEntries(existing, imported, key)
          == kept + (if HasKey(existing + kept, key, key(x)) then [] else [x]);
      assert existing + imported == (existing + init) + [x];
      FoldedKeysAppend(existing + init, [x], key);
      if !HasKey(existing + kept, key, key(x)) {
        assert existing + (kept + [x]) == (existing + kept) + [x];
        FoldedKeysAppend(existing + kept, [x], key);
      } else {
        assert kept + [] == kept;
      }
    }
  }

  /**
   * One import's AddRange over a Where that is evaluated as it adds: an
   * imported entry is appended when no entry present at that moment has the
   * same key, ignoring case.
   */
  method MergeImported<T(==)>(existing: seq<T>, imported: seq<T>, key: T -> string) returns (merged: seq<T>)
    ensures merged == existing + NewEntries(existing, imported, key)
  {
    merged := existing;
    var j := 0;
    while j < |imported|
      invariant 0 <= j <= |imported|
      invariant merged == existing + NewEntries(existing, imported[..j], key)
    {
      assert imported[..j + 1][..j] == imported[..j];
      if !HasKey(merged, key, key(imported[j])) {
        merged := merged + [imported[j]];
      }
      j := j + 1;
    }
    assert imported[..j] == imported;
  }

  /** Every imported key is present after the merge. */
  lemma {:induction false} MergeCoversImports<T>(existing: seq<T>, imported: seq<T>, key: T -> string)
    ensures forall x :: x in imported ==> HasKey(existing + NewEntries(existing, imported, key), key, key(x))
  {
    NewEntriesKeys(existing, imported, key);
    forall x | x in imported
      ensures HasKey(existing + imported, key, key(x))
    {
      var i :| 0 <= i < |imported| && imported[i] == x;
      assert FoldedKeys(existing + imported, key)[|existing| + i] == ToLower(key(x));
    }
  }

  /** No two entries share a key, ignoring case. */
  predicate DistinctKeys<T>(s: seq<T>, key: T -> string)
  {
    forall i, j :: 0 <= i < j < |s| ==> ToLower(key(s[i])) != ToLower(key(s[j]))
  }

  /** Keys that were distinct ignoring case stay distinct after the merge. */
  lemma {:induction false} MergeKeepsKeysDistinct<T>(existing: seq<T>, imported: seq<T>, key: T -> string)
    requires DistinctKeys(existing, key)
    ensures DistinctKeys(existing + NewEntries(existing, imported, key), key)
  {
    if imported != [] {
      var init := imported[..|imported| - 1];
      var x := imported[|imported| - 1];
      var kept := NewEntries(existing, init, key);
      MergeKeepsKeysDistinct(existing, init, key);
      var before := existing + kept;
      assert NewEntries(existing, imported, key)
          == kept + (if HasKey(before, key, key(x)) then [] else [x]);
      if !HasKey(before, key, key(x)) {
        var m := before + [x];
        assert existing + (kept + [x]) == m;
        forall i, j | 0 <= i < j < |m|
          ensures ToLower(key(m[i])) != ToLower(key(m[j]))
        {
          assert FoldedKeys(before, key)[i] == ToLower(key(before[i]));
          assert m[i] == before[i];
          if j < |before| {
            assert m[i] == before[i] && m[j] == before[j];
          }
        }
      } else {
        assert kept + [] == kept;
        assert existing + NewEntries(existing, imported, key) == before;
      }
    }
  }

  // ---------------------------------------------------------------------
  // Flattening sequence instructions
  // ---------------------------------------------------------------------

  /** Every instruction object held by some sequence. */
  function Pool(sequences: seq<SequenceItem>): set<Instruction>
  {
    set s, i | s in sequences && i in s.items :: i
  }

  /** The items of the first sequence whose key is `name` (ordinal comparison), or none. */
  function SequenceItemsFor(sequences: seq<SequenceItem>, name: string): (r: seq<Instruction>)
    ensures forall o :: o in r ==> o in Pool(sequences)
    ensures r == [] || exists k :: 0 <= k < |sequences| && sequences[k].key == name && r == sequences[k].items
  {
    if sequences == [] then []
    else if sequences[0].key == name then sequences[0].items
    else
      var r := SequenceItemsFor(sequences[1..], name);
      assert forall o :: o in Pool(sequences[1..]) ==> o in Pool(sequences) by {
        forall o | o in Pool(sequences[1..]) ensures o in Pool(sequences) {
          var t :| t in sequences[1..] && o in t.items;
          assert t in sequences;
        }
      }
      r
  }

  /** A repeat count of zero or less plays the sequence once. */
  function RepeatCount(repeat: int): (r: nat)
    ensures r >= 1 && (repeat > 0 ==> r == repeat)
  {
    if repeat > 0 then repeat else 1
  }

  /** `s`, `n` times over. */
  function Repeated<T>(s: seq<T>, n: nat): seq<T>
  {
    if n == 0 then [] else Repeated(s, n - 1) + s
  }

  lemma {:induction false} RepeatedHas<T>(s: seq<T>, n: nat, x: T)
    ensures x in Repeated(s, n) <==> n > 0 && x in s
  {
    if n > 1 {
      RepeatedHas(s, n - 1, x);
    }
  }

  lemma {:induction false} RepeatedLength<T>(s: seq<T>, n: nat)
    ensures |Repeated(s, n)| == n * |s|
  {
    if n > 0 {
      RepeatedLength(s, n - 1);
      assert n * |s| == (n - 1) * |s| + |s|;
    }
  }

  /** What one instruction becomes: a sequence instruction its sequence's items, repeated; any other itself. */
  function Expansion(instruction: Instruction, sequences: seq<SequenceItem>): seq<Instruction>
  {
    match instruction.kind
    case SequenceInstruction(name, repeat) => Repeated(SequenceItemsFor(sequences, name), RepeatCount(repeat))
    case HandledInstruction(_, _, _) => [instruction]
  }

  /** The instruction list after one flattening pass. */
  function Flattened(playout: seq<Instruction>, sequences: seq<SequenceItem>): seq<Instruction>
  {
    if playout == [] then []
    else Flattened(playout[..|playout| - 1], sequences) + Expansion(playout[|playout| - 1], sequences)
  }

  predicate HasSequenceInstruction(playout: seq<Instruction>)
  {
    exists k :: 0 <= k < |playout| && playout[k].kind.SequenceInstruction?
  }

  /** A list without sequence instructions is its own flattening. */
  lemma {:induction false} FlattenedWithoutSequences(playout: seq<Instruction>, sequences: seq<SequenceItem>)
    requires !HasSequenceInstruction(playout)
    ensures Flattened(playout, sequences) == playout
  {
    if playout != [] {
      var init := playout[..|playout| - 1];
      assert !HasSequenceInstruction(init) by {
        forall k | 0 <= k < |init| ensures !init[k].kind.SequenceInstruction? {
          assert init[k] == playout[k];
        }
      }
      FlattenedWithoutSequences(init, sequences);
      assert !playout[|playout| - 1].kind.SequenceInstruction?;
      assert init + [playout[|playout| - 1]] == playout;
    }
  }

  /** The instructions of `playout` that are not sequence instructions survive flattening, in order. */
  lemma {:induction false} FlattenedKeepsOthers(playout: seq<Instruction>, sequences: seq<SequenceItem>, k: nat)
    requires k < |playout| && !playout[k].kind.SequenceInstruction?
    ensures playout[k] in Flattened(playout, sequences)
  {
    var init := playout[..|playout| - 1];
    if k < |playout| - 1 {
      assert init[k] == playout[k];
      FlattenedKeepsOthers(init, sequences, k);
    }
  }

  /** Flattening draws only on the list itself and the sequences' items. */
  lemma {:induction false} FlattenedFrom(playout: seq<Instruction>, sequences: seq<SequenceItem>)
    ensures forall o :: o in Flattened(playout, sequences) ==>
              o in Pool(sequences) || (o in playout && !o.kind.SequenceInstruction?)
  {
    if playout != [] {
      var init := playout[..|playout| - 1];
      var last := playout[|playout| - 1];
      FlattenedFrom(init, sequences);
      assert forall o :: o in init ==> o in playout;
      if last.kind.SequenceInstruction? {
        var items := SequenceItemsFor(sequences, last.kind.sequence);
        forall o | o in Expansion(last, sequences) ensures o in Pool(sequences) {
          RepeatedHas(items, RepeatCount(last.kind.repeat), o);
        }
      }
    }
  }

  /** When no sequence holds a sequence instruction, one pass removes every sequence instruction. */
  lemma {:induction false} OnePassSuffices(playout: seq<Instruction>, sequences: seq<SequenceItem>)
    requires forall o :: o in Pool(sequences) ==> !o.kind.SequenceInstruction?
    ensures !HasSequenceInstruction(Flattened(playout, sequences))
  {
    FlattenedFrom(playout, sequences);
    var f := Flattened(playout, sequences);
    forall k | 0 <= k < |f| ensures !f[k].kind.SequenceInstruction? {
      assert f[k] in f;
    }
  }

  /** The name of the last sequence instruction in `playout` whose sequence holds `o`. */
  function LastSequenceOf(playout: seq<Instruction>, sequences: seq<SequenceItem>, o: Instruction): Option<string>
  {
    if playout == [] then None
    else
      var i := playout[|playout| - 1];
      if i.kind.SequenceInstruction? && o in SequenceItemsFor(sequences, i.kind.sequence) then Some(i.kind.sequence)
      else LastSequenceOf(playout[..|playout| - 1], sequences, o)
  }

  /**
   * The last non-blank custom title among the sequence instructions of
   * `playout` whose sequence holds `o`, each title as it read when its
   * instruction was expanded (`titles[k]` for `playout[k]`).
   */
  function LastCustomTitle(playout: seq<Instruction>, titles: seq<Option<string>>, sequences: seq<SequenceItem>,
                           o: Instruction): (r: Option<string>)
    requires |titles| == |playout|
    ensures r.Some? ==> !IsBlankOpt(r)
  {
    if playout == [] then None
    else
      var k := |playout| - 1;
      var i := playout[k];
      if i.kind.SequenceInstruction? && o in SequenceItemsFor(sequences, i.kind.sequence) && !IsBlankOpt(titles[k])
      then titles[k]
      else LastCustomTitle(playout[..k], titles[..k], sequences, o)
  }

  /**
   * Tags each item of one repetition of a sequence with the sequence name
   * and, when it is non-blank, the sequence instruction's custom title, and
   * appends it to the list.
   */
  method AppendTagged(playout: InstructionList, items: seq<Instruction>, name: string, title: Option<string>)
    modifies playout, set o | o in items
    ensures playout.items == old(playout.items) + items
    ensures forall o :: o in items ==>
              o.sequenceKey == Some(name) && o.customTitle == (if IsBlankOpt(title) then old(o.customTitle) else title)
  {
    var q := 0;
    while q < |items|
      invariant 0 <= q <= |items|
      invariant playout.items == old(playout.items) + items[..q]
      invariant forall o :: o in items[..q] ==>
                  o.sequenceKey == Some(name) && o.customTitle == (if IsBlankOpt(title) then old(o.customTitle) else title)
      invariant forall o :: o in items && o !in items[..q] ==> o.customTitle == old(o.customTitle)
    {
      var i := items[q];
      i.sequenceKey := Some(name);
      if !IsBlankOpt(title) {
        i.customTitle := title;
      }
      playout.items := playout.items + [i];
      assert items[..q + 1] == items[..q] + [i];
      q := q + 1;
    }
    assert items[..q] == items;
  }

  /** Expands one instruction of the raw list onto the end of the list being refilled. */
  method ExpandOnto(playout: InstructionList, instruction: Instruction, sequences: seq<SequenceItem>)
    returns (title: Option<string>)
    modifies playout, Pool(sequences)
    ensures title == old(instruction.customTitle)
    ensures playout.items == old(playout.items) + Expansion(instruction, sequences)
    ensures forall o :: o in Pool(sequences) ==>
              var hit := instruction.kind.SequenceInstruction?
                         && o in SequenceItemsFor(sequences, instruction.kind.sequence);
              o.sequenceKey == (if hit then Some(instruction.kind.sequence) else old(o.sequenceKey))
              && o.customTitle == (if hit && !IsBlankOpt(title) then title else old(o.customTitle))
  {
    title := instruction.customTitle;
    match instruction.kind {
      case SequenceInstruction(name, repeat) =>
        var items := SequenceItemsFor(sequences, name);
        var n := RepeatCount(repeat);
        var r := 0;
        while r < n
          invariant 0 <= r <= n
          invariant playout.items == old(playout.items) + Repeated(items, r)
          invariant forall o :: o in Pool(sequences) && o !in items ==>
                      o.sequenceKey == old(o.sequenceKey) && o.customTitle == old(o.customTitle)
          invariant r == 0 ==> forall o :: o in items ==> o.customTitle == old(o.customTitle)
          invariant r > 0 ==> forall o :: o in items ==>
                      o.sequenceKey == Some(name) && o.customTitle == (if IsBlankOpt(title) then old(o.customTitle) else title)
        {
          AppendTagged(playout, items, name, title);
          r := r + 1;
        }
      case HandledInstruction(_, _, _) =>
        playout.items := playout.items + [instruction];
    }
  }

  /**
   * FlattenSequencesForDefinition: one pass that clears the instruction list
   * and refills it, each sequence instruction replaced by its sequence's
   * items repeated max(Repeat, 1) times. The item objects are shared, not
   * copied: each one ends up carrying the name of the last sequence
   * instruction that expanded it and the last non-blank custom title given
   * to it. `titles` are the custom titles as each instruction was expanded;
   * an instruction that is not itself a sequence item still has its own.
   */
  method FlattenSequencesForDefinition(playout: InstructionList, sequences: seq<SequenceItem>)
    returns (ghost titles: seq<Option<string>>)
    modifies playout, Pool(sequences)
    ensures playout.items == Flattened(old(playout.items), sequences)
    ensures |titles| == |old(playout.items)|
    ensures forall k :: 0 <= k < |titles| && old(playout.items)[k] !in Pool(sequences) ==>
              titles[k] == old(playout.items[k].customTitle)
    ensures forall o :: o in Pool(sequences) ==>
              o.sequenceKey == (match LastSequenceOf(old(playout.items), sequences, o)
                                case Some(name) => Some(name)
                                case None => old(o.sequenceKey))
              && o.customTitle == (match LastCustomTitle(old(playout.items), titles, sequences, o)
                                   case Some(t) => Some(t)
                                   case None => old(o.customTitle))
  {
    var raw := playout.items;
    ghost var key0 := map o | o in Pool(sequences) :: o.sequenceKey;
    ghost var title0 := map o | o in Pool(sequences) :: o.customTitle;
    ghost var rawTitles := seq(|raw|, j requires 0 <= j < |raw| reads raw => raw[j].customTitle);
    playout.items := [];
    titles := [];
    var k := 0;
    while k < |raw|
      invariant 0 <= k <= |raw| && |titles| == k
      invariant playout.items == Flattened(raw[..k], sequences)
      invariant OwnTitles(raw, titles, rawTitles, sequences)
      invariant AllTagged(key0, title0, raw[..k], titles, sequences)
    {
      k, titles := FlattenStep(playout, raw, k, titles, rawTitles, sequences, key0, title0);
    }
    assert raw[..k] == raw;
  }

  /**
   * The instructions that are not themselves sequence items still carry
   * their titles from before, and each of `titles` so far is its own.
   */
  ghost predicate OwnTitles(raw: seq<Instruction>, titles: seq<Option<string>>, rawTitles: seq<Option<string>>,
                            sequences: seq<SequenceItem>)
    reads raw
  {
    |titles| <= |raw| == |rawTitles|
    && (forall j :: 0 <= j < |raw| && raw[j] !in Pool(sequences) ==> raw[j].customTitle == rawTitles[j])
    && (forall j :: 0 <= j < |titles| && raw[j] !in Pool(sequences) ==> titles[j] == rawTitles[j])
  }

  /** Every pooled item carries the tags the instructions so far give it, over its tags from before. */
  ghost predicate AllTagged(key0: map<Instruction, Option<string>>, title0: map<Instruction, Option<string>>,
                            done: seq<Instruction>, titles: seq<Option<string>>, sequences: seq<SequenceItem>)
    reads Pool(sequences)
  {
    |titles| == |done| && Pool(sequences) <= key0.Keys && Pool(sequences) <= title0.Keys
    && forall o :: o in Pool(sequences) ==>
         Tagged(o.sequenceKey, o.customTitle, key0[o], title0[o], done, titles, sequences, o)
  }

  /** One pass of the flattening loop: `raw[k]` expanded onto the list and the tags of every pooled item moved on. */
  method FlattenStep(playout: InstructionList, raw: seq<Instruction>, k: nat, ghost titles: seq<Option<string>>,
                     ghost rawTitles: seq<Option<string>>, sequences: seq<SequenceItem>,
                     ghost key0: map<Instruction, Option<string>>, ghost title0: map<Instruction, Option<string>>)
    returns (k': nat, ghost titles': seq<Option<string>>)
    modifies playout, Pool(sequences)
    requires k < |raw| && |titles| == k
    requires OwnTitles(raw, titles, rawTitles, sequences)
    requires playout.items == Flattened(raw[..k], sequences)
    requires AllTagged(key0, title0, raw[..k], titles, sequences)
    ensures k' == k + 1 && titles' == titles + [old(raw[k].customTitle)]
    ensures OwnTitles(raw, titles', rawTitles, sequences)
    ensures playout.items == Flattened(raw[..k'], sequences)
    ensures AllTagged(key0, title0, raw[..k'], titles', sequences)
  {
    var title := ExpandOnto(playout, raw[k], sequences);
    k' := k + 1;
    titles' := titles + [title];
    forall o | o in Pool(sequences)
      ensures Tagged(o.sequenceKey, o.customTitle, key0[o], title0[o], raw[..k + 1], titles + [title], sequences, o)
    {
      TaggedStep(raw, k, titles, title, sequences, o, key0[o], title0[o],
                 old(o.sequenceKey), old(o.customTitle), o.sequenceKey, o.customTitle);
    }
    assert raw[..k + 1][..k] == raw[..k];
  }

  /**
   * `key` and `title` are what flattening `playout` leaves on `o`, which
   * carried `key0` and `title0` before.
   */
  predicate Tagged(key: Option<string>, title: Option<string>, key0: Option<string>, title0: Option<string>,
                   playout: seq<Instruction>, titles: seq<Option<string>>, sequences: seq<SequenceItem>,
                   o: Instruction)
    requires |titles| == |playout|
  {
    key == (match LastSequenceOf(playout, sequences, o) case Some(name) => Some(name) case None => key0)
    && title == (match LastCustomTitle(playout, titles, sequences, o) case Some(t) => Some(t) case None => title0)
  }

  /** Expanding `raw[k]` moves the tags of `o` on by one instruction. */
  lemma {:induction false} TaggedStep(raw: seq<Instruction>, k: nat, titles: seq<Option<string>>, title: Option<string>,
                   sequences: seq<SequenceItem>, o: Instruction, key0: Option<string>, title0: Option<string>,
                   key: Option<string>, customTitle: Option<string>,
                   key': Option<string>, customTitle': Option<string>)
    requires k < |raw| && |titles| == k
    requires Tagged(key, customTitle, key0, title0, raw[..k], titles, sequences, o)
    requires var hit := raw[k].kind.SequenceInstruction?
                        && o in SequenceItemsFor(sequences, raw[k].kind.sequence);
             key' == (if hit then Some(raw[k].kind.sequence) else key)
             && customTitle' == (if hit && !IsBlankOpt(title) then title else customTitle)
    ensures Tagged(key', customTitle', key0, title0, raw[..k + 1], titles + [title], sequences, o)
  {
    assert raw[..k + 1][..k] == raw[..k];
    assert (titles + [title])[..k] == titles;
  }

  // ---------------------------------------------------------------------
  // Playout history
  // ---------------------------------------------------------------------

  /** The ids a reset removes, in history order; what survives had finished before `start`. */
  function ResetRemovals(history: seq<History>, start: int): (r: seq<int>)
    ensures |r| <= |history|
    ensures forall id :: id in r <==> exists h :: h in history && h.id == id && RemovedOnReset(h, start)
    ensures forall h :: h in history && h.id !in r ==> h.when <= start && h.finish < start
  {
    if history == [] then []
    else
      var init := history[..|history| - 1];
      var h := history[|history| - 1];
      assert history == init + [h];
      ResetRemovals(init, start) + (if RemovedOnReset(h, start) then [h.id] else [])
  }

  /** The ids of the records, in order. */
  function IdsOf(s: seq<History>): (r: seq<int>)
    ensures |r| == |s|
    ensures forall id :: id in r <==> exists h :: h in s && h.id == id
  {
    if s == [] then [] else [s[0].id] + IdsOf(s[1..])
  }

  /** A finished record is stale when a finished record with the same key started later. */
  predicate Stale(h: History, history: seq<History>, start: int)
  {
    h.finish < start && exists g :: g in history && g.key == h.key && g.finish < start && g.when > h.when
  }

  /** The latest start among the records that finished before `start`, if any did. */
  function LatestFinishedWhen(group: seq<History>, start: int): (r: Option<int>)
    ensures r.None? <==> forall h :: h in group ==> h.finish >= start
    ensures r.Some? ==> (exists h :: h in group && h.finish < start && h.when == r.value)
                        && forall h :: h in group && h.finish < start ==> h.when <= r.value
  {
    if group == [] then None
    else
      var rest := LatestFinishedWhen(group[1..], start);
      var h := group[0];
      assert forall x :: x in group <==> x == h || x in group[1..];
      if h.finish >= start then rest
      else if rest.Some? && rest.value >= h.when then rest
      else Some(h.when)
  }

  /**
   * Within one key's records, the ones deleted (finished, and not started at
   * the latest finished start) are exactly the stale ones.
   */
  lemma {:induction false} DeletedIffStale(history: seq<History>, group: seq<History>, start: int, h: History)
    requires forall x :: x in group <==> x in history && x.key == h.key
    requires h in group
    ensures Stale(h, history, start) <==>
              (var w := LatestFinishedWhen(group, start);
               w.Some? && h.finish < start && h.when != w.value)
  {
    var w := LatestFinishedWhen(group, start);
    if Stale(h, history, start) {
      var g :| g in history && g.key == h.key && g.finish < start && g.when > h.when;
      assert g in group;
    }
    if w.Some? && h.finish < start && h.when != w.value {
      var g :| g in group && g.finish < start && g.when == w.value;
      assert g.when > h.when;
    }
  }

  /** Groups the records by key (ordinal), keys in order of first appearance. */
  method GroupByKey(history: seq<History>) returns (keys: seq<string>, groups: map<string, seq<History>>)
    ensures forall k :: k in groups <==> k in keys
    ensures forall i, j :: 0 <= i < j < |keys| ==> keys[i] != keys[j]
    ensures forall h :: h in history ==> h.key in keys
    ensures forall k :: k in groups ==> forall h :: h in groups[k] <==> h in history && h.key == k
  {
    keys := [];
    groups := map[];
    var i := 0;
    while i < |history|
      invariant 0 <= i <= |history|
      invariant forall k :: k in groups <==> k in keys
      invariant forall a, b :: 0 <= a < b < |keys| ==> keys[a] != keys[b]
      invariant forall h :: h in history[..i] ==> h.key in keys
      invariant forall k :: k in groups ==> forall h :: h in groups[k] <==> h in history[..i] && h.key == k
    {
      var h := history[i];
      assert history[..i + 1] == history[..i] + [h];
      if h.key !in groups {
        keys := keys + [h.key];
        groups := groups[h.key := [h]];
      } else {
        groups := groups[h.key := groups[h.key] + [h]];
      }
      i := i + 1;
    }
    assert history[..i] == history;
  }

  /** The records of one key's group that the clean-up deletes. */
  function DeletedOf(group: seq<History>, start: int): (r: seq<History>)
    ensures forall h :: h in r ==> h in group
  {
    match LatestFinishedWhen(group, start)
    case None => []
    case Some(toKeep) => Filter(group, (h: History) => h.finish < start && h.when != toKeep)
  }

  /** Appending one group's deletions extends the removed ids by exactly that key's stale records. */
  lemma {:induction false} CleanUpStep(history: seq<History>, keys: seq<string>, i: nat, group: seq<History>, start: int,
                    prev: seq<int>)
    requires i < |keys|
    requires forall x :: x in group <==> x in history && x.key == keys[i]
    requires forall id :: id in prev <==>
               exists h :: h in history && h.key in keys[..i] && h.id == id && Stale(h, history, start)
    ensures forall id :: id in prev + IdsOf(DeletedOf(group, start)) <==>
              exists h :: h in history && h.key in keys[..i + 1] && h.id == id && Stale(h, history, start)
  {
    var deleted := DeletedOf(group, start);
    assert keys[..i + 1] == keys[..i] + [keys[i]];
    forall h | h in group
      ensures h in deleted <==> Stale(h, history, start)
    {
      DeletedIffStale(history, group, start, h);
    }
    forall id
      ensures id in prev + IdsOf(deleted) <==>
                exists h :: h in history && h.key in keys[..i + 1] && h.id == id && Stale(h, history, start)
    {
      if id in IdsOf(deleted) {
        var h :| h in deleted && h.id == id;
        assert h in history && h.key in keys[..i + 1] && Stale(h, history, start);
      }
      if exists h :: h in history && h.key in keys[..i + 1] && h.id == id && Stale(h, history, start) {
        var h :| h in history && h.key in keys[..i + 1] && h.id == id && Stale(h, history, start);
        if h.key !in keys[..i] {
          assert h in group;
        }
      }
    }
  }

  /** Adds the ids of the records, one by one, to the removal list. */
  method AppendIds(r: seq<int>, deleted: seq<History>) returns (r': seq<int>)
    ensures r' == r + IdsOf(deleted)
  {
    r' := r;
    for d := 0 to |deleted|
      invariant r' == r + IdsOf(deleted[..d])
    {
      IdsOfSnoc(deleted, d);
      r' := r' + [deleted[d].id];
    }
    assert deleted[..|deleted|] == deleted;
  }

  /**
   * CleanUpHistory: for every key, keeps the most recently started record
   * among those already finished at `start` and schedules the other
   * finished ones for removal; records still playing are left alone. The
   * ids are appended to `toRemove`.
   */
  method CleanUpHistory(history: seq<History>, start: int, toRemove: seq<int>) returns (r: seq<int>)
    ensures |r| >= |toRemove| && r[..|toRemove|] == toRemove
    ensures forall id :: id in r[|toRemove|..] <==>
              exists h :: h in history && h.id == id && Stale(h, history, start)
  {
    var keys, groups := GroupByKey(history);
    var added: seq<int> := [];
    var i := 0;
    while i < |keys|
      invariant 0 <= i <= |keys|
      invariant forall id :: id in added <==>
                  exists h :: h in history && h.key in keys[..i] && h.id == id && Stale(h, history, start)
    {
      var group := groups[keys[i]];
      CleanUpStep(history, keys, i, group, start, added);
      added := AppendIds(added, DeletedOf(group, start));
      i := i + 1;
    }
    assert keys[..i] == keys;
    r := toRemove + added;
    assert r[|toRemove|..] == added;
  }

  lemma {:induction false} IdsOfSnoc(s: seq<History>, d: nat)
    requires d < |s|
    ensures IdsOf(s[..d + 1]) == IdsOf(s[..d]) + [s[d].id]
    decreases d
  {
    if d > 0 {
      IdsOfSnoc(s[1..], d - 1);
      assert s[1..][..d] == s[..d + 1][1..];
      assert s[1..][..d - 1] == s[..d][1..];
    }
  }

  // ---------------------------------------------------------------------
  // Nested sequences and cycles
  // ---------------------------------------------------------------------

  /** `n` flattening passes. */
  function FlattenedTimes(playout: seq<Instruction>, sequences: seq<SequenceItem>, n: nat): seq<Instruction>
  {
    if n == 0 then playout else Flattened(FlattenedTimes(playout, sequences, n - 1), sequences)
  }

  /** No sequence holds a sequence instruction. */
  predicate NoNesting(sequences: seq<SequenceItem>)
  {
    forall k, j :: 0 <= k < |sequences| && 0 <= j < |sequences[k].items| ==>
      !sequences[k].items[j].kind.SequenceInstruction?
  }

  lemma {:induction false} NoNestingPool(sequences: seq<SequenceItem>)
    requires NoNesting(sequences)
    ensures forall o :: o in Pool(sequences) ==> !o.kind.SequenceInstruction?
  {
    forall o | o in Pool(sequences) ensures !o.kind.SequenceInstruction? {
      var s :| s in sequences && o in s.items;
      var k :| 0 <= k < |sequences| && sequences[k] == s;
      var j :| 0 <= j < |s.items| && s.items[j] == o;
    }
  }

  /** Without nested sequences one pass leaves no sequence instruction. */
  lemma {:induction false} NoNestingOnePass(playout: seq<Instruction>, sequences: seq<SequenceItem>)
    requires NoNesting(sequences)
    ensures !HasSequenceInstruction(Flattened(playout, sequences))
  {
    NoNestingPool(sequences);
    OnePassSuffices(playout, sequences);
  }

  /** One flattening pass, seen only through the list it leaves. */
  method FlattenPass(playout: InstructionList, sequences: seq<SequenceItem>)
    modifies playout, Pool(sequences)
    ensures playout.items == Flattened(old(playout.items), sequences)
  {
    var titles := FlattenSequencesForDefinition(playout, sequences);
  }

  /**
   * Flattens until no sequence instruction is left, giving up once 101
   * passes have not sufficed (nesting deeper than that is left as it is).
   */
  method FlattenNested(playout: InstructionList, sequences: seq<SequenceItem>) returns (passes: nat)
    modifies playout, Pool(sequences)
    ensures playout.items == FlattenedTimes(old(playout.items), sequences, passes)
    ensures passes <= 101
    ensures passes < 101 ==> !HasSequenceInstruction(playout.items)
    ensures passes == 0 <==> !HasSequenceInstruction(old(playout.items))
    ensures NoNesting(sequences) ==> passes <= 1
  {
    passes := 0;
    while HasSequenceInstruction(playout.items)
      invariant passes <= 101
      invariant playout.items == FlattenedTimes(old(playout.items), sequences, passes)
      invariant passes > 0 ==> HasSequenceInstruction(old(playout.items))
      invariant passes > 1 ==> HasSequenceInstruction(FlattenedTimes(old(playout.items), sequences, 1))
      decreases 101 - passes
    {
      if passes > 100 {
        break;
      }
      FlattenPass(playout, sequences);
      passes := passes + 1;
    }
    if passes > 1 && NoNesting(sequences) {
      NoNestingOnePass(old(playout.items), sequences);
    }
  }

  /** The edges DetectCycle adds: from each sequence's key to each sequence one of its items names. */
  function EdgesOf(key: string, items: seq<Instruction>): (r: seq<(string, string)>)
    ensures forall e :: e in r <==> exists j :: 0 <= j < |items| && items[j].kind.SequenceInstruction?
                                                && e == (key, items[j].kind.sequence)
    ensures (forall j :: 0 <= j < |items| ==> !items[j].kind.SequenceInstruction?) ==> r == []
  {
    if items == [] then []
    else
      var last := items[|items| - 1];
      var init := items[..|items| - 1];
      assert forall j :: 0 <= j < |init| ==> init[j] == items[j];
      EdgesOf(key, init) + (if last.kind.SequenceInstruction? then [(key, last.kind.sequence)] else [])
  }

  function SequenceEdges(sequences: seq<SequenceItem>): (r: seq<(string, string)>)
    ensures forall e :: e in r <==> exists k :: 0 <= k < |sequences| && e in EdgesOf(sequences[k].key, sequences[k].items)
  {
    if sequences == [] then []
    else
      var init := sequences[..|sequences| - 1];
      var last := sequences[|sequences| - 1];
      assert forall k :: 0 <= k < |init| ==> init[k] == sequences[k];
      SequenceEdges(init) + EdgesOf(last.key, last.items)
  }

  /** Without nested sequences the graph has no edge, so no cycle can be found. */
  lemma {:induction false} NoNestingNoEdges(sequences: seq<SequenceItem>)
    requires NoNesting(sequences)
    ensures SequenceEdges(sequences) == []
  {
    if sequences != [] {
      var init := sequences[..|sequences| - 1];
      var last := sequences[|sequences| - 1];
      assert NoNesting(init) by {
        forall k, j | 0 <= k < |init| && 0 <= j < |init[k].items|
          ensures !init[k].items[j].kind.SequenceInstruction?
        {
          assert init[k] == sequences[k];
        }
      }
      NoNestingNoEdges(init);
      assert forall j :: 0 <= j < |last.items| ==> !last.items[j].kind.SequenceInstruction?;
    }
  }

  /**
   * DetectCycle: builds the graph of sequence references and asks it for a
   * cycle; the graph's cycle search is given as `hasAnyCycle`.
   */
  method DetectCycle(sequences: seq<SequenceItem>, hasAnyCycle: seq<(string, string)> -> bool) returns (cycle: bool)
    ensures cycle == hasAnyCycle(SequenceEdges(sequences))
  {
    var graph: seq<(string, string)> := [];
    for k := 0 to |sequences|
      invariant graph == SequenceEdges(sequences[..k])
    {
      var s := sequences[k];
      var added: seq<(string, string)> := [];
      for j := 0 to |s.items|
        invariant added == EdgesOf(s.key, s.items[..j])
      {
        assert s.items[..j + 1][..j] == s.items[..j];
        if s.items[j].kind.SequenceInstruction? {
          added := added + [(s.key, s.items[j].kind.sequence)];
        }
      }
      assert s.items[..|s.items|] == s.items;
      assert sequences[..k + 1][..k] == sequences[..k];
      graph := graph + added;
    }
    assert sequences[..|sequences|] == sequences;
    cycle := hasAnyCycle(graph);
  }

  // ---------------------------------------------------------------------
  // Running the instructions
  // ---------------------------------------------------------------------

  /** What a handler is given of an instruction object. */
  datatype InstructionView = InstructionView(kind: InstructionKind, customTitle: Option<string>, sequenceKey: Option<string>)

  function View(i: Instruction): InstructionView
    reads i
  {
    InstructionView(i.kind, i.customTitle, i.sequenceKey)
  }

  /** The part of the YAML playout context the builder itself reads and writes. */
  datatype Context = Context(
    currentTime: int,
    instructionIndex: nat,
    addedItems: seq<PlayoutItem>,
    addedHistory: seq<History>)

  /** An instruction handler, as the change it makes to the context. */
  type Handler = (Context, InstructionView) -> Context

  predicate Extends<T(==)>(a: seq<T>, b: seq<T>)
  {
    |a| <= |b| && b[..|a|] == a
  }

  /** Handlers only ever append items and history. */
  ghost predicate AppendsOnly(handle: Handler)
  {
    forall c: Context, v: InstructionView :: Extends(c.addedItems, handle(c, v).addedItems) && Extends(c.addedHistory, handle(c, v).addedHistory)
  }

  /** Handlers never move the current time backwards. */
  ghost predicate NeverRewinds(handle: Handler)
  {
    forall c: Context, v: InstructionView :: handle(c, v).currentTime >= c.currentTime
  }

  /**
   * One turn of the main loop on the instruction at the current index: its
   * handler runs when it has one (every instruction but a sequence
   * instruction), then the index moves on unless the instruction moves it
   * itself.
   */
  function Step(ctx: Context, v: InstructionView, handle: Handler): (r: Context)
    ensures AppendsOnly(handle) ==> Extends(ctx.addedItems, r.addedItems) && Extends(ctx.addedHistory, r.addedHistory)
    ensures NeverRewinds(handle) ==> r.currentTime >= ctx.currentTime
    ensures v.kind.SequenceInstruction? ==> r == ctx.(instructionIndex := ctx.instructionIndex + 1)
  {
    match v.kind
    case SequenceInstruction(_, _) => ctx.(instructionIndex := ctx.instructionIndex + 1)
    case HandledInstruction(_, changesIndex, _) =>
      var after := handle(ctx, v);
      if changesIndex then after else after.(instructionIndex := after.instructionIndex + 1)
  }

  lemma {:induction false} ExtendsTrans<T>(a: seq<T>, b: seq<T>, c: seq<T>)
    requires Extends(a, b) && Extends(b, c)
    ensures Extends(a, c)
  {
    assert c[..|a|] == c[..|b|][..|a|];
  }

  /** One turn of the main loop as it bears on the context: a switch of schedule, or one instruction run. */
  datatype Turn = Restart | Execute(view: InstructionView)

  /** The context after the given turns, each instruction run by Step and each switch restarting the list. */
  function Replay(ctx: Context, turns: seq<Turn>, handle: Handler): Context
    decreases |turns|
  {
    if turns == [] then ctx
    else
      var before := Replay(ctx, turns[..|turns| - 1], handle);
      match turns[|turns| - 1]
      case Restart => before.(instructionIndex := 0)
      case Execute(v) => Step(before, v, handle)
  }

  /** Replaying turns whose handlers only append keeps everything added before. */
  lemma {:induction false} ReplayExtends(ctx: Context, turns: seq<Turn>, handle: Handler)
    requires AppendsOnly(handle)
    ensures Extends(ctx.addedItems, Replay(ctx, turns, handle).addedItems)
    ensures Extends(ctx.addedHistory, Replay(ctx, turns, handle).addedHistory)
    decreases |turns|
  {
    if turns != [] {
      var front := turns[..|turns| - 1];
      var before := Replay(ctx, front, handle);
      ReplayExtends(ctx, front, handle);
      var after := Replay(ctx, turns, handle);
      assert Extends(before.addedItems, after.addedItems) && Extends(before.addedHistory, after.addedHistory);
      ExtendsTrans(ctx.addedItems, before.addedItems, after.addedItems);
      ExtendsTrans(ctx.addedHistory, before.addedHistory, after.addedHistory);
    }
  }

  /** Replaying turns whose handlers never rewind never moves the current time backwards. */
  lemma {:induction false} ReplayNeverRewinds(ctx: Context, turns: seq<Turn>, handle: Handler)
    requires NeverRewinds(handle)
    ensures Replay(ctx, turns, handle).currentTime >= ctx.currentTime
    decreases |turns|
  {
    if turns != [] {
      ReplayNeverRewinds(ctx, turns[..|turns| - 1], handle);
    }
  }

  /** Replaying one more turn. */
  lemma {:induction false} ReplaySnoc(ctx: Context, turns: seq<Turn>, t: Turn, handle: Handler)
    ensures Replay(ctx, turns + [t], handle)
            == match t
               case Restart => Replay(ctx, turns, handle).(instructionIndex := 0)
               case Execute(v) => Step(Replay(ctx, turns, handle), v, handle)
  {
    assert (turns + [t])[..|turns|] == turns;
  }

  /** The instruction lists of the definition and of each of its schedules. */
  function Lists(def: Definition): set<InstructionList>
  {
    {def.playout} + set s | s in def.schedules :: s.playout
  }

  /** The list played while `active` is the schedule in force: its own, or the definition's. */
  function ScheduleList(def: Definition, active: Option<nat>): (r: InstructionList)
    ensures r in Lists(def)
  {
    if active.Some? && active.value < |def.schedules| then def.schedules[active.value].playout else def.playout
  }

  datatype StopReason =
    | ReachedFinish
    | EndOfInstructions
    | EmptySchedule
    | ScheduleCycle
    | ScheduleError(message: string)
    | OutOfFuel

  /** The views of a list's instructions, as a handler is given them now. */
  ghost function Views(items: seq<Instruction>): (r: seq<InstructionView>)
    reads set i | i in items
    ensures |r| == |items| && forall k :: 0 <= k < |items| ==> r[k] == View(items[k])
  {
    seq(|items|, k requires 0 <= k < |items| reads items => View(items[k]))
  }

  /** The schedule in force as of the last turn's lookup: `current` before any turn. */
  function PrevActive(current: Option<nat>, actives: seq<Option<nat>>): Option<nat>
  {
    if actives == [] then current else actives[|actives| - 1]
  }

  /**
   * One more turn as the main loop takes it from context `c`: the current
   * time is short of the finish and `a` is the schedule in force at it; the
   * turn is a restart exactly when that schedule differs from the one
   * before, and otherwise runs the instruction at the current index of `s`,
   * the views of the list in force, which is the list the turn before it saw.
   */
  ghost predicate TurnFits(schedules: seq<Schedule>, current: Option<nat>, finish: int, dateOf: int -> Date,
                           c: Context, actives: seq<Option<nat>>, shown: seq<seq<InstructionView>>,
                           t: Turn, a: Option<nat>, s: seq<InstructionView>)
  {
    c.currentTime < finish
    && ActiveSchedule(schedules, dateOf(c.currentTime)) == Ok(a)
    && (t.Restart? <==> a != PrevActive(current, actives))
    && (t.Execute? ==> c.instructionIndex < |s| && t.view == s[c.instructionIndex]
                       && (shown != [] ==> s == shown[|shown| - 1]))
  }

  /** Turn k fits, taken from the context the turns before it leave. */
  ghost predicate TurnAt(schedules: seq<Schedule>, current: Option<nat>, ctx0: Context, finish: int,
                         dateOf: int -> Date, handle: Handler, turns: seq<Turn>, actives: seq<Option<nat>>,
                         shown: seq<seq<InstructionView>>, k: nat)
    requires k < |turns| && |actives| == |turns| && |shown| == |turns|
  {
    TurnFits(schedules, current, finish, dateOf, Replay(ctx0, turns[..k], handle), actives[..k], shown[..k],
             turns[k], actives[k], shown[k])
  }

  /**
   * Every turn fits: `actives[k]` is the schedule in force at turn k and
   * `shown[k]` the views of its list as turn k saw them.
   */
  ghost predicate Drives(schedules: seq<Schedule>, current: Option<nat>, ctx0: Context, finish: int,
                         dateOf: int -> Date, handle: Handler, turns: seq<Turn>, actives: seq<Option<nat>>,
                         shown: seq<seq<InstructionView>>)
  {
    |actives| == |turns| && |shown| == |turns|
    && forall k: nat :: k < |turns| ==> TurnAt(schedules, current, ctx0, finish, dateOf, handle, turns, actives, shown, k)
  }

  /**
   * A run from `ctx0` that ended in `ctx`: `ctx` is the replay of `turns`
   * and every turn fits the schedule in force and the list it saw.
   */
  ghost predicate Played(schedules: seq<Schedule>, current: Option<nat>, ctx0: Context, finish: int,
                         dateOf: int -> Date, handle: Handler, turns: seq<Turn>, actives: seq<Option<nat>>,
                         shown: seq<seq<InstructionView>>, ctx: Context)
  {
    ctx == Replay(ctx0, turns, handle) && Drives(schedules, current, ctx0, finish, dateOf, handle, turns, actives, shown)
  }

  /** A run that ended in `ctx` goes on by one turn that fits there. */
  lemma {:induction false} PlayedSnoc(schedules: seq<Schedule>, current: Option<nat>, ctx0: Context, finish: int,
                                      dateOf: int -> Date, handle: Handler, turns: seq<Turn>,
                                      actives: seq<Option<nat>>, shown: seq<seq<InstructionView>>, ctx: Context,
                                      t: Turn, a: Option<nat>, s: seq<InstructionView>)
    requires Played(schedules, current, ctx0, finish, dateOf, handle, turns, actives, shown, ctx)
    requires TurnFits(schedules, current, finish, dateOf, ctx, actives, shown, t, a, s)
    ensures Played(schedules, current, ctx0, finish, dateOf, handle, turns + [t], actives + [a], shown + [s],
                   if t.Restart? then ctx.(instructionIndex := 0) else Step(ctx, t.view, handle))
  {
    var turns', actives', shown' := turns + [t], actives + [a], shown + [s];
    forall k: nat | k < |turns'|
      ensures TurnAt(schedules, current, ctx0, finish, dateOf, handle, turns', actives', shown', k)
    {
      assert turns'[..k] == turns[..k] && actives'[..k] == actives[..k] && shown'[..k] == shown[..k];
      if k < |turns| {
        assert TurnAt(schedules, current, ctx0, finish, dateOf, handle, turns, actives, shown, k);
      }
    }
    ReplaySnoc(ctx0, turns, t, handle);
  }

  /** Every turn since the last restart (that restart included) saw the views `v`. */
  ghost predicate SegmentShows(turns: seq<Turn>, shown: seq<seq<InstructionView>>, v: seq<InstructionView>)
  {
    |shown| == |turns|
    && forall k :: 0 <= k < |turns| && (forall u :: k < u < |turns| ==> turns[u].Execute?) ==> shown[k] == v
  }

  lemma {:induction false} SegmentExecute(turns: seq<Turn>, shown: seq<seq<InstructionView>>, view: InstructionView,
                                          v: seq<InstructionView>)
    requires SegmentShows(turns, shown, v)
    ensures SegmentShows(turns + [Execute(view)], shown + [v], v)
  {
    var turns', shown' := turns + [Execute(view)], shown + [v];
    forall k | 0 <= k < |turns'| && (forall u :: k < u < |turns'| ==> turns'[u].Execute?)
      ensures shown'[k] == v
    {
      if k < |turns| {
        assert forall u :: k < u < |turns| ==> turns[u] == turns'[u];
      }
    }
  }

  lemma {:induction false} SegmentRestart(turns: seq<Turn>, shown: seq<seq<InstructionView>>, v: seq<InstructionView>)
    requires |shown| == |turns|
    ensures SegmentShows(turns + [Restart], shown + [v], v)
  {
    assert (turns + [Restart])[|turns|] == Restart;
  }

  /**
   * The main loop's state between turns: the run so far, the views `seen`
   * of the list in force as the turns since the last restart saw them,
   * the views `first` of the list it started on, and the handlers' effects
   * on everything added so far and on the current time.
   */
  ghost predicate Running(schedules: seq<Schedule>, current: Option<nat>, ctx0: Context, finish: int,
                          dateOf: int -> Date, handle: Handler, turns: seq<Turn>, actives: seq<Option<nat>>,
                          shown: seq<seq<InstructionView>>, ctx: Context, seen: seq<InstructionView>,
                          first: seq<InstructionView>)
  {
    Played(schedules, current, ctx0, finish, dateOf, handle, turns, actives, shown, ctx)
    && SegmentShows(turns, shown, seen)
    && (turns == [] ==> seen == first)
    && (|turns| > 0 && turns[0].Execute? ==> shown[0] == first)
    && (AppendsOnly(handle) ==> Extends(ctx0.addedItems, ctx.addedItems) && Extends(ctx0.addedHistory, ctx.addedHistory))
    && (NeverRewinds(handle) ==> ctx.currentTime >= ctx0.currentTime)
  }

  /** A switch of schedule that fits keeps the loop's state, the new list's views now being seen. */
  lemma RunningRestart(schedules: seq<Schedule>, current: Option<nat>, ctx0: Context, finish: int,
                       dateOf: int -> Date, handle: Handler, turns: seq<Turn>, actives: seq<Option<nat>>,
                       shown: seq<seq<InstructionView>>, ctx: Context, seen: seq<InstructionView>,
                       first: seq<InstructionView>, a: Option<nat>, seen': seq<InstructionView>)
    requires Running(schedules, current, ctx0, finish, dateOf, handle, turns, actives, shown, ctx, seen, first)
    requires TurnFits(schedules, current, finish, dateOf, ctx, actives, shown, Restart, a, seen')
    ensures Running(schedules, current, ctx0, finish, dateOf, handle, turns + [Restart], actives + [a],
                    shown + [seen'], ctx.(instructionIndex := 0), seen', first)
  {
    PlayedSnoc(schedules, current, ctx0, finish, dateOf, handle, turns, actives, shown, ctx, Restart, a, seen');
    SegmentRestart(turns, shown, seen');
  }

  /** Running the instruction at the current index keeps the loop's state. */
  lemma RunningExecute(schedules: seq<Schedule>, current: Option<nat>, ctx0: Context, finish: int,
                       dateOf: int -> Date, handle: Handler, turns: seq<Turn>, actives: seq<Option<nat>>,
                       shown: seq<seq<InstructionView>>, ctx: Context, seen: seq<InstructionView>,
                       first: seq<InstructionView>, a: Option<nat>, view: InstructionView)
    requires Running(schedules, current, ctx0, finish, dateOf, handle, turns, actives, shown, ctx, seen, first)
    requires TurnFits(schedules, current, finish, dateOf, ctx, actives, shown, Execute(view), a, seen)
    ensures Running(schedules, current, ctx0, finish, dateOf, handle, turns + [Execute(view)], actives + [a],
                    shown + [seen], Step(ctx, view, handle), seen, first)
  {
    PlayedSnoc(schedules, current, ctx0, finish, dateOf, handle, turns, actives, shown, ctx, Execute(view), a, seen);
    SegmentExecute(turns, shown, view, seen);
    if AppendsOnly(handle) {
      ExtendsTrans(ctx0.addedItems, ctx.addedItems, Step(ctx, view, handle).addedItems);
      ExtendsTrans(ctx0.addedHistory, ctx.addedHistory, Step(ctx, view, handle).addedHistory);
    }
  }

  /**
   * The main loop: until the current time reaches `finish`, looks up the
   * schedule in force at the current time; on a change of schedule it
   * switches to that schedule's list (stopping when it is empty or the
   * sequences hold a cycle), flattens it and starts it from its first
   * instruction, keeping everything added so far; then it runs the
   * instruction at the current index, stopping when the index is past the
   * end of the list. `fuel` bounds the number of passes.
   */
  method RunInstructions(def: Definition, current: Option<nat>, ctx0: Context, finish: int,
                         dateOf: int -> Date, handle: Handler, hasAnyCycle: seq<(string, string)> -> bool,
                         fuel: nat)
    returns (ctx: Context, stop: StopReason, ghost active: Option<nat>, ghost turns: seq<Turn>,
             ghost actives: seq<Option<nat>>, ghost shown: seq<seq<InstructionView>>,
             ghost seen: seq<InstructionView>, ghost first: seq<InstructionView>)
    modifies Lists(def), Pool(def.sequences)
    ensures Running(def.schedules, current, ctx0, finish, dateOf, handle, turns, actives, shown, ctx, seen, first)
    ensures Played(def.schedules, current, ctx0, finish, dateOf, handle, turns, actives, shown, ctx)
    ensures seen == Views(ScheduleList(def, PrevActive(current, actives)).items)
    ensures first == old(Views(ScheduleList(def, current).items))
    ensures |turns| <= 2 * fuel && (stop == OutOfFuel ==> |turns| >= fuel)
    ensures stop == ReachedFinish <==> ctx.currentTime >= finish
    ensures !(stop.EmptySchedule? || stop.ScheduleCycle?) ==> active == PrevActive(current, actives)
    ensures stop == EndOfInstructions ==>
              ActiveSchedule(def.schedules, dateOf(ctx.currentTime)) == Ok(active)
              && ctx.instructionIndex >= |ScheduleList(def, active).items|
    ensures stop.EmptySchedule? || stop.ScheduleCycle? ==>
              ActiveSchedule(def.schedules, dateOf(ctx.currentTime)) == Ok(active)
              && active != PrevActive(current, actives)
    ensures stop == EmptySchedule ==> ScheduleList(def, active).items == []
    ensures stop == ScheduleCycle ==> hasAnyCycle(SequenceEdges(def.sequences))
    ensures stop.ScheduleError? ==> ActiveSchedule(def.schedules, dateOf(ctx.currentTime)) == Err(stop.message)
  {
    ctx := ctx0;
    active := current;
    var cur := current;
    var list := ScheduleList(def, cur);
    var n := fuel;
    turns, actives, shown := [], [], [];
    seen := Views(list.items);
    first := seen;
    while true
      invariant list == ScheduleList(def, cur) && active == cur && cur == PrevActive(current, actives)
      invariant Running(def.schedules, current, ctx0, finish, dateOf, handle, turns, actives, shown, ctx, seen, first)
      invariant seen == Views(list.items) && fuel - n <= |turns| <= 2 * (fuel - n)
      decreases n
    {
      if ctx.currentTime >= finish {
        stop := ReachedFinish;
        return;
      }
      if n == 0 {
        stop := OutOfFuel;
        return;
      }
      n := n - 1;
      var now := ActiveSchedule(def.schedules, dateOf(ctx.currentTime));
      if now.Err? {
        stop := ScheduleError(now.error);
        return;
      }
      if now.value != cur {
        cur := now.value;
        active := cur;
        list := ScheduleList(def, cur);
        if |list.items| == 0 {
          stop := EmptySchedule;
          return;
        }
        var cycle := DetectCycle(def.sequences, hasAnyCycle);
        if cycle {
          stop := ScheduleCycle;
          return;
        }
        var passes := FlattenNested(list, def.sequences);
        RunningRestart(def.schedules, current, ctx0, finish, dateOf, handle, turns, actives, shown, ctx, seen, first,
                       cur, Views(list.items));
        seen := Views(list.items);
        ctx := ctx.(instructionIndex := 0);
        turns, actives, shown := turns + [Restart], actives + [cur], shown + [seen];
      }
      if ctx.instructionIndex >= |list.items| {
        stop := EndOfInstructions;
        return;
      }
      var view := View(list.items[ctx.instructionIndex]);
      RunningExecute(def.schedules, current, ctx0, finish, dateOf, handle, turns, actives, shown, ctx, seen, first,
                     cur, view);
      ctx := Step(ctx, view, handle);
      turns, actives, shown := turns + [Execute(view)], actives + [cur], shown + [seen];
    }
  }

  // ---------------------------------------------------------------------
  // Merging every import
  // ---------------------------------------------------------------------

  function ContentKey(c: ContentItem): string { c.key }

  function SequenceKey(s: SequenceItem): string { s.key }

  /** What an import file contributes. */
  datatype Imported = Imported(content: seq<ContentItem>, sequences: seq<SequenceItem>)

  /** A YAML file: missing, present but invalid, or loaded. */
  datatype Loaded<T> = Missing | Invalid | Loaded(value: T)

  datatype ImportsOutcome =
    | Merged(content: seq<ContentItem>, sequences: seq<SequenceItem>)
    | ImportMissing
    | ImportInvalid

  /**
   * The imports taken in order: a missing file ends the build early, an
   * invalid one fails it, and a loaded one adds its content and sequences
   * whose keys are not yet present.
   */
  function MergeAll(content: seq<ContentItem>, sequences: seq<SequenceItem>, imports: seq<Loaded<Imported>>)
    : ImportsOutcome
    decreases |imports|
  {
    if imports == [] then Merged(content, sequences)
    else
      match imports[0]
      case Missing => ImportMissing
      case Invalid => ImportInvalid
      case Loaded(im) =>
        MergeAll(content + NewEntries(content, im.content, ContentKey),
                 sequences + NewEntries(sequences, im.sequences, SequenceKey),
                 imports[1..])
  }

  lemma {:induction false} HasKeyAppend<T>(a: seq<T>, b: seq<T>, key: T -> string, k: string)
    requires HasKey(a, key, k)
    ensures HasKey(a + b, key, k)
  {
    FoldedKeysAppend(a, b, key);
  }

  /** Every key an import brings is still present once more entries are appended after the merge. */
  lemma {:induction false} CoveredAfter<T>(existing: seq<T>, imported: seq<T>, key: T -> string, final: seq<T>)
    requires Extends(existing + NewEntries(existing, imported, key), final)
    ensures forall x :: x in imported ==> HasKey(final, key, key(x))
  {
    var merged := existing + NewEntries(existing, imported, key);
    MergeCoversImports(existing, imported, key);
    assert final == merged + final[|merged|..];
    forall x | x in imported ensures HasKey(final, key, key(x)) {
      HasKeyAppend(merged, final[|merged|..], key, key(x));
    }
  }

  /** When every import loads, the main file's own entries come first, unchanged. */
  lemma {:induction false} MergeAllExtends(content: seq<ContentItem>, sequences: seq<SequenceItem>,
                                           imports: seq<Loaded<Imported>>)
    requires MergeAll(content, sequences, imports).Merged?
    ensures Extends(content, MergeAll(content, sequences, imports).content)
    ensures Extends(sequences, MergeAll(content, sequences, imports).sequences)
    decreases |imports|
  {
    if imports != [] {
      var im := imports[0].value;
      var c1 := content + NewEntries(content, im.content, ContentKey);
      var s1 := sequences + NewEntries(sequences, im.sequences, SequenceKey);
      var m := MergeAll(content, sequences, imports);
      assert m == MergeAll(c1, s1, imports[1..]);
      MergeAllExtends(c1, s1, imports[1..]);
      assert m.content[..|content|] == m.content[..|c1|][..|content|];
      assert m.sequences[..|sequences|] == m.sequences[..|s1|][..|sequences|];
    }
  }

  /** When every import loads, the merged content holds, ignoring case, the key of every imported content entry. */
  lemma {:induction false} MergeAllCoversContent(content: seq<ContentItem>, sequences: seq<SequenceItem>,
                                                 imports: seq<Loaded<Imported>>)
    requires MergeAll(content, sequences, imports).Merged?
    ensures forall k, x :: 0 <= k < |imports| && imports[k].Loaded? && x in imports[k].value.content ==>
              HasKey(MergeAll(content, sequences, imports).content, ContentKey, x.key)
    decreases |imports|
  {
    if imports != [] {
      var im := imports[0].value;
      var c1 := content + NewEntries(content, im.content, ContentKey);
      var s1 := sequences + NewEntries(sequences, im.sequences, SequenceKey);
      var m := MergeAll(content, sequences, imports);
      assert m == MergeAll(c1, s1, imports[1..]);
      MergeAllCoversContent(c1, s1, imports[1..]);
      MergeAllExtends(c1, s1, imports[1..]);
      CoveredAfter(content, im.content, ContentKey, m.content);
      forall k, x | 0 <= k < |imports| && imports[k].Loaded? && x in imports[k].value.content
        ensures HasKey(m.content, ContentKey, x.key)
      {
        if k == 0 {
          assert ContentKey(x) == x.key;
        } else {
          assert imports[1..][k - 1] == imports[k];
        }
      }
    }
  }

  /** When every import loads, the merged sequences hold, ignoring case, the key of every imported sequence. */
  lemma {:induction false} MergeAllCoversSequences(content: seq<ContentItem>, sequences: seq<SequenceItem>,
                                                   imports: seq<Loaded<Imported>>)
    requires MergeAll(content, sequences, imports).Merged?
    ensures forall k, x :: 0 <= k < |imports| && imports[k].Loaded? && x in imports[k].value.sequences ==>
              HasKey(MergeAll(content, sequences, imports).sequences, SequenceKey, x.key)
    decreases |imports|
  {
    if imports != [] {
      var im := imports[0].value;
      var c1 := content + NewEntries(content, im.content, ContentKey);
      var s1 := sequences + NewEntries(sequences, im.sequences, SequenceKey);
      var m := MergeAll(content, sequences, imports);
      assert m == MergeAll(c1, s1, imports[1..]);
      MergeAllCoversSequences(c1, s1, imports[1..]);
      MergeAllExtends(c1, s1, imports[1..]);
      CoveredAfter(sequences, im.sequences, SequenceKey, m.sequences);
      forall k, x | 0 <= k < |imports| && imports[k].Loaded? && x in imports[k].value.sequences
        ensures HasKey(m.sequences, SequenceKey, x.key)
      {
        if k == 0 {
          assert SequenceKey(x) == x.key;
        } else {
          assert imports[1..][k - 1] == imports[k];
        }
      }
    }
  }

  /** Keys that were distinct ignoring case stay distinct through every import. */
  lemma {:induction false} MergeAllKeepsKeysDistinct(content: seq<ContentItem>, sequences: seq<SequenceItem>,
                                                     imports: seq<Loaded<Imported>>)
    requires DistinctKeys(content, ContentKey) && DistinctKeys(sequences, SequenceKey)
    requires MergeAll(content, sequences, imports).Merged?
    ensures DistinctKeys(MergeAll(content, sequences, imports).content, ContentKey)
    ensures DistinctKeys(MergeAll(content, sequences, imports).sequences, SequenceKey)
    decreases |imports|
  {
    if imports != [] {
      var im := imports[0].value;
      MergeKeepsKeysDistinct(content, im.content, ContentKey);
      MergeKeepsKeysDistinct(sequences, im.sequences, SequenceKey);
      MergeAllKeepsKeysDistinct(content + NewEntries(content, im.content, ContentKey),
                                sequences + NewEntries(sequences, im.sequences, SequenceKey),
                                imports[1..]);
    }
  }

  /** Every instruction object reachable from the sequences of a loaded import. */
  function ImportPool(imports: seq<Loaded<Imported>>): set<Instruction>
  {
    set k, o | 0 <= k < |imports| && imports[k].Loaded? && o in Pool(imports[k].value.sequences) :: o
  }

  /** The merged sequences hold only instructions of the main file's sequences or of the imports'. */
  lemma {:induction false} MergeAllPool(content: seq<ContentItem>, sequences: seq<SequenceItem>,
                                        imports: seq<Loaded<Imported>>)
    requires MergeAll(content, sequences, imports).Merged?
    ensures Pool(MergeAll(content, sequences, imports).sequences) <= Pool(sequences) + ImportPool(imports)
    decreases |imports|
  {
    if imports != [] {
      var im := imports[0].value;
      var s1 := sequences + NewEntries(sequences, im.sequences, SequenceKey);
      MergeAllPool(content + NewEntries(content, im.content, ContentKey), s1, imports[1..]);
      assert Pool(s1) <= Pool(sequences) + Pool(im.sequences);
      assert Pool(im.sequences) <= ImportPool(imports);
      forall o | o in ImportPool(imports[1..]) ensures o in ImportPool(imports) {
        var k :| 0 <= k < |imports[1..]| && imports[1..][k].Loaded? && o in Pool(imports[1..][k].value.sequences);
        assert imports[1..][k] == imports[k + 1];
      }
    }
  }

  /** The loop over the definition's imports, merging content and sequences in place. */
  method ApplyImports(content: seq<ContentItem>, sequences: seq<SequenceItem>, imports: seq<Loaded<Imported>>)
    returns (outcome: ImportsOutcome)
    ensures outcome == MergeAll(content, sequences, imports)
  {
    var c := content;
    var s := sequences;
    var k := 0;
    while k < |imports|
      invariant 0 <= k <= |imports|
      invariant MergeAll(c, s, imports[k..]) == MergeAll(content, sequences, imports)
    {
      assert imports[k..][1..] == imports[k + 1..];
      match imports[k] {
        case Missing =>
          return ImportMissing;
        case Invalid =>
          return ImportInvalid;
        case Loaded(im) =>
          c := MergeImported(c, im.content, ContentKey);
          s := MergeImported(s, im.sequences, SequenceKey);
      }
      k := k + 1;
    }
    outcome := Merged(c, s);
  }

  // ---------------------------------------------------------------------
  // Build
  // ---------------------------------------------------------------------

  /** What a build asks of the caller: items and history to remove, and what was added. */
  datatype BuildResult = BuildResult(
    clearItems: bool,
    removeBefore: Option<int>,
    historyToRemove: seq<int>,
    addedItems: seq<PlayoutItem>,
    addedHistory: seq<History>)

  const EmptyResult: BuildResult := BuildResult(false, None, [], [], [])

  /** Days a build covers when the configuration has no value. */
  const DefaultDaysToBuild: int := 2

  /** Where the next build continues: the latest finish of the items added, or the current time when none was. */
  function AnchorNextStart(ctx: Context): (r: int)
    ensures ctx.addedItems == [] ==> r == ctx.currentTime
    ensures ctx.addedItems != [] ==>
              (forall i :: 0 <= i < |ctx.addedItems| ==> ctx.addedItems[i].finish <= r)
              && exists i :: 0 <= i < |ctx.addedItems| && ctx.addedItems[i].finish == r
  {
    if ctx.addedItems == [] then ctx.currentTime else MaxFinish(ctx.addedItems)
  }

  /** The context after the reset instructions: only those whose handler runs on reset take effect. */
  function OnReset(ctx: Context, resets: seq<Instruction>, handle: Handler): Context
    reads set o | o in resets
  {
    if resets == [] then ctx
    else
      var i := resets[|resets| - 1];
      var before := OnReset(ctx, resets[..|resets| - 1], handle);
      if i.kind.HandledInstruction? && i.kind.runsOnReset then handle(before, View(i)) else before
  }

  /** Reset instructions none of which runs on reset leave the context as it was. */
  lemma {:induction false} OnResetSkipsOthers(ctx: Context, resets: seq<Instruction>, handle: Handler)
    requires forall k :: 0 <= k < |resets| ==> !(resets[k].kind.HandledInstruction? && resets[k].kind.runsOnReset)
    ensures OnReset(ctx, resets, handle) == ctx
  {
    if resets != [] {
      var init := resets[..|resets| - 1];
      assert forall k :: 0 <= k < |init| ==> init[k] == resets[k];
      OnResetSkipsOthers(ctx, init, handle);
    }
  }

  method RunResetInstructions(ctx: Context, resets: seq<Instruction>, handle: Handler) returns (r: Context)
    ensures r == OnReset(ctx, resets, handle)
  {
    r := ctx;
    for k := 0 to |resets|
      invariant r == OnReset(ctx, resets[..k], handle)
    {
      assert resets[..k + 1][..k] == resets[..k];
      var i := resets[k];
      if i.kind.HandledInstruction? && i.kind.runsOnReset {
        r := handle(r, View(i));
      }
    }
    assert resets[..|resets|] == resets;
  }

  /** Everything a build may write: the instruction lists and every sequence item, the imports' included. */
  function BuildFrame(main: Loaded<Definition>, imports: seq<Loaded<Imported>>): set<object>
  {
    if main.Loaded? then Lists(main.value) + Pool(main.value.sequences) + ImportPool(imports) else {}
  }

  /** The ids a build removes before cleaning up: on reset, the future and still-playing history. */
  function BaseRemovals(mode: BuildMode, history: seq<History>, start: int): seq<int>
  {
    if mode == Reset then ResetRemovals(history, start) else []
  }

  /** The reset instructions of the schedule in force: its own when it has any, the definition's otherwise. */
  function ResetsFor(def: Definition, active: Option<nat>): seq<Instruction>
  {
    if active.Some? && active.value < |def.schedules| && |def.schedules[active.value].reset| > 0
    then def.schedules[active.value].reset
    else def.reset
  }

  /**
   * The context the main loop starts from, with nothing added yet: on reset
   * the position the reset instructions leave, otherwise the restored
   * position, or the start and the first instruction.
   */
  function StartContext(mode: BuildMode, restored: Option<(int, nat)>, start: int, afterReset: Context): Context
  {
    if mode == Reset then Context(afterReset.currentTime, afterReset.instructionIndex, [], [])
    else if restored.Some? then Context(restored.value.0, restored.value.1, [], [])
    else Context(start, 0, [], [])
  }

  /**
   * Build: loads the definition and its imports, prepares the context
   * (restored from the previous anchor, or reset), picks the schedule in
   * force at `start`, runs its reset instructions on reset, refuses cyclic
   * sequences, flattens the instruction list, runs the instructions until
   * `start` plus the days to build, cleans up the history and records the
   * anchor. Reading files, the calendar date of an instant, the
   * instruction handlers, the graph's cycle search and the context restored
   * from the previous anchor are parameters.
   */
  method Build(main: Loaded<Definition>, imports: seq<Loaded<Imported>>, history: seq<History>,
               start: int, configuredDays: Option<int>, mode: BuildMode, restored: Option<(int, nat)>,
               dateOf: int -> Date, handle: Handler, hasAnyCycle: seq<(string, string)> -> bool, fuel: nat)
    returns (r: Result<BuildResult>, anchor: Option<int>, ghost schedules: seq<Schedule>, ghost first: Option<nat>,
             ghost finish: int, ghost prepared: Context, ghost turns: seq<Turn>, ghost actives: seq<Option<nat>>,
             ghost shown: seq<seq<InstructionView>>, ghost final: Context)
    modifies BuildFrame(main, imports)
    ensures !main.Loaded? ==> r.Err? && anchor == None
    ensures main.Loaded? && MergeAll(main.value.content, main.value.sequences, imports) == ImportMissing ==>
              r == Ok(EmptyResult) && anchor == None
    ensures main.Loaded? && MergeAll(main.value.content, main.value.sequences, imports) == ImportInvalid ==>
              r.Err? && anchor == None
    ensures r.Err? ==> anchor == None
    ensures r.Ok? && anchor == None ==> r.value == EmptyResult
    ensures anchor.Some? ==>
              main.Loaded? && MergeAll(main.value.content, main.value.sequences, imports).Merged?
              && !hasAnyCycle(SequenceEdges(MergeAll(main.value.content, main.value.sequences, imports).sequences))
              && r.Ok? && r.value.removeBefore == Some(start) && r.value.clearItems == (mode == Reset)
              && r.value.addedItems == final.addedItems && r.value.addedHistory == final.addedHistory
              && anchor.value == AnchorNextStart(final)
    ensures anchor.Some? ==>
              schedules == main.value.schedules
              && ActiveSchedule(schedules, dateOf(start)) == Ok(first)
              && finish == start + configuredDays.GetOr(DefaultDaysToBuild) * TicksPerDay
              && prepared == StartContext(mode, restored, start,
                                          old(OnReset(Context(start, 0, [], []), ResetsFor(main.value, first), handle)))
              && Played(schedules, first, prepared, finish, dateOf, handle, turns, actives, shown, final)
              && SegmentShows(turns, shown, Views(ScheduleList(main.value, PrevActive(first, actives)).items))
    ensures anchor.Some? ==>
              var base := BaseRemovals(mode, history, start);
              Extends(base, r.value.historyToRemove)
              && forall id :: id in r.value.historyToRemove[|base|..] <==>
                                exists h :: h in history && h.id == id && Stale(h, history, start)
  {
    anchor := None;
    final := Context(start, 0, [], []);
    schedules, first, finish := [], None, start;
    prepared, turns, actives, shown := final, [], [], [];
    if !main.Loaded? {
      r := Err(if main.Missing? then "Sequential schedule file does not exist" else "Sequential schedule file is invalid");
      return;
    }
    var def := main.value;
    var merged := ApplyImports(def.content, def.sequences, imports);
    if merged.ImportMissing? {
      r := Ok(EmptyResult);
      return;
    }
    if merged.ImportInvalid? {
      r := Err("YAML playout import is invalid");
      return;
    }
    MergeAllPool(def.content, def.sequences, imports);
    def := def.(content := merged.content, sequences := merged.sequences);
    assert Lists(def) == Lists(main.value);
    var until := start + configuredDays.GetOr(DefaultDaysToBuild) * TicksPerDay;

    var ctx := Context(start, 0, [], []);
    var clearItems := false;
    var toRemove: seq<int> := [];
    if mode != Reset {
      if restored.Some? {
        ctx := ctx.(currentTime := restored.value.0, instructionIndex := restored.value.1);
      }
    } else {
      clearItems := true;
      toRemove := ResetRemovals(history, start);
    }

    var active := ActiveSchedule(def.schedules, dateOf(start));
    if active.Err? {
      r := Err(active.error);
      return;
    }
    var resets := ResetsFor(def, active.value);
    var list := ScheduleList(def, active.value);
    if |list.items| == 0 {
      r := Err("No playout instructions found");
      return;
    }
    assert resets == ResetsFor(main.value, active.value);
    ghost var afterReset := OnReset(Context(start, 0, [], []), resets, handle);
    if mode == Reset {
      ctx := RunResetInstructions(ctx, resets, handle);
    }
    // a fresh context: only the current time and the instruction index carry over
    ctx := Context(ctx.currentTime, ctx.instructionIndex, [], []);
    prepared := ctx;
    assert prepared == StartContext(mode, restored, start, afterReset);

    var cycle := DetectCycle(def.sequences, hasAnyCycle);
    if cycle {
      r := Err("YAML sequence contains a cycle; unable to build playout");
      return;
    }
    var passes := FlattenNested(list, def.sequences);
    schedules, first, finish := def.schedules, active.value, until;
    // the history clean-up depends only on the history and the start
    var base := toRemove;
    toRemove := CleanUpHistory(history, start, toRemove);

    var stop: StopReason;
    ghost var last: Option<nat>;
    ghost var seen, firstSeen;
    ctx, stop, last, turns, actives, shown, seen, firstSeen := RunInstructions(def, active.value, ctx, until, dateOf, handle, hasAnyCycle, fuel);
    if stop.ScheduleError? {
      r := Err(stop.message);
      return;
    }

    assert ScheduleList(def, PrevActive(active.value, actives)) == ScheduleList(main.value, PrevActive(active.value, actives));
    anchor := Some(AnchorNextStart(ctx));
    final := ctx;
    r := Ok(BuildResult(clearItems, Some(start), toRemove, ctx.addedItems, ctx.addedHistory));
  }
}
