/** The dashboard: a calendar whose dates are marked completed or
    attempted-only from two lists of `yyyy-MM-dd` strings, date selection that
    forwards the chosen date as such a string, the completed counter out of
    15, and a logout that clears both storage areas once sign-out returns. */
module Dashboard {
  import opened Wrappers
  import Browser

  /** A year of the common era: `yyyy` prints the era year, so the model
      keeps to years from 1 on, where it equals the calendar year. */
  type Year = y: int | y >= 1 witness 1
  type Month = m: int | 1 <= m <= 12 witness 1
  type DayOfMonth = d: int | 1 <= d <= 31 witness 1

  /** A date picked on the calendar (the model does not restrict the day to
      the length of its month; formatting does not depend on it). */
  datatype Date = Date(year: Year, month: Month, day: DayOfMonth)

  // ---------------------------------------------------------------------------
  // format(date, "yyyy-MM-dd")
  // ---------------------------------------------------------------------------

  function DigitChar(d: nat): char
    requires d < 10
  {
    ('0' as int + d) as char
  }

  function DigitValue(c: char): int
  {
    c as int - '0' as int
  }

  /** A string made of decimal digits only. */
  predicate AllDigits(s: string)
  {
    forall i :: 0 <= i < |s| ==> '0' <= s[i] <= '9'
  }

  /** The decimal digits of `n`, without leading zeros. */
  function Decimal(n: nat): (s: string)
    ensures 1 <= |s| && AllDigits(s)
    ensures n < 10 ==> |s| == 1
    ensures 10 <= n < 100 ==> |s| == 2
    ensures n < 10000 ==> |s| <= 4
  {
    if n < 10 then [DigitChar(n)] else Decimal(n / 10) + [DigitChar(n % 10)]
  }

  /** Left-pads with '0' up to `width` characters. */
  function PadStart(s: string, width: nat): (r: string)
    ensures |r| == if |s| >= width then |s| else width
    ensures AllDigits(s) ==> AllDigits(r)
    decreases width - |s|
  {
    if |s| >= width then s else PadStart("0" + s, width)
  }

  /** `format(date, "yyyy-MM-dd")`: the year with at least four digits, the
      month and the day with two, joined by '-'. */
  function FormatDate(date: Date): (s: string)
    ensures |s| >= 10 && s[|s| - 6] == '-' && s[|s| - 3] == '-'
    ensures date.year < 10000 ==> |s| == 10
    ensures forall i :: 0 <= i < |s| && i != |s| - 6 && i != |s| - 3 ==> '0' <= s[i] <= '9'
  {
    var y := PadStart(Decimal(date.year), 4);
    var m := PadStart(Decimal(date.month), 2);
    var d := PadStart(Decimal(date.day), 2);
    JoinedFields(y, m, d);
    DigitsAround(y, m, d);
    y + "-" + m + "-" + d
  }

  /** Outside its two dashes, a joined `y-mm-dd` string of digit fields is all digits. */
  lemma DigitsAround(y: string, m: string, d: string)
    requires |m| == 2 && |d| == 2 && AllDigits(y) && AllDigits(m) && AllDigits(d)
    ensures var s := y + "-" + m + "-" + d;
      forall i :: 0 <= i < |s| && i != |s| - 6 && i != |s| - 3 ==> '0' <= s[i] <= '9'
  {
    var s := y + "-" + m + "-" + d;
    forall i | 0 <= i < |s| && i != |s| - 6 && i != |s| - 3
      ensures '0' <= s[i] <= '9'
    {
      if i < |y| { assert s[i] == y[i]; }
      else if i < |y| + 3 { assert s[i] == m[i - |y| - 1]; }
      else { assert s[i] == d[i - |y| - 4]; }
    }
  }

  // ---------------------------------------------------------------------------
  // Reading a formatted date back: the partner that shows formatting loses nothing
  // ---------------------------------------------------------------------------

  /** The number a string of decimal digits denotes. */
  function ValueOf(s: string): int
  {
    if s == [] then 0 else ValueOf(s[..|s| - 1]) * 10 + DigitValue(s[|s| - 1])
  }

  /** Reads `yyyy-MM-dd` (with a year of four or more digits) back into a date. */
  function ParseDate(s: string): Option<Date>
  {
    if |s| < 10 || s[|s| - 6] != '-' || s[|s| - 3] != '-' then None
    else
      var y := ValueOf(s[..|s| - 6]);
      var m := ValueOf(s[|s| - 5..|s| - 3]);
      var d := ValueOf(s[|s| - 2..]);
      if y >= 1 && 1 <= m <= 12 && 1 <= d <= 31 then Some(Date(y, m, d)) else None
  }

  lemma {:induction false} DecimalValue(n: nat)
    ensures ValueOf(Decimal(n)) == n
  {
    if n >= 10 {
      var s := Decimal(n);
      assert s[..|s| - 1] == Decimal(n / 10);
      DecimalValue(n / 10);
    }
  }

  lemma {:induction false} LeadingZeroValue(s: string)
    ensures ValueOf("0" + s) == ValueOf(s)
    decreases |s|
  {
    if s != [] {
      assert ("0" + s)[..|"0" + s| - 1] == "0" + s[..|s| - 1];
      LeadingZeroValue(s[..|s| - 1]);
    } else {
      assert ("0" + s)[..0] == [];
    }
  }

  lemma {:induction false} PadValue(s: string, width: nat)
    ensures ValueOf(PadStart(s, width)) == ValueOf(s)
    decreases width - |s|
  {
    if |s| < width {
      LeadingZeroValue(s);
      PadValue("0" + s, width);
    }
  }

  /** The three fields of a joined `y-mm-dd` string sit at fixed offsets from its end. */
  lemma JoinedFields(y: string, m: string, d: string)
    requires |m| == 2 && |d| == 2
    ensures var s := y + "-" + m + "-" + d;
      && |s| == |y| + 6 && s[|s| - 6] == '-' && s[|s| - 3] == '-'
      && s[..|s| - 6] == y && s[|s| - 5..|s| - 3] == m && s[|s| - 2..] == d
  {
  }

  /** A padded field reads back as the number it was made from. */
  lemma FieldValue(n: nat, width: nat)
    ensures ValueOf(PadStart(Decimal(n), width)) == n
  {
    DecimalValue(n);
    PadValue(Decimal(n), width);
  }

  /** Formatting then reading back gives the date again. */
  lemma FormatRoundTrip(date: Date)
    ensures ParseDate(FormatDate(date)) == Some(date)
  {
    var y := PadStart(Decimal(date.year), 4);
    var m := PadStart(Decimal(date.month), 2);
    var d := PadStart(Decimal(date.day), 2);
    JoinedFields(y, m, d);
    FieldValue(date.year, 4);
    FieldValue(date.month, 2);
    FieldValue(date.day, 2);
    assert FormatDate(date) == y + "-" + m + "-" + d;
  }

  /** Distinct dates have distinct strings, so a listed string marks at most
      one calendar date. */
  lemma FormatInjective(a: Date, b: Date)
    requires FormatDate(a) == FormatDate(b)
    ensures a == b
  {
    FormatRoundTrip(a);
    FormatRoundTrip(b);
  }

  // ---------------------------------------------------------------------------
  // Calendar marks and the counter
  // ---------------------------------------------------------------------------

  /** `isDateCompleted`: the date's string is listed as completed, and so
      that listed entry reads back as the date itself. */
  function IsDateCompleted(date: Date, completedDays: seq<string>): (r: bool)
    ensures r <==> FormatDate(date) in completedDays
    ensures r ==> exists i :: 0 <= i < |completedDays| && ParseDate(completedDays[i]) == Some(date)
  {
    FormatRoundTrip(date);
    FormatDate(date) in completedDays
  }

  /** `isDateAttempted`: the date's string is listed as attempted, and so
      that listed entry reads back as the date itself. */
  function IsDateAttempted(date: Date, attemptedDays: seq<string>): (r: bool)
    ensures r <==> FormatDate(date) in attemptedDays
    ensures r ==> exists i :: 0 <= i < |attemptedDays| && ParseDate(attemptedDays[i]) == Some(date)
  {
    FormatRoundTrip(date);
    FormatDate(date) in attemptedDays
  }

  /** The two calendar modifiers of a date. */
  datatype Marks = Marks(completed: bool, attempted: bool)

  /** `completed` marks a listed completed date; `attempted` marks a listed
      attempted date that is not completed, so no date carries both. */
  function DateMarks(date: Date, completedDays: seq<string>, attemptedDays: seq<string>): (m: Marks)
    ensures !(m.completed && m.attempted)
    ensures m.completed <==> FormatDate(date) in completedDays
    ensures m.attempted <==> FormatDate(date) in attemptedDays && FormatDate(date) !in completedDays
  {
    Marks(IsDateCompleted(date, completedDays),
          IsDateAttempted(date, attemptedDays) && !IsDateCompleted(date, completedDays))
  }

  /** The fixed length of the programme. */
  const TotalDays: nat := 15

  /** The "completed queries" counter, done out of total, and the progress
      bar's value in percent. */
  datatype Counter = Counter(done: nat, total: nat, percent: real)

  /** The counter shows the number of completed entries out of a fixed 15,
      whatever the entries are; the bar is that fraction of 100. */
  function ProgressCounter(completedDays: seq<string>): (c: Counter)
    ensures c.total == TotalDays && c.done == |completedDays|
    ensures c.percent * TotalDays as real == c.done as real * 100.0
  {
    Counter(|completedDays|, TotalDays, (|completedDays| as real / TotalDays as real) * 100.0)
  }

  /** The bar's value is 100 exactly at 15 completed entries, and above 100
      with more: the value handed to the bar is not capped. */
  lemma ProgressBarFull(completedDays: seq<string>)
    ensures var c := ProgressCounter(completedDays);
      && (c.percent == 100.0 <==> |completedDays| == TotalDays)
      && (c.percent > 100.0 <==> |completedDays| > TotalDays)
  {
    var c := ProgressCounter(completedDays);
    assert c.percent * 15.0 == |completedDays| as real * 100.0;
  }

  /** How the sign-out call ended. */
  datatype SignOutOutcome = SignedOut | SignOutThrew

  class DashboardPage {
    var selectedDate: Option<Date>

    constructor ()
      ensures selectedDate == None
    {
      selectedDate := None;
    }

    /** `handleDateSelect`: nothing happens without a date; otherwise the date
        is selected and forwarded as its `yyyy-MM-dd` string. No date is
        filtered out, completed or future ones included. */
    method HandleDateSelect(date: Option<Date>) returns (clicked: Option<string>)
      modifies this`selectedDate
      ensures date.None? ==> clicked == None && selectedDate == old(selectedDate)
      ensures date.Some? ==> selectedDate == date && clicked == Some(FormatDate(date.value))
      ensures date.Some? ==> ParseDate(clicked.value) == date
    {
      if date.Some? {
        selectedDate := date;
        clicked := Some(FormatDate(date.value));
        FormatRoundTrip(date.value);
      } else {
        clicked := None;
      }
    }

    /** `handleLogout`: once sign-out returns, clear local and session storage
        and navigate to "/"; if it throws, nothing is cleared and there is no
        navigation. */
    method HandleLogout(signOut: SignOutOutcome, local: Browser.Storage, session: Browser.Storage)
      returns (navigatedTo: Option<string>)
      modifies local, session
      ensures signOut == SignedOut ==> local.items == map[] && session.items == map[] && navigatedTo == Some("/")
      ensures signOut == SignOutThrew ==>
        local.items == old(local.items) && session.items == old(session.items) && navigatedTo == None
    {
      if signOut == SignedOut {
        local.Clear();
        session.Clear();
        navigatedTo := Some("/");
      } else {
        navigatedTo := None;
      }
    }
  }
}
