/** Snapshot names: `YYYYMMDD-HHMM`, their byte-wise order and the civil time they spell. */
module Names {

  /** A name the daemon takes for a finished snapshot: 13 characters, eight digits, '-', four digits. */
  predicate IsBackupDir(name: string) {
    && |name| == 13
    && name[8] == '-'
    && forall i | 0 <= i < 13 && i != 8 :: '0' <= name[i] <= '9'
  }

  /** A recorded base name: nothing recorded yet, or a finished snapshot. */
  predicate IsRecorded(name: string) {
    name == "" || IsBackupDir(name)
  }

  /** The directory a copy is written to before it is renamed to `ts`. */
  function InProgress(ts: string): string {
    ts + ".inprogress"
  }

  /** Go's `<` on strings. */
  predicate LexLess(a: string, b: string) {
    if b == [] then false
    else if a == [] then true
    else a[0] < b[0] || (a[0] == b[0] && LexLess(a[1..], b[1..]))
  }

  // ---- Rank: an integer key for the byte-wise order --------------------------------------------

  function Digit(c: char): nat {
    if '0' <= c <= '9' then c as nat - '0' as nat else 0
  }

  function Value(s: string): nat {
    if s == [] then 0 else 10 * Value(s[..|s| - 1]) + Digit(s[|s| - 1])
  }

  /** 0 for the empty name, a positive number for a snapshot name. */
  function Rank(name: string): nat {
    if IsBackupDir(name) then 1 + Value(name) else 0
  }

  predicate Comparable(a: string, b: string) {
    && |a| == |b|
    && forall i | 0 <= i < |a| ::
         || (a[i] == '-' && b[i] == '-')
         || ('0' <= a[i] <= '9' && '0' <= b[i] <= '9')
  }

  /** The byte-wise order read from the back: all but the last character decide first. */
  lemma {:induction false} LexLast(a: string, x: char, b: string, y: char)
    requires |a| == |b|
    ensures LexLess(a + [x], b + [y]) <==> LexLess(a, b) || (a == b && x < y)
  {
    if a != [] {
      LexLast(a[1..], x, b[1..], y);
      assert (a + [x])[1..] == a[1..] + [x] && (b + [y])[1..] == b[1..] + [y];
      assert a == [a[0]] + a[1..] && b == [b[0]] + b[1..];
    }
  }

  lemma {:induction false} LexIsValue(a: string, b: string)
    requires Comparable(a, b)
    ensures LexLess(a, b) <==> Value(a) < Value(b)
    ensures Value(a) == Value(b) ==> a == b
  {
    if a != [] {
      var n := |a| - 1;
      assert Comparable(a[..n], b[..n]);
      LexIsValue(a[..n], b[..n]);
      assert a == a[..n] + [a[n]] && b == b[..n] + [b[n]];
      LexLast(a[..n], a[n], b[..n], b[n]);
    }
  }

  /** On recorded names the byte-wise order is the order of ranks, and a rank determines its name. */
  lemma LexIsRank(a: string, b: string)
    requires IsRecorded(a) && IsRecorded(b)
    ensures LexLess(a, b) <==> Rank(a) < Rank(b)
    ensures Rank(a) == Rank(b) <==> a == b
  {
    if IsBackupDir(a) && IsBackupDir(b) {
      LexIsValue(a, b);
    }
  }

  lemma RankInjective(a: string, b: string)
    requires IsRecorded(a) && IsRecorded(b) && Rank(a) == Rank(b)
    ensures a == b
  {
    LexIsRank(a, b);
  }

  /** A directory being written is never taken for a finished snapshot, and no two share one. */
  lemma InProgressIsNotBackup(ts: string)
    requires IsBackupDir(ts)
    ensures !IsBackupDir(InProgress(ts))
    ensures forall t :: IsBackupDir(t) && InProgress(t) == InProgress(ts) ==> t == ts
  {
    forall t | IsBackupDir(t) && InProgress(t) == InProgress(ts)
      ensures t == ts
    {
      assert t == InProgress(t)[..13] && ts == InProgress(ts)[..13];
    }
  }

  // ---- Civil time ------------------------------------------------------------------------------

  datatype Civil = Civil(year: nat, month: nat, day: nat, hour: nat, minute: nat)

  predicate Leap(y: nat) {
    y % 4 == 0 && (y % 100 != 0 || y % 400 == 0)
  }

  function DaysIn(y: nat, m: nat): nat {
    if m == 2 then (if Leap(y) then 29 else 28)
    else if m in {4, 6, 9, 11} then 30 else 31
  }

  predicate ValidCivil(c: Civil) {
    && 1 <= c.month <= 12
    && 1 <= c.day <= DaysIn(c.year, c.month)
    && c.hour < 24
    && c.minute < 60
  }

  function DaysBeforeYear(y: nat): nat {
    if y == 0 then 0 else DaysBeforeYear(y - 1) + (if Leap(y - 1) then 366 else 365)
  }

  function DaysBeforeMonth(y: nat, m: nat): nat {
    if m <= 1 then 0 else DaysBeforeMonth(y, m - 1) + DaysIn(y, m - 1)
  }

  /** Minutes from the start of year 0 of the proleptic Gregorian calendar. */
  function Minutes(c: Civil): int
    requires ValidCivil(c)
  {
    ((DaysBeforeYear(c.year) + DaysBeforeMonth(c.year, c.month) + c.day - 1) * 24 + c.hour) * 60 + c.minute
  }

  function Two(s: string, i: nat): nat
    requires i + 2 <= |s|
  {
    10 * Digit(s[i]) + Digit(s[i + 1])
  }

  function Fields(name: string): Civil
    requires IsBackupDir(name)
  {
    Civil(100 * Two(name, 0) + Two(name, 2), Two(name, 4), Two(name, 6), Two(name, 9), Two(name, 11))
  }

  /** What `time.ParseInLocation("20060102-1504", name, …)` accepts among backup names. */
  predicate SpellsTime(name: string) {
    IsBackupDir(name) && ValidCivil(Fields(name))
  }

  predicate Earlier(a: Civil, b: Civil) {
    || a.year < b.year
    || (a.year == b.year
        && (|| a.month < b.month
            || (a.month == b.month
                && (|| a.day < b.day
                    || (a.day == b.day
                        && (a.hour < b.hour || (a.hour == b.hour && a.minute < b.minute)))))))
  }

  lemma {:induction false} YearsInOrder(x: nat, y: nat)
    requires x < y
    ensures DaysBeforeYear(x) + (if Leap(x) then 366 else 365) <= DaysBeforeYear(y)
    decreases y
  {
    if x < y - 1 {
      YearsInOrder(x, y - 1);
    }
  }

  lemma {:induction false} MonthsInOrder(y: nat, m: nat, n: nat)
    requires 1 <= m < n
    ensures DaysBeforeMonth(y, m) + DaysIn(y, m) <= DaysBeforeMonth(y, n)
    decreases n
  {
    if m < n - 1 {
      MonthsInOrder(y, m, n - 1);
    }
  }

  lemma YearLength(y: nat)
    ensures DaysBeforeMonth(y, 13) == if Leap(y) then 366 else 365
  {
    forall m | 1 <= m <= 12
      ensures DaysBeforeMonth(y, m + 1) == DaysBeforeMonth(y, m) + DaysIn(y, m)
    {
    }
    assert DaysBeforeMonth(y, 4) == 59 + 31 + if Leap(y) then 1 else 0;
    assert DaysBeforeMonth(y, 7) == DaysBeforeMonth(y, 4) + 91;
    assert DaysBeforeMonth(y, 10) == DaysBeforeMonth(y, 7) + 92;
  }

  lemma DayNumbersInOrder(a: Civil, b: Civil)
    requires ValidCivil(a) && ValidCivil(b)
    requires (a.year, a.month) != (b.year, b.month) && Earlier(a, b)
    ensures DaysBeforeYear(a.year) + DaysBeforeMonth(a.year, a.month) + a.day
         <= DaysBeforeYear(b.year) + DaysBeforeMonth(b.year, b.month)
  {
    if a.year < b.year {
      MonthsInOrder(a.year, a.month, 13);
      YearLength(a.year);
      YearsInOrder(a.year, b.year);
    } else {
      MonthsInOrder(a.year, a.month, b.month);
    }
  }

  lemma EarlierIsFewerMinutes(a: Civil, b: Civil)
    requires ValidCivil(a) && ValidCivil(b) && Earlier(a, b)
    ensures Minutes(a) < Minutes(b)
  {
    if (a.year, a.month) != (b.year, b.month) {
      DayNumbersInOrder(a, b);
    }
  }

  /** The calendar: `d` is the minute after `c`. */
  predicate NextMinute(c: Civil, d: Civil)
    requires 1 <= c.month <= 12
  {
    var february := if c.year % 400 == 0 || (c.year % 4 == 0 && c.year % 100 != 0) then 29 else 28;
    var last := [31, february, 31, 30, 31, 30, 31, 31, 30, 31, 30, 31][c.month - 1];
    if c.minute < 59 then d == c.(minute := c.minute + 1)
    else if c.hour < 23 then d == c.(hour := c.hour + 1, minute := 0)
    else if c.day < last then d == c.(day := c.day + 1, hour := 0, minute := 0)
    else if c.month < 12 then d == Civil(c.year, c.month + 1, 1, 0, 0)
    else d == Civil(c.year + 1, 1, 1, 0, 0)
  }

  lemma MinutesCount(c: Civil, d: Civil)
    requires ValidCivil(c) && NextMinute(c, d)
    ensures ValidCivil(d) && Minutes(d) == Minutes(c) + 1
  {
    if c.minute == 59 && c.hour == 23 && c.day == DaysIn(c.year, c.month) {
      if c.month == 12 {
        YearLength(c.year);
      }
    }
  }

  lemma ValueStep(s: string, i: nat)
    requires i < |s|
    ensures Value(s[..i + 1]) == 10 * Value(s[..i]) + Digit(s[i])
  {
    assert s[..i + 1][..i] == s[..i];
  }

  lemma RankOfFields(name: string)
    requires IsBackupDir(name)
    ensures var c := Fields(name);
            Rank(name) == 1 + c.year * 1000000000 + c.month * 10000000 + c.day * 100000 + c.hour * 100 + c.minute
  {
    forall i: nat | i < 13
      ensures Value(name[..i + 1]) == 10 * Value(name[..i]) + Digit(name[i])
    {
      ValueStep(name, i);
    }
    assert Value(name[..4]) == Fields(name).year;
    assert Value(name[..8]) == 10000 * Fields(name).year + 100 * Fields(name).month + Fields(name).day;
    assert name[..13] == name;
  }

  /** Chronological order of any two valid names is the order of their ranks, hence the byte-wise order. */
  lemma NameOrderIsTimeOrder(a: string, b: string)
    requires SpellsTime(a) && SpellsTime(b)
    ensures LexLess(a, b) <==> Minutes(Fields(a)) < Minutes(Fields(b))
    ensures Rank(a) < Rank(b) <==> Minutes(Fields(a)) < Minutes(Fields(b))
    ensures a == b <==> Minutes(Fields(a)) == Minutes(Fields(b))
  {
    LexIsRank(a, b);
    RankOfFields(a);
    RankOfFields(b);
    var x, y := Fields(a), Fields(b);
    if Earlier(x, y) {
      EarlierIsFewerMinutes(x, y);
    } else if Earlier(y, x) {
      EarlierIsFewerMinutes(y, x);
    }
  }
}
