/** Retention in a local snapshot directory: by age and by count. */
module Prune {
  import opened Names
  import opened Text

  // ---- The specification, on the names of the directories present --------------------------------

  /** The snapshots newer than `n`. */
  function Newer(names: set<string>, n: string): set<string> {
    set m | m in names && IsBackupDir(m) && Rank(n) < Rank(m)
  }

  /** What keeping the newest `keep` snapshots removes; 0 or less keeps all. */
  function CountVictims(names: set<string>, keep: int): set<string> {
    if keep <= 0 then {}
    else set n | n in names && IsBackupDir(n) && |Newer(names, n)| >= keep
  }

  const MINUTE: int := 60 * 1000 * 1000 * 1000
  const DAY: int := 24 * 60 * MINUTE

  /** The instant a valid name spells, in nanoseconds, in a zone that is `offset` ahead. */
  function Instant(name: string, offset: int): int
    requires SpellsTime(name)
  {
    Minutes(Fields(name)) * MINUTE - offset
  }

  /** `now.Add(-time.Duration(days) * 24 * time.Hour)`: the product is a 64-bit one. */
  function Cutoff(now: int, days: int): int {
    now + Wrap64(-days * DAY)
  }

  /** A snapshot a civil minute later is a minute younger, wherever the minute falls. */
  lemma InstantMeans(a: string, b: string, offset: int)
    requires SpellsTime(a) && SpellsTime(b) && NextMinute(Fields(a), Fields(b))
    ensures Instant(b, offset) == Instant(a, offset) + 60_000_000_000
  {
    MinutesCount(Fields(a), Fields(b));
  }

  /** Further ahead, a zone's clocks read the same a while earlier. */
  lemma ZoneShifts(name: string, offset: int, ahead: int)
    requires SpellsTime(name)
    ensures Instant(name, offset + ahead) == Instant(name, offset) - ahead
  {
  }

  /** What removing snapshots from before the cutoff removes; 0 days or less removes none. */
  function DaysVictims(names: set<string>, days: int, now: int, offset: int): set<string> {
    if days <= 0 then {}
    else set n | n in names && SpellsTime(n) && Instant(n, offset) < Cutoff(now, days)
  }

  // ---- Sorting -------------------------------------------------------------------------------------

  predicate Distinct(s: seq<string>) {
    forall i, j | 0 <= i < j < |s| :: s[i] != s[j]
  }

  ghost predicate Descending(s: seq<string>) {
    forall i, j | 0 <= i < j < |s| :: Rank(s[i]) > Rank(s[j])
  }

  predicate AllBackups(s: seq<string>) {
    forall i | 0 <= i < |s| :: IsBackupDir(s[i])
  }

  /** `sort.Sort(sort.Reverse(sort.StringSlice(dirs)))`: byte-wise descending. */
  method SortReverse(dirs: seq<string>) returns (sorted: seq<string>)
    requires AllBackups(dirs) && Distinct(dirs)
    ensures AllBackups(sorted) && Descending(sorted)
    ensures |sorted| == |dirs| && forall n :: n in sorted <==> n in dirs
  {
    hide LexLess, Rank, IsBackupDir;
    sorted := [];
    for i := 0 to |dirs|
      invariant AllBackups(sorted) && Descending(sorted) && |sorted| == i
      invariant forall n :: n in sorted <==> n in dirs[..i]
    {
      var d, k := dirs[i], 0;
      assert d !in dirs[..i];
      while k < |sorted| && LexLess(d, sorted[k])
        invariant k <= |sorted|
        invariant forall j | 0 <= j < k :: Rank(sorted[j]) > Rank(d)
      {
        LexIsRank(d, sorted[k]);
        k := k + 1;
      }
      if k < |sorted| {
        LexIsRank(d, sorted[k]);
        assert sorted[k] in sorted;
      }
      sorted := sorted[..k] + [d] + sorted[k..];
      assert dirs[..i + 1] == dirs[..i] + [d];
    }
    assert dirs[..|dirs|] == dirs;
  }

  function ToSet(s: seq<string>): set<string> {
    set n | n in s
  }

  lemma {:induction false} ToSetSize(s: seq<string>)
    requires Distinct(s)
    ensures |ToSet(s)| == |s|
  {
    if s != [] {
      var n := |s| - 1;
      ToSetSize(s[..n]);
      assert s == s[..n] + [s[n]];
      assert ToSet(s) == ToSet(s[..n]) + {s[n]};
      assert s[n] !in s[..n];
    }
  }

  /** In a descending list of the snapshots, a position is the number of newer snapshots. */
  lemma PositionIsNewer(names: set<string>, sorted: seq<string>, i: nat)
    requires AllBackups(sorted) && Descending(sorted) && i < |sorted|
    requires forall n :: n in sorted <==> n in names && IsBackupDir(n)
    ensures |Newer(names, sorted[i])| == i
  {
    forall m
      ensures m in Newer(names, sorted[i]) <==> m in ToSet(sorted[..i])
    {
      assert m in sorted <==> m in names && IsBackupDir(m);
    }
    assert Newer(names, sorted[i]) == ToSet(sorted[..i]);
    ToSetSize(sorted[..i]);
  }

  // ---- The pruners ---------------------------------------------------------------------------------

  datatype Kind = Directory | Other

  function Directories(entries: map<string, Kind>): set<string> {
    set n | n in entries && entries[n] == Directory
  }

  /** The directories of `entries` without those of `victims` whose removal works. */
  function Without(entries: map<string, Kind>, victims: set<string>, removable: string -> bool): map<string, Kind> {
    map n | n in entries && !(n in victims && removable(n)) :: entries[n]
  }

  class SnapshotDir {
    var entries: map<string, Kind>

    /** `os.ReadDir`, in any order. */
    method ReadDir() returns (names: seq<string>)
      ensures Distinct(names) && forall n :: n in names <==> n in entries
    {
      names := [];
      var left := entries.Keys;
      while left != {}
        invariant left <= entries.Keys && Distinct(names)
        invariant forall n :: n in names <==> n in entries && n !in left
      {
        var n :| n in left;
        assert n !in names;
        names := names + [n];
        left := left - {n};
      }
    }

    /** `os.RemoveAll`: a directory whose removal fails keeps its name. */
    method RemoveAll(name: string, works: bool)
      modifies this
      ensures entries == if works then old(entries) - {name} else old(entries)
    {
      if works {
        entries := entries - {name};
      }
    }

    /** The loop over the entries that keeps the snapshots. */
    method ListSnapshots() returns (dirs: seq<string>)
      ensures AllBackups(dirs) && Distinct(dirs)
      ensures forall n :: n in dirs <==> n in Directories(entries) && IsBackupDir(n)
    {
      ghost var all := Directories(entries);
      var names := ReadDir();
      dirs := [];
      for i := 0 to |names|
        invariant AllBackups(dirs) && Distinct(dirs)
        invariant forall n :: n in dirs <==> n in names[..i] && n in all && IsBackupDir(n)
      {
        assert names[i] !in names[..i];
        assert names[..i + 1] == names[..i] + [names[i]];
        if entries[names[i]] == Directory && IsBackupDir(names[i]) {
          dirs := dirs + [names[i]];
        }
      }
      assert names[..|names|] == names;
    }

    method PruneLocalByCount(keep: int, readable: bool, removable: string -> bool)
      modifies this
      ensures entries ==
        if readable then Without(old(entries), CountVictims(Directories(old(entries)), keep), removable)
        else old(entries)
    {
      NobodyGoes(entries, removable);
      if keep <= 0 || !readable {
        return;
      }
      hide Without, ToSet, IsBackupDir, Descending;
      ghost var all := Directories(entries);
      var dirs := ListSnapshots();
      if |dirs| <= keep {
        FewHaveNoVictims(all, dirs, keep);
        return;
      }
      var sorted := SortReverse(dirs);
      VictimsAreTheTail(all, sorted, keep);
      EmptyIsNone(sorted[keep..keep]);
      for i := keep to |sorted|
        invariant entries == Without(old(entries), ToSet(sorted[keep..i]), removable)
      {
        OneMoreGone(old(entries), sorted, keep, i, removable);
        RemoveAll(sorted[i], removable(sorted[i]));
      }
      assert sorted[keep..|sorted|] == sorted[keep..];
    }

    method PruneLocalByDays(days: int, now: int, offset: int, readable: bool, statable: string -> bool,
                            removable: string -> bool)
      modifies this
      ensures entries ==
        if readable then
          Without(old(entries), DaysVictims(Directories(old(entries)), days, now, offset),
                  n => statable(n) && removable(n))
        else old(entries)
    {
      ghost var gone := n => statable(n) && removable(n);
      NobodyGoes(entries, gone);
      if days <= 0 || !readable {
        return;
      }
      hide Without, ToSet, Cutoff, Instant, SpellsTime, IsBackupDir;
      ghost var victims := DaysVictims(Directories(entries), days, now, offset);
      var listed := entries;
      var names := ReadDir();
      var cutoff := Cutoff(now, days);
      NoneListed(victims, names);
      for i := 0 to |names|
        invariant entries == Without(old(entries), victims * ToSet(names[..i]), gone)
      {
        var name := names[i];
        assert name in names;
        OneMoreListed(listed, victims, names, i, gone);
        if listed[name] != Directory || !IsBackupDir(name) {
          continue;
        }
        if !SpellsTime(name) {
          continue;
        }
        if !statable(name) {
          continue;
        }
        if !(Instant(name, offset) < cutoff) {
          continue;
        }
        RemoveAll(name, removable(name));
      }
      AllListed(listed, victims, names);
    }
  }

  /** What a count leaves: all but those removable with enough newer snapshots beside them. */
  lemma CountMeans(entries: map<string, Kind>, keep: int, removable: string -> bool, n: string)
    ensures var left := Without(entries, CountVictims(Directories(entries), keep), removable);
            && (n in left ==> n in entries && left[n] == entries[n])
            && (n in entries ==>
                  (n !in left <==>
                    && keep > 0 && entries[n] == Directory && IsBackupDir(n) && removable(n)
                    && |set m | m in entries && entries[m] == Directory && IsBackupDir(m) && LexLess(n, m)| >= keep))
  {
    hide LexLess, Rank, IsBackupDir, Newer;
    if IsBackupDir(n) {
      NewerMeans(entries, n);
    }
  }

  lemma NewerMeans(entries: map<string, Kind>, n: string)
    requires IsBackupDir(n)
    ensures Newer(Directories(entries), n)
         == set m | m in entries && entries[m] == Directory && IsBackupDir(m) && LexLess(n, m)
  {
    hide LexLess, Rank;
    forall m | IsBackupDir(m)
      ensures LexLess(n, m) <==> Rank(n) < Rank(m)
    {
      LexIsRank(n, m);
    }
  }

  /** What an age leaves: all but the removable snapshots from before that many whole days ago. */
  lemma DaysMeans(entries: map<string, Kind>, days: int, now: int, offset: int, gone: string -> bool, n: string)
    requires days <= 106751
    ensures var left := Without(entries, DaysVictims(Directories(entries), days, now, offset), gone);
            && (n in left ==> n in entries && left[n] == entries[n])
            && (n in entries ==>
                  (n !in left <==>
                    && days > 0 && entries[n] == Directory && SpellsTime(n) && gone(n)
                    && Instant(n, offset) < now - days * 86_400_000_000_000))
  {
    hide Instant, SpellsTime;
    if days > 0 {
      CutoffIsExact(now, days);
    }
  }

  lemma NobodyGoes(entries: map<string, Kind>, gone: string -> bool)
    ensures Without(entries, {}, gone) == entries
  {
  }

  lemma EmptyIsNone(s: seq<string>)
    requires s == []
    ensures ToSet(s) == {}
  {
  }

  lemma OneMoreGone(entries: map<string, Kind>, names: seq<string>, start: nat, i: nat, gone: string -> bool)
    requires start <= i < |names|
    ensures var before := Without(entries, ToSet(names[start..i]), gone);
            Without(entries, ToSet(names[start..i + 1]), gone) ==
            if gone(names[i]) then before - {names[i]} else before
  {
    assert names[start..i + 1] == names[start..i] + [names[i]];
  }

  lemma NoneListed(victims: set<string>, names: seq<string>)
    ensures victims * ToSet(names[..0]) == {}
  {
  }

  lemma AllListed(entries: map<string, Kind>, victims: set<string>, names: seq<string>)
    requires victims <= entries.Keys && forall n :: n in names <==> n in entries
    ensures victims * ToSet(names[..|names|]) == victims
  {
    assert names[..|names|] == names;
  }

  lemma OneMoreListed(entries: map<string, Kind>, victims: set<string>, names: seq<string>, i: nat,
                      gone: string -> bool)
    requires i < |names|
    ensures var before := Without(entries, victims * ToSet(names[..i]), gone);
            Without(entries, victims * ToSet(names[..i + 1]), gone) ==
            if names[i] in victims && gone(names[i]) then before - {names[i]} else before
  {
    assert names[..i + 1] == names[..i] + [names[i]];
    assert ToSet(names[..i + 1]) == ToSet(names[..i]) + {names[i]};
  }

  lemma FewHaveNoVictims(names: set<string>, dirs: seq<string>, keep: int)
    requires 0 < keep && |dirs| <= keep && Distinct(dirs)
    requires forall n :: n in dirs <==> n in names && IsBackupDir(n)
    ensures CountVictims(names, keep) == {}
  {
    ToSetSize(dirs);
    forall n | n in names && IsBackupDir(n)
      ensures |Newer(names, n)| < keep
    {
      assert n in ToSet(dirs) && n !in Newer(names, n);
      assert Newer(names, n) <= ToSet(dirs) - {n};
      Smaller(Newer(names, n), ToSet(dirs) - {n});
    }
  }

  lemma {:induction false} Smaller(a: set<string>, b: set<string>)
    requires a <= b
    ensures |a| <= |b|
    decreases a
  {
    if a != {} {
      var x :| x in a;
      Smaller(a - {x}, b - {x});
    }
  }

  lemma VictimsAreTheTail(names: set<string>, sorted: seq<string>, keep: int)
    requires 0 < keep <= |sorted| && AllBackups(sorted) && Descending(sorted)
    requires forall n :: n in sorted <==> n in names && IsBackupDir(n)
    ensures CountVictims(names, keep) == ToSet(sorted[keep..])
  {
    forall n
      ensures n in CountVictims(names, keep) <==> n in sorted[keep..]
    {
      if n in sorted {
        var i :| 0 <= i < |sorted| && sorted[i] == n;
        PositionIsNewer(names, sorted, i);
        if keep <= i {
          assert sorted[keep..][i - keep] == n;
        }
      }
    }
  }

  // ---- What retention means --------------------------------------------------------------------------

  /** Days first, then count, as the offload worker calls them. */
  function Retained(names: set<string>, days: int, now: int, offset: int, keep: int): set<string> {
    var young := names - DaysVictims(names, days, now, offset);
    young - CountVictims(young, keep)
  }

  function RetainedCountFirst(names: set<string>, days: int, now: int, offset: int, keep: int): set<string> {
    var few := names - CountVictims(names, keep);
    few - DaysVictims(few, days, now, offset)
  }

  /** The rule a reader of the settings expects for one name. */
  predicate Wanted(names: set<string>, n: string, days: int, now: int, offset: int, keep: int) {
    IsBackupDir(n) ==>
      && (days > 0 && SpellsTime(n) ==> Cutoff(now, days) <= Instant(n, offset))
      && (keep > 0 ==> |Newer(names, n)| < keep)
  }

  lemma LaterSurvives(names: set<string>, n: string, m: string, days: int, now: int, offset: int)
    requires SpellsTime(n) && n in names && n !in DaysVictims(names, days, now, offset)
    requires m in Newer(names, n)
    ensures m !in DaysVictims(names, days, now, offset)
  {
    hide Minutes, Names.Fields, ValidCivil, Cutoff, Rank, LexLess;
    if SpellsTime(m) {
      NameOrderIsTimeOrder(n, m);
    }
  }

  /** Pruning by age removes nothing newer than a valid name it keeps. */
  lemma NewerSurvive(names: set<string>, n: string, days: int, now: int, offset: int)
    requires SpellsTime(n) && n in names && n !in DaysVictims(names, days, now, offset)
    ensures Newer(names - DaysVictims(names, days, now, offset), n) == Newer(names, n)
  {
    forall m | m in Newer(names, n)
      ensures m !in DaysVictims(names, days, now, offset)
    {
      LaterSurvives(names, n, m, days, now, offset);
    }
  }

  /**
   * For one name that spells no time the order of the passes does not matter: it is among the newest
   * `keep` before pruning by age, or not even afterwards.
   */
  predicate Settled(names: set<string>, n: string, days: int, now: int, offset: int, keep: int) {
    || keep <= 0
    || |Newer(names, n)| < keep
    || |Newer(names - DaysVictims(names, days, now, offset), n)| >= keep
  }

  lemma SameFate(names: set<string>, n: string, days: int, now: int, offset: int, keep: int)
    requires n in names
    ensures (n in Retained(names, days, now, offset, keep) <==> n in RetainedCountFirst(names, days, now, offset, keep))
       <==> (IsBackupDir(n) && !SpellsTime(n) ==> Settled(names, n, days, now, offset, keep))
  {
    var young := names - DaysVictims(names, days, now, offset);
    Smaller(Newer(young, n), Newer(names, n));
    if SpellsTime(n) && n in young {
      NewerSurvive(names, n, days, now, offset);
    }
  }

  /** On any directory the two orders of the passes keep the same, if and only if every invalid name is settled. */
  lemma OrderMattersExactly(names: set<string>, days: int, now: int, offset: int, keep: int)
    ensures Retained(names, days, now, offset, keep) == RetainedCountFirst(names, days, now, offset, keep)
       <==> forall n | n in names && IsBackupDir(n) && !SpellsTime(n) :: Settled(names, n, days, now, offset, keep)
  {
    forall n | n in names
      ensures (n in Retained(names, days, now, offset, keep)
               <==> n in RetainedCountFirst(names, days, now, offset, keep))
         <==> (IsBackupDir(n) && !SpellsTime(n) ==> Settled(names, n, days, now, offset, keep))
    {
      SameFate(names, n, days, now, offset, keep);
    }
    hide Settled, SpellsTime, DaysVictims, CountVictims;
    var a, b := Retained(names, days, now, offset, keep), RetainedCountFirst(names, days, now, offset, keep);
    assert a <= names && b <= names;
    if a == b {
      forall n | n in names && IsBackupDir(n) && !SpellsTime(n)
        ensures Settled(names, n, days, now, offset, keep)
      {
        assert n in a <==> n in b;
      }
    }
  }

  /**
   * Where every snapshot name is a valid time, the two passes keep exactly the wanted names, in
   * either order.
   */
  lemma RetentionIsExact(names: set<string>, days: int, now: int, offset: int, keep: int)
    requires forall x | x in names && IsBackupDir(x) :: SpellsTime(x)
    ensures forall n :: n in Retained(names, days, now, offset, keep)
                  <==> n in names && Wanted(names, n, days, now, offset, keep)
    ensures Retained(names, days, now, offset, keep) == RetainedCountFirst(names, days, now, offset, keep)
  {
    var young := names - DaysVictims(names, days, now, offset);
    forall n | n in young && IsBackupDir(n)
      ensures Newer(young, n) == Newer(names, n)
    {
      NewerSurvive(names, n, days, now, offset);
    }
  }

  /** Everything newer than a kept snapshot is kept, and nothing but snapshots is removed. */
  lemma RetentionIsUpwardClosed(names: set<string>, days: int, now: int, offset: int, keep: int, n: string, m: string)
    requires forall x | x in names && IsBackupDir(x) :: SpellsTime(x)
    requires n in Retained(names, days, now, offset, keep) && IsBackupDir(n)
    requires m in Newer(names, n)
    ensures m in Retained(names, days, now, offset, keep)
  {
    RetentionIsExact(names, days, now, offset, keep);
    LaterSurvives(names, n, m, days, now, offset);
    assert Newer(names, m) <= Newer(names, n);
    Smaller(Newer(names, m), Newer(names, n));
  }

  lemma RetentionTouchesSnapshotsOnly(names: set<string>, days: int, now: int, offset: int, keep: int, n: string)
    requires n in names && !IsBackupDir(n)
    ensures n in Retained(names, days, now, offset, keep)
  {
  }

  /** Keeping by count alone never removes a snapshot that has none newer. */
  lemma CountKeepsNewest(names: set<string>, keep: int, top: string)
    requires IsBackupDir(top) && Newer(names, top) == {}
    ensures top !in CountVictims(names, keep)
  {
  }

  /** Removals that fail, in either pass, only leave more: nothing else goes in their place. */
  lemma FailuresOnlyKeep(names: set<string>, days: int, now: int, offset: int, keep: int,
                         afterDays: set<string>, afterCount: set<string>)
    requires forall x | x in names && IsBackupDir(x) :: SpellsTime(x)
    requires names - DaysVictims(names, days, now, offset) <= afterDays <= names
    requires afterDays - CountVictims(afterDays, keep) <= afterCount <= afterDays
    ensures Retained(names, days, now, offset, keep) <= afterCount
  {
    RetentionIsExact(names, days, now, offset, keep);
    forall n | n in Retained(names, days, now, offset, keep)
      ensures n in afterCount
    {
      assert Newer(afterDays, n) <= Newer(names, n);
      Smaller(Newer(afterDays, n), Newer(names, n));
    }
  }

  /**
   * A name that spells no time makes the order of the passes matter: the worker's order removes the
   * newer, valid snapshot and keeps the invalid name; the other order keeps neither.
   */
  lemma InvalidNameOutlives(bad: string, good: string, days: int, now: int, offset: int)
    requires IsBackupDir(bad) && !SpellsTime(bad) && SpellsTime(good) && Rank(bad) < Rank(good)
    requires 0 < days && Instant(good, offset) < Cutoff(now, days)
    ensures Retained({bad, good}, days, now, offset, 1) == {bad}
    ensures RetainedCountFirst({bad, good}, days, now, offset, 1) == {}
  {
    var names := {bad, good};
    assert DaysVictims(names, days, now, offset) == {good};
    assert names - {good} == {bad};
    assert Newer({bad}, bad) == {};
    assert CountVictims({bad}, 1) == {};
    assert Newer(names, bad) == {good} && Newer(names, good) == {};
    assert CountVictims(names, 1) == {bad};
    assert names - {bad} == {good};
    assert DaysVictims({good}, days, now, offset) == {good};
  }

  /** Day 00 is no day: such a directory name is a snapshot name all the same. */
  lemma InvalidExample(bad: string, good: string)
    requires bad == "20250100-0000" && good == "20250101-0000"
    ensures IsBackupDir(bad) && !SpellsTime(bad) && SpellsTime(good) && Rank(bad) < Rank(good)
  {
    assert Fields(bad) == Civil(2025, 1, 0, 0, 0);
    assert Fields(good) == Civil(2025, 1, 1, 0, 0);
    RankOfFields(bad);
    RankOfFields(good);
  }

  lemma OrderMattersForInvalidNames() returns (bad: string, good: string, now: int)
    ensures Retained({bad, good}, 1, now, 0, 1) != RetainedCountFirst({bad, good}, 1, now, 0, 1)
  {
    bad, good := ExampleNames();
    now := Instant(good, 0) + 2 * DAY;
    CutoffIsExact(now, 1);
    InvalidNameOutlives(bad, good, 1, now, 0);
  }

  lemma ExampleNames() returns (bad: string, good: string)
    ensures IsBackupDir(bad) && !SpellsTime(bad) && SpellsTime(good) && Rank(bad) < Rank(good)
  {
    bad, good := "20250100-0000", "20250101-0000";
    InvalidExample(bad, good);
  }

  // ---- The cutoff's width ----------------------------------------------------------------------------

  /** The cutoff is `days` days ago for exactly the settings below 106752. */
  lemma CutoffIsExact(now: int, days: int)
    requires 0 < days <= INT64_MAX
    ensures Cutoff(now, days) == now - days * DAY <==> days <= 106751
  {
    assert DAY == 86_400_000_000_000;
  }

  /** Above that the product wraps: at 106752 days every snapshot taken up to now is removed. */
  lemma WideSettingRemovesAll(names: set<string>, now: int, offset: int, n: string)
    requires n in names && SpellsTime(n) && Instant(n, offset) <= now
    ensures n in DaysVictims(names, 106752, now, offset)
  {
    assert Wrap64(-106752 * DAY) > 0;
  }
}
