/** The progress engine of the addiction detail screen: elapsed-time breakdown, percentage of
    the 30-day goal, the gamification ladder, the relapse calendar, the report figures and the
    savings figures. Everything is a pure function of the record and an explicit `now`. */
module AddictionDetail {
  import opened Types
  import Numerals
  import opened Arithmetic

  // ---------------------------------------------------------------------------------------
  // Elapsed time and the 30-day goal

  /** What calculateProgress returns. */
  datatype Progress = Progress(days: int, hours: int, minutes: int, seconds: int, percent: int)

  /** The goal cycle the percentage is measured against, in days. */
  const GOAL_DAYS: int := 30

  /** Math.round: the nearest integer, halves rounded up. */
  function Round(x: real): (n: int)
    ensures n as real - 0.5 <= x < n as real + 0.5
  {
    (x + 0.5).Floor
  }

  function MinReal(a: real, b: real): (m: real)
    ensures m <= a && m <= b && (m == a || m == b)
  {
    if a <= b then a else b
  }

  /** round(min(days / 30 * 100, 100)): the share of the goal reached, never above 100 and full
      from the goal on. */
  function GoalPercent(days: int): (p: int)
    ensures p <= 100
    ensures days >= GOAL_DAYS ==> p == 100
  {
    Round(MinReal(days as real / GOAL_DAYS as real * 100.0, 100.0))
  }

  /** calculateProgress: |now - start| split into days, hours, minutes and seconds. The absolute
      value means a start in the future counts forward just as a start in the past. */
  function CalculateProgress(start: int, now: int): (p: Progress)
    ensures p.days >= 0
    ensures 0 <= p.hours < 24 && 0 <= p.minutes < 60 && 0 <= p.seconds < 60
    ensures p.days * 86400 + p.hours * 3600 + p.minutes * 60 + p.seconds
            == Abs(now - start) / MS_PER_SECOND
    ensures p.percent == GoalPercent(p.days)
  {
    var diff := Abs(now - start);
    var days := diff / MS_PER_DAY;
    var hours := (diff % MS_PER_DAY) / MS_PER_HOUR;
    var minutes := (diff % MS_PER_HOUR) / MS_PER_MINUTE;
    var seconds := (diff % MS_PER_MINUTE) / MS_PER_SECOND;
    DecomposeMillis(diff);
    Progress(days, hours, minutes, seconds, GoalPercent(days))
  }

  /** The mixed-radix identity behind the breakdown. */
  lemma DecomposeMillis(diff: nat)
    ensures (diff % MS_PER_DAY) / MS_PER_HOUR < 24
    ensures (diff % MS_PER_HOUR) / MS_PER_MINUTE < 60
    ensures (diff % MS_PER_MINUTE) / MS_PER_SECOND < 60
    ensures (diff / MS_PER_DAY) * 86400 + ((diff % MS_PER_DAY) / MS_PER_HOUR) * 3600
            + ((diff % MS_PER_HOUR) / MS_PER_MINUTE) * 60 + (diff % MS_PER_MINUTE) / MS_PER_SECOND
            == diff / MS_PER_SECOND
  {
    var d, rd := diff / 86400000, diff % 86400000;
    var h, rh := rd / 3600000, rd % 3600000;
    var m, rm := rh / 60000, rh % 60000;
    var sec, rs := rm / 1000, rm % 1000;
    DivModUnique(diff, 3600000, 24 * d + h, rh);
    DivModUnique(diff, 60000, 1440 * d + 60 * h + m, rm);
    DivModUnique(diff, 1000, 86400 * d + 3600 * h + 60 * m + sec, rs);
  }

  /** Swapping the two instants changes nothing: nothing is clamped. */
  lemma ProgressSymmetric(start: int, now: int)
    ensures CalculateProgress(start, now) == CalculateProgress(now, start)
  {
  }

  /** A start k milliseconds in the future reads like a start k milliseconds in the past. */
  lemma FutureStartMirrorsPast(now: int, k: int)
    ensures CalculateProgress(now + k, now) == CalculateProgress(now - k, now)
  {
  }

  lemma GoalPercentBounds(days: int)
    requires days >= 0
    ensures 0 <= GoalPercent(days) <= 100
  {
  }

  /** The "Meta: 30 dias" goal is reached exactly when 30 days have passed. */
  lemma GoalPercentFullIff(days: int)
    requires days >= 0
    ensures GoalPercent(days) == 100 <==> days >= GOAL_DAYS
  {
    if days < GOAL_DAYS {
      GoalPercentExact(days);
    }
  }

  /** Below the goal the rounded percentage is an integer expression: round(10d/3) = (10d+1)/3. */
  lemma GoalPercentExact(days: int)
    requires 0 <= days < GOAL_DAYS
    ensures GoalPercent(days) == (10 * days + 1) / 3
  {
    var q := (10 * days + 1) / 3;
    var r := (10 * days + 1) % 3;
    var x := days as real / 30.0 * 100.0;
    assert x == (10 * days) as real / 3.0;
    assert 10 * days == 3 * q + r - 1;
    assert x + 0.5 == q as real + (r - 1) as real / 3.0 + 0.5;
    assert q as real <= x + 0.5 < q as real + 1.0;
  }

  lemma GoalPercentMonotone(d1: int, d2: int)
    requires 0 <= d1 <= d2
    ensures GoalPercent(d1) <= GoalPercent(d2)
  {
    var x1 := MinReal(d1 as real / 30.0 * 100.0, 100.0);
    var x2 := MinReal(d2 as real / 30.0 * 100.0, 100.0);
    assert x1 <= x2;
    assert (x1 + 0.5).Floor <= (x2 + 0.5).Floor;
  }

  /** Half of the goal cycle is shown as 50 % of the goal, ten days as 33 %. */
  lemma GoalPercentExamples()
    ensures GoalPercent(15) == 50 && GoalPercent(10) == 33
    ensures GoalPercent(30) == 100 && GoalPercent(45) == 100
  {
    GoalPercentExact(15);
    GoalPercentExact(10);
  }

  // ---------------------------------------------------------------------------------------
  // The gamification ladder

  /** What getGamificationLevel returns; `progress` is exact, before display rounding. */
  datatype Gamification = Gamification(level: int, title: string, emoji: string,
                                       progress: real, nextLevel: int)

  /** The day counts at which levels 1 to 9 begin, and 365, where the yearly tiers begin. */
  const LadderStarts: seq<int> := [1, 3, 7, 14, 21, 30, 60, 90, 180, 365]

  const DAYS_PER_YEAR: int := 365

  /** getGamificationLevel: a fixed ladder of nine brackets, then one tier per elapsed year. */
  function GetGamificationLevel(days: int): (g: Gamification)
    ensures g.nextLevel > days
    ensures 0.0 <= g.progress < 100.0
    ensures g.level == 0 <==> days < 1
    ensures g.level != 10
  {
    if days < 1 then Gamification(0, "Iniciante", "🌱", 0.0, 1)
    else if days < 3 then Gamification(1, "Primeiro Passo", "👣", (days as real / 3.0) * 100.0, 3)
    else if days < 7 then Gamification(2, "Determinado", "💪", ((days - 3) as real / 4.0) * 100.0, 7)
    else if days < 14 then Gamification(3, "Guerreiro", "⚔️", ((days - 7) as real / 7.0) * 100.0, 14)
    else if days < 21 then Gamification(4, "Campeão", "🏆", ((days - 14) as real / 7.0) * 100.0, 21)
    else if days < 30 then Gamification(5, "Mestre", "🎖️", ((days - 21) as real / 9.0) * 100.0, 30)
    else if days < 60 then Gamification(6, "Lenda", "⭐", ((days - 30) as real / 30.0) * 100.0, 60)
    else if days < 90 then Gamification(7, "Titã", "💎", ((days - 60) as real / 30.0) * 100.0, 90)
    else if days < 180 then Gamification(8, "Imortal", "👑", ((days - 90) as real / 90.0) * 100.0, 180)
    else if days < 365 then Gamification(9, "Divino", "✨", ((days - 180) as real / 185.0) * 100.0, 365)
    else
      var yearsPassed := days / DAYS_PER_YEAR;
      var daysInCurrentYear := days % DAYS_PER_YEAR;
      Gamification(10 + yearsPassed,
                   TranscendentTitle(yearsPassed),
                   "🌟",
                   (daysInCurrentYear as real / 365.0) * 100.0,
                   (yearsPassed + 1) * DAYS_PER_YEAR)
  }

  /** `Transcendente ${yearsPassed > 0 ? `Ano ${yearsPassed + 1}` : ''}` */
  function TranscendentTitle(yearsPassed: int): string
  {
    "Transcendente " + (if yearsPassed > 0 then "Ano " + Numerals.IntToString(yearsPassed + 1) else "")
  }

  /** Levels 1 to 9 occupy the brackets [1,3), [3,7), ..., [180,365), and each names the end
      of its bracket as the next threshold. */
  lemma LadderBrackets(days: int, k: int)
    requires 1 <= k <= 9 && LadderStarts[k - 1] <= days < LadderStarts[k]
    ensures GetGamificationLevel(days).level == k
    ensures GetGamificationLevel(days).nextLevel == LadderStarts[k]
  {
  }

  /** From one year on the level is 10 plus the completed years, so at least 11: level 10 is
      never reached, the ladder goes from 9 straight to 11. */
  lemma YearlyTiers(days: int)
    requires days >= DAYS_PER_YEAR
    ensures GetGamificationLevel(days).level == 10 + days / DAYS_PER_YEAR >= 11
    ensures GetGamificationLevel(days).title
            == "Transcendente Ano " + Numerals.IntToString(days / DAYS_PER_YEAR + 1)
    ensures GetGamificationLevel(days).nextLevel == (days / DAYS_PER_YEAR + 1) * DAYS_PER_YEAR
  {
  }

  lemma LevelMonotone(d1: int, d2: int)
    requires d1 <= d2
    ensures GetGamificationLevel(d1).level <= GetGamificationLevel(d2).level
  {
    if d1 >= DAYS_PER_YEAR {
      DivMonotone(d1, d2, DAYS_PER_YEAR);
    }
  }

  /** nextLevel is exactly where the level changes: every day from `days` up to nextLevel - 1
      has the same level, and nextLevel itself has a higher one. So "Faltam nextLevel - days
      dias" counts the days that remain until the next level. */
  lemma NextLevelIsThreshold(days: int, later: int)
    requires days <= later < GetGamificationLevel(days).nextLevel
    ensures GetGamificationLevel(later).level == GetGamificationLevel(days).level
    ensures GetGamificationLevel(GetGamificationLevel(days).nextLevel).level
            > GetGamificationLevel(days).level
  {
    var g := GetGamificationLevel(days);
    if days >= DAYS_PER_YEAR {
      var y := days / DAYS_PER_YEAR;
      DivModUnique(later, DAYS_PER_YEAR, y, later - y * DAYS_PER_YEAR);
      DivModUnique(g.nextLevel, DAYS_PER_YEAR, y + 1, 0);
    }
  }

  /** The progress bar is empty exactly when a bracket or a year has just begun, or before the
      first day. Day 1 is not such a day: the first bracket measures from 0, so it shows 1/3. */
  lemma ProgressZeroIff(days: int)
    ensures GetGamificationLevel(days).progress == 0.0
            <==> days < 1 || days in {3, 7, 14, 21, 30, 60, 90, 180}
                 || (days >= DAYS_PER_YEAR && days % DAYS_PER_YEAR == 0)
  {
  }

  lemma FirstDayProgress()
    ensures GetGamificationLevel(1).progress == 100.0 / 3.0
    ensures GetGamificationLevel(2).progress == 200.0 / 3.0
  {
  }

  /** A worked example: 400 days is the second year. */
  lemma SecondYearExample()
    ensures GetGamificationLevel(400).level == 11
    ensures GetGamificationLevel(400).title == "Transcendente Ano 2"
    ensures GetGamificationLevel(400).nextLevel == 730
  {
  }

  // ---------------------------------------------------------------------------------------
  // Relapses and the calendar

  /** handleAddRelapse: the same record with the current instant appended to its relapses. */
  function AddRelapse(a: Addiction, now: int): (u: Addiction)
    ensures u.relapses == a.relapses + [now]
    ensures u.(relapses := a.relapses) == a
  {
    a.(relapses := a.relapses + [now])
  }

  /** isRelapseDay: some recorded relapse falls on the same calendar day as `date`. The calendar
      is `dayOf`, which maps an instant to the key of its local day (isSameDay compares keys). */
  function IsRelapseDay(relapses: seq<int>, date: int, dayOf: int -> int): (r: bool)
    ensures r <==> exists i :: 0 <= i < |relapses| && dayOf(relapses[i]) == dayOf(date)
  {
    if relapses == [] then false
    else dayOf(relapses[0]) == dayOf(date) || IsRelapseDay(relapses[1..], date, dayOf)
  }

  /** isSuccessDay: a day between the start of the streak and now on which nothing relapsed,
      that is, no recorded relapse shares its calendar day. */
  predicate IsSuccessDay(a: Addiction, date: int, now: int, dayOf: int -> int): (r: bool)
    ensures r <==> a.startDate <= date <= now
                   && forall i :: 0 <= i < |a.relapses| ==> dayOf(a.relapses[i]) != dayOf(date)
  {
    date >= a.startDate && date <= now && !IsRelapseDay(a.relapses, date, dayOf)
  }

  lemma SuccessAndRelapseExclusive(a: Addiction, date: int, now: int, dayOf: int -> int)
    ensures !(IsSuccessDay(a, date, now, dayOf) && IsRelapseDay(a.relapses, date, dayOf))
  {
  }

  /** A success day is any day of the streak window that is not a relapse day. */
  lemma SuccessDayIff(a: Addiction, date: int, now: int, dayOf: int -> int)
    requires a.startDate <= date <= now
    ensures IsSuccessDay(a, date, now, dayOf) <==> !IsRelapseDay(a.relapses, date, dayOf)
  {
  }

  /** The order in which relapses were recorded does not matter, only which ones there are. */
  lemma RelapseDayIgnoresOrder(r1: seq<int>, r2: seq<int>, date: int, dayOf: int -> int)
    requires multiset(r1) == multiset(r2)
    ensures IsRelapseDay(r1, date, dayOf) == IsRelapseDay(r2, date, dayOf)
  {
    if IsRelapseDay(r1, date, dayOf) {
      var i :| 0 <= i < |r1| && dayOf(r1[i]) == dayOf(date);
      assert r1[i] in multiset(r2);
      var j :| 0 <= j < |r2| && r2[j] == r1[i];
    }
    if IsRelapseDay(r2, date, dayOf) {
      var j :| 0 <= j < |r2| && dayOf(r2[j]) == dayOf(date);
      assert r2[j] in multiset(r1);
      var i :| 0 <= i < |r1| && r1[i] == r2[j];
    }
  }

  /** Recording a relapse marks its own day and no other. */
  lemma AddRelapseMarksOnlyItsDay(a: Addiction, now: int, date: int, dayOf: int -> int)
    ensures IsRelapseDay(AddRelapse(a, now).relapses, date, dayOf)
            == (IsRelapseDay(a.relapses, date, dayOf) || dayOf(now) == dayOf(date))
  {
    var rs := AddRelapse(a, now).relapses;
    if IsRelapseDay(a.relapses, date, dayOf) {
      var i :| 0 <= i < |a.relapses| && dayOf(a.relapses[i]) == dayOf(date);
      assert rs[i] == a.relapses[i];
    }
    if dayOf(now) == dayOf(date) {
      assert rs[|a.relapses|] == now;
    }
  }

  /** A calendar whose days are consecutive blocks of 24 hours, shifted by a fixed offset from
      UTC: the local day of every instant when the zone has no daylight-saving changes. */
  function FixedOffsetDay(offset: int, ts: int): int
  {
    (ts + offset) / MS_PER_DAY
  }

  /** With such a calendar, any time of the relapse's day is a relapse day, and the instants
      exactly one day before and after are not, when that is the only relapse. */
  lemma RelapseDayByTimeOfDay(offset: int, r: int, date: int)
    ensures var dayOf := t => FixedOffsetDay(offset, t);
            && (FixedOffsetDay(offset, date) == FixedOffsetDay(offset, r)
                ==> IsRelapseDay([r], date, dayOf))
            && !IsRelapseDay([r], r + MS_PER_DAY, dayOf)
            && !IsRelapseDay([r], r - MS_PER_DAY, dayOf)
  {
    var k := (r + offset) / MS_PER_DAY;
    var m := (r + offset) % MS_PER_DAY;
    DivModUnique(r + MS_PER_DAY + offset, MS_PER_DAY, k + 1, m);
    DivModUnique(r - MS_PER_DAY + offset, MS_PER_DAY, k - 1, m);
  }

  // ---------------------------------------------------------------------------------------
  // The report tab

  /** totalRelapses, successRate (exact, before toFixed(1)) and longestStreak. */
  datatype Report = Report(totalRelapses: int, successRate: real, longestStreak: int)

  function ReportStats(a: Addiction, days: int): (r: Report)
    ensures r.totalRelapses == |a.relapses|
    ensures r.longestStreak + r.totalRelapses == days
    ensures days > 0 ==> r.successRate * days as real == (days - |a.relapses|) as real * 100.0
    ensures days <= 0 ==> r.successRate == 100.0
  {
    var totalRelapses := |a.relapses|;
    var successRate := if days > 0 then (days - totalRelapses) as real / days as real * 100.0
                       else 100.0;
    Report(totalRelapses, successRate, days - totalRelapses)
  }

  /** The rate never exceeds 100 %, is 100 % without relapses, and goes below zero once there
      are more relapses than days. The streak figure is days minus relapses, which can be
      negative too: it is an approximation, not the longest run of clean days. */
  lemma SuccessRateRange(a: Addiction, days: int)
    ensures ReportStats(a, days).successRate <= 100.0
    ensures a.relapses == [] ==> ReportStats(a, days).successRate == 100.0
    ensures days > 0 ==> (ReportStats(a, days).successRate >= 0.0 <==> |a.relapses| <= days)
    ensures ReportStats(a, days).longestStreak < 0 <==> |a.relapses| > days
  {
    var n := |a.relapses|;
    if days > 0 {
      var rate := ReportStats(a, days).successRate;
      assert rate * days as real == (days - n) as real * 100.0;
      if rate >= 0.0 {
        assert (days - n) as real * 100.0 >= 0.0;
      } else {
        assert rate * days as real < 0.0;
      }
    }
  }

  /** Each recorded relapse takes 100/days points off the success rate. */
  lemma RelapseCostsRate(a: Addiction, now: int, days: int)
    requires days > 0
    ensures ReportStats(AddRelapse(a, now), days).successRate
            == ReportStats(a, days).successRate - 100.0 / days as real
    ensures ReportStats(AddRelapse(a, now), days).totalRelapses
            == ReportStats(a, days).totalRelapses + 1
  {
    var n := |a.relapses|;
    assert (days - (n + 1)) as real / days as real
           == (days - n) as real / days as real - 1.0 / days as real;
  }

  // ---------------------------------------------------------------------------------------
  // Savings

  /** money * (days / 30): the monthly amount extrapolated linearly to the elapsed days. */
  function SavedSoFar(money: real, days: int): (saved: real)
    ensures days == 0 ==> saved == 0.0
    ensures days == 30 ==> saved == money
    ensures money >= 0.0 && days >= 0 ==> saved >= 0.0
  {
    money * (days as real / 30.0)
  }

  /** money * 12: the projection for one year. */
  function AnnualProjection(money: real): (year: real)
    ensures year == SavedSoFar(money, 360)
  {
    money * 12.0
  }

  lemma SavingsFacts(money: real, d1: int, d2: int)
    ensures SavedSoFar(money, 0) == 0.0
    ensures SavedSoFar(money, 30) == money
    ensures SavedSoFar(money, 360) == AnnualProjection(money)
    ensures SavedSoFar(money, d1 + d2) == SavedSoFar(money, d1) + SavedSoFar(money, d2)
    ensures money >= 0.0 && d1 <= d2 ==> SavedSoFar(money, d1) <= SavedSoFar(money, d2)
  {
    assert SavedSoFar(money, d2) - SavedSoFar(money, d1) == money * ((d2 - d1) as real / 30.0);
  }

  /** A streak started exactly ten days ago with 500 spent per month: ten days shown, a third
      of the goal, the third level, and a third of the monthly amount saved. */
  lemma TenDayScenario(now: int)
    ensures CalculateProgress(now - 10 * MS_PER_DAY, now).days == 10
    ensures CalculateProgress(now - 10 * MS_PER_DAY, now).percent == 33
    ensures GetGamificationLevel(10).level == 3 && GetGamificationLevel(10).title == "Guerreiro"
    ensures SavedSoFar(500.0, 10) == 500.0 / 3.0
  {
    DivModUnique(10 * MS_PER_DAY, MS_PER_DAY, 10, 0);
    assert Abs(now - (now - 10 * MS_PER_DAY)) == 10 * MS_PER_DAY;
    GoalPercentExamples();
  }

  /** The time line names its day count: two lines for the same time text are equal only
      when they show the same number of days. */
  lemma TimeLineNamesDays(time: string, d1: int, d2: int)
    requires TimeLine(time, d1) == TimeLine(time, d2)
    ensures d1 == d2
  {
    var l1, l2 := TimeLine(time, d1), TimeLine(time, d2);
    var n1, n2 := Numerals.IntToString(d1), Numerals.IntToString(d2);
    assert l1[|time| + 3..|l1| - 5] == n1;
    assert l2[|time| + 3..|l2| - 5] == n2;
    Numerals.IntToStringInjective(d1, d2);
  }

  /** The time line pairs the free text with the day count: "<time> × <days> dias". */
  function TimeLine(time: string, days: int): (line: string)
    ensures |line| > |time| && line[..|time|] == time
    ensures line[|time|..] == " × " + Numerals.IntToString(days) + " dias"
  {
    time + " × " + Numerals.IntToString(days) + " dias"
  }
}
