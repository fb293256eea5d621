/** The per-card ladder of the balloon view: one level per clean week. */
module AddictionBalloon {
  import opened Types
  import opened Arithmetic

  /** calculateDaysClean: whole days from the start to today, floored, never below zero. */
  function DaysClean(start: int, today: int): (d: int)
    ensures d >= 0
    ensures today <= start ==> d == 0
    ensures today >= start ==> d * MS_PER_DAY <= today - start < (d + 1) * MS_PER_DAY
  {
    var diff := (today - start) / MS_PER_DAY;
    if diff < 0 then 0 else diff
  }

  /** calculateLevel: one level per seven clean days, starting at level 1. */
  function Level(start: int, today: int): (level: int)
    ensures level >= 1
    ensures 7 * (level - 1) <= DaysClean(start, today) < 7 * level
  {
    DaysClean(start, today) / 7 + 1
  }

  /** calculateProgress: how far into the current week, as a percentage. */
  function WeekProgress(start: int, today: int): (p: real)
    ensures 0.0 <= p < 100.0
    ensures p == 0.0 <==> DaysClean(start, today) % 7 == 0
  {
    (DaysClean(start, today) % 7) as real / 7.0 * 100.0
  }

  /** The ladder starts at 1, only climbs as today advances, and its bar stays below 100 %. */
  lemma LevelAndProgressBounds(start: int, today: int, later: int)
    requires today <= later
    ensures Level(start, today) >= 1
    ensures 0.0 <= WeekProgress(start, today) < 100.0
    ensures DaysClean(start, today) <= DaysClean(start, later)
    ensures Level(start, today) <= Level(start, later)
  {
    var d1, d2 := DaysClean(start, today), DaysClean(start, later);
    if today - start >= 0 {
      DivMonotone(today - start, later - start, MS_PER_DAY);
    }
    DivMonotone(d1, d2, 7);
  }

  /** The clean days are the completed weeks plus the days into the current one, and the bar
      empties exactly when a new level begins, at each multiple of seven. */
  lemma WeeksAndDays(start: int, today: int)
    ensures DaysClean(start, today)
            == 7 * (Level(start, today) - 1) + DaysClean(start, today) % 7
    ensures WeekProgress(start, today) == 0.0 <==> DaysClean(start, today) % 7 == 0
    ensures WeekProgress(start, today) == 0.0
            <==> DaysClean(start, today) == 7 * (Level(start, today) - 1)
  {
  }
}
