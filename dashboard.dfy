/** The dashboard's own copy of the elapsed-time breakdown, computed per card. */
module Dashboard {
  import opened Types
  import AddictionDetail
  import Arithmetic

  /** calculateProgress(addiction), written out as the dashboard writes it. It is the detail
      screen's computation for the same start and instant, so both screens always agree. */
  function CalculateProgress(a: Addiction, now: int): (p: AddictionDetail.Progress)
    ensures p == AddictionDetail.CalculateProgress(a.startDate, now)
    ensures 0 <= p.hours < 24 && 0 <= p.minutes < 60 && 0 <= p.seconds < 60
    ensures p.days * 86400 + p.hours * 3600 + p.minutes * 60 + p.seconds
            == Abs(now - a.startDate) / 1000
  {
    var diffTime := Abs(now - a.startDate);
    var diffDays := diffTime / (1000 * 60 * 60 * 24);
    var diffHours := (diffTime % (1000 * 60 * 60 * 24)) / (1000 * 60 * 60);
    var diffMinutes := (diffTime % (1000 * 60 * 60)) / (1000 * 60);
    var diffSeconds := (diffTime % (1000 * 60)) / 1000;
    var progressPercent := AddictionDetail.MinReal(diffDays as real / 30.0 * 100.0, 100.0);
    AddictionDetail.Progress(diffDays, diffHours, diffMinutes, diffSeconds,
                             AddictionDetail.Round(progressPercent))
  }

  /** The card's percentage lies in [0,100] and is full exactly from day 30 on ("Meta: 30 dias"),
      whenever the record started. */
  lemma CardPercent(a: Addiction, now: int)
    ensures 0 <= CalculateProgress(a, now).percent <= 100
    ensures CalculateProgress(a, now).percent == 100 <==> CalculateProgress(a, now).days >= 30
  {
    var p := CalculateProgress(a, now);
    AddictionDetail.GoalPercentBounds(p.days);
    AddictionDetail.GoalPercentFullIff(p.days);
  }

  /** For a start not after now, the percentage never goes down as time passes. */
  lemma CardPercentMonotone(a: Addiction, now: int, later: int)
    requires a.startDate <= now <= later
    ensures CalculateProgress(a, now).percent <= CalculateProgress(a, later).percent
  {
    var p, q := CalculateProgress(a, now), CalculateProgress(a, later);
    Arithmetic.DivMonotone(now - a.startDate, later - a.startDate, MS_PER_DAY);
    AddictionDetail.GoalPercentMonotone(p.days, q.days);
  }

  /** A start in the future counts down instead: ten days ahead the card shows 33, and five
      days later only 17, because the distance to the start has shrunk. */
  lemma FutureStartCountsDown(a: Addiction, now: int)
    requires a.startDate == now + 10 * MS_PER_DAY
    ensures CalculateProgress(a, now).percent == 33
    ensures CalculateProgress(a, now + 5 * MS_PER_DAY).percent == 17
  {
    Arithmetic.DivModUnique(10 * MS_PER_DAY, MS_PER_DAY, 10, 0);
    Arithmetic.DivModUnique(5 * MS_PER_DAY, MS_PER_DAY, 5, 0);
    assert Abs(now - a.startDate) == 10 * MS_PER_DAY;
    assert Abs(now + 5 * MS_PER_DAY - a.startDate) == 5 * MS_PER_DAY;
    AddictionDetail.GoalPercentExact(10);
    AddictionDetail.GoalPercentExact(5);
  }

  /** A start after now is shown as the start mirrored into the past. */
  lemma FutureStartShownAsPast(a: Addiction, now: int)
    requires a.startDate > now
    ensures CalculateProgress(a, now) == CalculateProgress(a.(startDate := 2 * now - a.startDate), now)
  {
  }
}
