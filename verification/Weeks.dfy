/** Week boundaries, which all lock ends fall on. */
module Weeks {
  import opened Primitives
  import opened Sums

  /** Block t rounded down to a week boundary, by counting off weeks. */
  function WeekFloor(week: pos, t: nat): nat {
    if t < week then 0 else WeekFloor(week, t - week) + week
  }

  function NextWeek(week: pos, t: nat): nat {
    WeekFloor(week, t) + week
  }

  lemma OneMoreWeek(week: pos, t: nat, i: nat)
    ensures t + i * week + week == t + (i + 1) * week
    ensures i < 255 ==> t + (i + 1) * week <= t + 255 * week
  {
    if i < 255 {
      MulMono(i + 1, 255, week);
    }
  }

  predicate OnWeek(week: pos, t: nat) {
    WeekFloor(week, t) == t
  }

  /** The division the pallet rounds with. */
  lemma {:induction false} WeekFloorIsDivision(week: pos, t: nat)
    ensures t / week * week == WeekFloor(week, t)
    ensures (t / week + 1) * week == NextWeek(week, t)
  {
    if t < week {
      DivUnique(t, week, 0, t);
    } else {
      WeekFloorIsDivision(week, t - week);
      var q := (t - week) / week;
      Euclid(t - week, week);
      Distribute(week, q, 1);
      DivUnique(t, week, q + 1, (t - week) % week);
      Distribute(week, q + 1, 1);
    }
  }

  lemma {:induction false} WeekFloorBounds(week: pos, t: nat)
    ensures WeekFloor(week, t) <= t < NextWeek(week, t)
    ensures OnWeek(week, WeekFloor(week, t)) && OnWeek(week, NextWeek(week, t))
  {
    if t >= week {
      WeekFloorBounds(week, t - week);
    } else {
      assert WeekFloor(week, week) == WeekFloor(week, 0) + week;
    }
  }

  lemma {:induction false} AlignedEnd(week: pos, e: nat, t: nat)
    requires OnWeek(week, e) && t < e
    ensures NextWeek(week, t) <= e
  {
    if t >= week {
      AlignedEnd(week, e - week, t - week);
    }
  }
}
