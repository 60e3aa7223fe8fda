/** Day-granular calendar arithmetic behind the weekly buckets (src/hooks/useInventory.ts,
    `getWeekKey`). */
module Calendar {
  import opened Types

  /** `Date.getDay()`: 0 is Sunday, 1 Monday, ..., 6 Saturday. Day 0 (1970-01-01) is a Thursday. */
  function Weekday(d: Day): (w: int)
    ensures 0 <= w < 7
  {
    (d + 4) % 7
  }

  predicate IsMonday(d: Day)
  {
    Weekday(d) == 1
  }

  /** The Monday that opens the Monday-to-Sunday week holding `d`: a Sunday belongs to the
      week that began six days earlier. */
  function WeekKey(d: Day): (m: Day)
    ensures IsMonday(m) && m <= d < m + 7
  {
    var w := Weekday(d);
    d - w + (if w == 0 then -6 else 1)
  }

  /** Two Mondays less than a week apart are the same day. */
  lemma MondaysAWeekApart(m: Day, m': Day)
    requires IsMonday(m) && IsMonday(m')
    requires m <= m' < m + 7
    ensures m == m'
  {
    var q, q' := (m + 4) / 7, (m' + 4) / 7;
    assert m + 4 == 7 * q + 1;
    assert m' + 4 == 7 * q' + 1;
  }

  /** `WeekKey(d)` is the only Monday within the six days up to `d`. */
  lemma WeekKeyUnique(d: Day, m: Day)
    requires IsMonday(m) && m <= d < m + 7
    ensures WeekKey(d) == m
  {
    var k := WeekKey(d);
    if k <= m { MondaysAWeekApart(k, m); } else { MondaysAWeekApart(m, k); }
  }

  /** Two days share a week key exactly when they fall in the same Monday-to-Sunday week. */
  lemma SameWeek(d1: Day, d2: Day)
    ensures WeekKey(d1) == WeekKey(d2) <==> WeekKey(d1) <= d2 < WeekKey(d1) + 7
  {
    if WeekKey(d1) <= d2 < WeekKey(d1) + 7 {
      WeekKeyUnique(d2, WeekKey(d1));
    }
  }
}
