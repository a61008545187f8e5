/** The "NEW" badge of a listing card: at most three (rounded-up) days between now and the listing's date. */
module ListingGrid {
  import opened Wrappers

  const MsPerDay: nat := 1000 * 60 * 60 * 24
  const NewForDays: nat := 3

  function Abs(x: int): nat {
    if x < 0 then -x else x
  }

  /** `Math.ceil(d / k)` for a non-negative integer `d`. */
  function CeilDiv(d: nat, k: nat): nat
    requires k > 0
  {
    (d + k - 1) / k
  }

  /**
   * `isNew(dateString)` with both instants as milliseconds since the epoch;
   * `created` is None when the date string does not parse (`NaN <= 3` is false).
   */
  function IsNew(now: int, created: Option<int>): (r: bool)
    ensures r ==> created.Some?
  {
    created.Some? && CeilDiv(Abs(now - created.value), MsPerDay) <= NewForDays
  }

  /** Rounding up to whole days and comparing with 3 is comparing the distance with exactly three days. */
  lemma IsNewWithinThreeDays(now: int, created: int)
    ensures IsNew(now, Some(created)) <==> Abs(now - created) <= NewForDays * MsPerDay
  {
    var d := Abs(now - created);
    var k := MsPerDay;
    if d <= 3 * k {
      assert d + k - 1 < 4 * k;
      assert (d + k - 1) / k <= 3;
    } else {
      assert d + k - 1 >= 4 * k;
      assert (d + k - 1) / k >= 4;
    }
  }

  /** A listing dated in the future is judged by the same distance (the difference is taken absolutely). */
  lemma IsNewSymmetric(now: int, d: int)
    ensures IsNew(now, Some(now - d)) <==> IsNew(now, Some(now + d))
  {
    IsNewWithinThreeDays(now, now - d);
    IsNewWithinThreeDays(now, now + d);
  }

  /** A listing created at this very millisecond is new. */
  lemma IsNewAtZero(now: int)
    ensures IsNew(now, Some(now))
  {
    IsNewWithinThreeDays(now, now);
  }

  /** Being new is monotone in the distance: anything closer than a new listing is new too. */
  lemma IsNewMonotone(now: int, created: int, closer: int)
    requires IsNew(now, Some(created))
    requires Abs(now - closer) <= Abs(now - created)
    ensures IsNew(now, Some(closer))
  {
    IsNewWithinThreeDays(now, created);
    IsNewWithinThreeDays(now, closer);
  }

  /** Three days and one millisecond is no longer new; exactly three days still is. */
  lemma IsNewBoundary(now: int)
    ensures IsNew(now, Some(now - NewForDays * MsPerDay))
    ensures !IsNew(now, Some(now - NewForDays * MsPerDay - 1))
  {
    IsNewWithinThreeDays(now, now - NewForDays * MsPerDay);
    IsNewWithinThreeDays(now, now - NewForDays * MsPerDay - 1);
  }
}
