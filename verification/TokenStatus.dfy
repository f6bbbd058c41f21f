/**
 * The status line the decoder shows for a token's `exp` and `nbf` claims at the
 * current time `now` (all in whole seconds since the epoch). The claims are read
 * with JavaScript truthiness, so a claim of `0` counts as missing.
 */
module TokenStatus {
  import opened Wrappers

  const SecondsPerDay: int := 86400
  const SecondsPerHour: int := 3600

  datatype Status =
    | NoExpiry
    | Expired(exp: int)
    | NotYetValid(nbf: int)
    | Valid(exp: int, daysLeft: int, hoursLeft: int)

  /** `if (claim)` for a numeric claim: present and not zero. */
  predicate Truthy(claim: Option<int>)
  {
    claim.Some? && claim.value != 0
  }

  /**
   * The branches in order: no expiry, expired (whatever `nbf` says), not yet
   * valid, valid with the whole days and remaining whole hours left.
   */
  function Classify(exp: Option<int>, nbf: Option<int>, now: int): (s: Status)
    ensures s.NoExpiry? <==> !Truthy(exp)
    ensures s.Expired? <==> Truthy(exp) && exp.value < now
    ensures s.NotYetValid? <==> Truthy(exp) && exp.value >= now && Truthy(nbf) && nbf.value > now
    ensures s.Valid? <==> Truthy(exp) && exp.value >= now && !(Truthy(nbf) && nbf.value > now)
    ensures s.Expired? ==> s.exp == exp.value
    ensures s.NotYetValid? ==> s.nbf == nbf.value
    ensures s.Valid? ==>
              && s.exp == exp.value
              && 0 <= s.daysLeft && 0 <= s.hoursLeft < 24
              && s.daysLeft * SecondsPerDay + s.hoursLeft * SecondsPerHour <= s.exp - now
              && s.exp - now < s.daysLeft * SecondsPerDay + (s.hoursLeft + 1) * SecondsPerHour
  {
    if Truthy(exp) then
      if exp.value < now then Expired(exp.value)
      else
        var timeLeft := exp.value - now;
        var daysLeft := timeLeft / SecondsPerDay;
        var hoursLeft := (timeLeft % SecondsPerDay) / SecondsPerHour;
        if Truthy(nbf) && nbf.value > now then NotYetValid(nbf.value)
        else Valid(exp.value, daysLeft, hoursLeft)
    else NoExpiry
  }

  /**
   * The days and hours shown are the only split of the time left into whole
   * days, whole hours below a day and less than an hour over.
   */
  lemma RemainingIsUnique(timeLeft: int, days: int, hours: int)
    requires 0 <= hours < 24
    requires days * SecondsPerDay + hours * SecondsPerHour <= timeLeft
    requires timeLeft < days * SecondsPerDay + (hours + 1) * SecondsPerHour
    ensures days == timeLeft / SecondsPerDay
    ensures hours == (timeLeft % SecondsPerDay) / SecondsPerHour
  {
  }

  /** A token exactly at its expiry second is still valid, with nothing left. */
  lemma ExpiringNowIsValid(exp: int, nbf: Option<int>)
    requires exp != 0 && !(Truthy(nbf) && nbf.value > exp)
    ensures Classify(Some(exp), nbf, exp) == Valid(exp, 0, 0)
  {
  }
}
