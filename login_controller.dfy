/**
 * `checkExpireTime` of both `AuthenticatorLoginController` revisions
 * (src/lib/Controllers/AuthenticatorLoginController.php and
 * Authenticator/lib/Controllers/AuthenticatorLoginController.php): the notice shown on the
 * second-factor page when the user's 2FA code is about to expire. Both revisions compute
 * the same notice; they differ only in the record they read and the event tag they use.
 */
module LoginController {
  import opened Wrappers
  import opened Models
  import opened RecoveryCodes

  /** Five days, in seconds: how long before expiry the warning starts. */
  const WARNING_TIME: int := 432000
  const DAY: int := 86400

  /** The notice `checkExpireTime` raises, with the whole days it prints for a warning. */
  datatype Notice = NoNotice | ExpiryWarning(daysShown: int) | Expired

  /** `empty($data->getExpireDays())`: a null or zero expiry means the code never expires. */
  predicate NeverExpires(r: Record) {
    r.expireDays.None? || r.expireDays.value == 0
  }

  /** `getDate() + getExpireDays() * 86400`, a null date counting as 0. */
  function ExpireTime(r: Record): (t: int)
    requires !NeverExpires(r)
    ensures t - DAY * r.expireDays.value == (if r.date.None? then 0 else r.date.value)
  {
    (if r.date.None? then 0 else r.date.value) + r.expireDays.value * 86400
  }

  /** `sprintf('%d', $x / 86400)`: the quotient truncated toward zero, as PHP prints it. */
  function DaysShown(x: int): (d: int)
    ensures x >= 0 ==> d * DAY <= x < (d + 1) * DAY
    ensures x < 0 ==> (d - 1) * DAY < x <= d * DAY
  {
    if x >= 0 then x / 86400 else -((-x) / 86400)
  }

  /**
   * `checkExpireTime` with the clock at `now`: nothing without a record or without an
   * expiry; a warning when at most five days remain; "expired" only when more than five
   * days remain and the expiry has passed, which cannot happen.
   */
  function CheckExpireTime(data: Option<Record>, now: int): (n: Notice)
    ensures data.None? || NeverExpires(data.value) ==> n == NoNotice
    ensures data.Some? && !NeverExpires(data.value) ==>
      (n.ExpiryWarning? <==> ExpireTime(data.value) - now <= WARNING_TIME)
    ensures n.ExpiryWarning? ==> n.daysShown == DaysShown(ExpireTime(data.value) - now)
  {
    if data.None? || NeverExpires(data.value) then NoNotice
    else
      var expireTime := ExpireTime(data.value);
      var timeRemaining := expireTime - now;
      if timeRemaining <= WARNING_TIME then ExpiryWarning(DaysShown(timeRemaining))
      else if now > expireTime then Expired
      else NoNotice
  }

  /**
   * The "expired" branch is dead: once the expiry has passed, the time remaining is
   * negative and the warning branch has already been taken.
   */
  lemma ExpiredUnreachable(data: Option<Record>, now: int)
    ensures CheckExpireTime(data, now) != Expired
    ensures data.Some? && !NeverExpires(data.value) && now > ExpireTime(data.value) ==>
      CheckExpireTime(data, now).ExpiryWarning? && CheckExpireTime(data, now).daysShown <= 0
  {
  }

  /** The notice the branch order evidently intends: "expired" first, then the warning. */
  function CheckExpireTimeIntended(data: Option<Record>, now: int): (n: Notice)
    ensures data.None? || NeverExpires(data.value) ==> n == NoNotice
    ensures data.Some? && !NeverExpires(data.value) ==>
      (n == Expired <==> now > ExpireTime(data.value))
      && (n.ExpiryWarning? <==> now <= ExpireTime(data.value) && ExpireTime(data.value) - now <= WARNING_TIME)
    ensures n.ExpiryWarning? ==> 0 <= n.daysShown <= 5
  {
    if data.None? || NeverExpires(data.value) then NoNotice
    else
      var expireTime := ExpireTime(data.value);
      var timeRemaining := expireTime - now;
      if now > expireTime then Expired
      else if timeRemaining <= WARNING_TIME then ExpiryWarning(DaysShown(timeRemaining))
      else NoNotice
  }

  /** The two orders agree everywhere except after the expiry. */
  lemma IntendedAgreesBeforeExpiry(data: Option<Record>, now: int)
    requires data.Some? && !NeverExpires(data.value) ==> now <= ExpireTime(data.value)
    ensures CheckExpireTimeIntended(data, now) == CheckExpireTime(data, now)
  {
  }

  /**
   * A code enabled at time 0 for 30 days: one day before the expiry the page warns with
   * one day left; one second after it, the page still warns (with 0 days) where the
   * intended order reports the code as expired.
   */
  lemma ExpiryExample()
    ensures var r := FRESH.(date := Some(0), expireDays := Some(30));
      CheckExpireTime(Some(r), 29 * 86400) == ExpiryWarning(1)
      && CheckExpireTime(Some(r), 30 * 86400 + 1) == ExpiryWarning(0)
      && CheckExpireTimeIntended(Some(r), 30 * 86400 + 1) == Expired
  {
    var r := FRESH.(date := Some(0), expireDays := Some(30));
    assert ExpireTime(r) == 2592000;
    assert DaysShown(86400) == 1;
    assert DaysShown(-1) == 0;
  }

  /** Which revision raises the notice. */
  datatype Revision = Current | Legacy

  /**
   * The events one call dispatches: the current revision tags a warning
   * `authenticator.expiry.warn` and an expiry `authenticator.expiry.expired`; the legacy
   * revision tags both `authenticator.expiry.notice`.
   */
  function Events(n: Notice, rev: Revision): (tags: seq<string>)
    ensures |tags| <= 1
    ensures |tags| == 0 <==> n == NoNotice
  {
    match n
    case NoNotice => []
    case ExpiryWarning(_) => [if rev == Current then "authenticator.expiry.warn" else "authenticator.expiry.notice"]
    case Expired => [if rev == Current then "authenticator.expiry.expired" else "authenticator.expiry.notice"]
  }

  /** `Plugin::RECOVERY_GRACE_TIME / 3600`: the grace period the login page shows, in hours. */
  function RecoveryGraceHours(): (h: int)
    ensures h * 3600 == RECOVERY_GRACE_TIME
  {
    RECOVERY_GRACE_TIME / 3600
  }
}
