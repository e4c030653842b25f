/**
 * The per-user two-factor record, `AuthenticatorData`: a PHP object with public fields
 * and casting getters and setters. `Record` is the value of its fields at one moment,
 * which is what the plugin store keeps for each user.
 */
module Models {
  import opened Wrappers
  import opened Php

  /**
   * The fields of a record. `None` is PHP null: `userId`, `date`, `expireDays` and the
   * initialisation vector `iv` (the TOTP secret) have no default.
   */
  datatype Record = Record(
    userId: Option<int>,
    twofaEnabled: int,
    date: Option<int>,
    expireDays: Option<int>,
    iv: Option<string>,
    recoveryCodes: PhpArray,
    lastRecoveryTime: int)
  {
    /** `getUserId()`: `(int)$this->userId`, so null reads as 0. */
    function UserId(): (id: int)
      ensures userId.None? ==> id == 0
      ensures userId.Some? ==> id == userId.value
    {
      if userId.Some? then userId.value else 0
    }

    /** `isTwofaEnabled()`: `(bool)$this->twofaEnabled`, which undoes the setter's `(int)` cast. */
    predicate IsTwofaEnabled()
      ensures twofaEnabled == BoolToInt(true) ==> IsTwofaEnabled()
      ensures twofaEnabled == BoolToInt(false) ==> !IsTwofaEnabled()
    {
      twofaEnabled != 0
    }
  }

  /** The record `new AuthenticatorData()` starts with. */
  const FRESH: Record := Record(None, 0, None, None, None, [], 0)

  /** A fresh record is disabled, has no codes, has never issued one and belongs to user 0. */
  lemma FreshDefaults()
    ensures !FRESH.IsTwofaEnabled() && FRESH.twofaEnabled == 0
    ensures FRESH.recoveryCodes == [] && FRESH.lastRecoveryTime == 0
    ensures FRESH.userId.None? && FRESH.UserId() == 0
    ensures FRESH.date.None? && FRESH.expireDays.None? && FRESH.iv.None?
  {
  }

  /** `(int)$b` for a boolean. */
  function BoolToInt(b: bool): (i: int)
    ensures (i != 0) == b && 0 <= i <= 1
  {
    if b then 1 else 0
  }

  class AuthenticatorData {
    var userId: Option<int>
    var twofaEnabled: int
    var date: Option<int>
    var expireDays: Option<int>
    var iv: Option<string>
    var recoveryCodes: PhpArray
    var lastRecoveryTime: int

    /** `new AuthenticatorData()`. */
    constructor ()
      ensures Snapshot() == FRESH
    {
      userId := None;
      twofaEnabled := 0;
      date := None;
      expireDays := None;
      iv := None;
      recoveryCodes := [];
      lastRecoveryTime := 0;
    }

    /** An object holding a stored record, as the plugin store hands it out. */
    constructor FromRecord(r: Record)
      ensures Snapshot() == r
    {
      userId := r.userId;
      twofaEnabled := r.twofaEnabled;
      date := r.date;
      expireDays := r.expireDays;
      iv := r.iv;
      recoveryCodes := r.recoveryCodes;
      lastRecoveryTime := r.lastRecoveryTime;
    }

    /** The current value of all fields. */
    function Snapshot(): Record
      reads this
    {
      Record(userId, twofaEnabled, date, expireDays, iv, recoveryCodes, lastRecoveryTime)
    }

    /** `getUserId()`: `(int)$this->userId`, so null reads as 0. */
    function GetUserId(): (id: int)
      reads this
      ensures userId.None? ==> id == 0
      ensures userId.Some? ==> id == userId.value
    {
      Snapshot().UserId()
    }

    /** `isTwofaEnabled()`: `(bool)$this->twofaEnabled`. */
    predicate IsTwofaEnabled()
      reads this
      ensures twofaEnabled == BoolToInt(true) ==> IsTwofaEnabled()
      ensures twofaEnabled == BoolToInt(false) ==> !IsTwofaEnabled()
    {
      Snapshot().IsTwofaEnabled()
    }

    /** `setUserId($x)`: stores `(int)$x`, which `getUserId()` then returns. */
    method SetUserId(x: int)
      modifies this`userId
      ensures Snapshot() == old(Snapshot()).(userId := Some(x)) && GetUserId() == x
    {
      userId := Some(x);
    }

    /** `setTwofaEnabled($b)`: stores `(int)$b`; `isTwofaEnabled()` then returns b. */
    method SetTwofaEnabled(b: bool)
      modifies this`twofaEnabled
      ensures Snapshot() == old(Snapshot()).(twofaEnabled := BoolToInt(b)) && IsTwofaEnabled() == b
    {
      twofaEnabled := BoolToInt(b);
    }

    method SetDate(d: int)
      modifies this`date
      ensures Snapshot() == old(Snapshot()).(date := Some(d))
    {
      date := Some(d);
    }

    method SetExpireDays(days: int)
      modifies this`expireDays
      ensures Snapshot() == old(Snapshot()).(expireDays := Some(days))
    {
      expireDays := Some(days);
    }

    method SetIV(v: string)
      modifies this`iv
      ensures Snapshot() == old(Snapshot()).(iv := Some(v))
    {
      iv := Some(v);
    }

    method SetRecoveryCodes(codes: PhpArray)
      modifies this`recoveryCodes
      ensures Snapshot() == old(Snapshot()).(recoveryCodes := codes)
    {
      recoveryCodes := codes;
    }

    method SetLastRecoveryTime(t: int)
      modifies this`lastRecoveryTime
      ensures Snapshot() == old(Snapshot()).(lastRecoveryTime := t)
    {
      lastRecoveryTime := t;
    }
  }
}
