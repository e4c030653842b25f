/**
 * The current revision's `AuthenticatorController`
 * (src/lib/Controllers/AuthenticatorController.php): saving the 2FA preference behind a
 * code check, and the second-factor check at login, with the session flags and the
 * failed-attempt tracking they drive.
 */
module Controller {
  import opened Wrappers
  import opened Php
  import opened Randomness
  import opened Models
  import opened Host
  import opened RecoveryCodes
  import opened Plugin
  import opened Services

  /** Which check let a pin through, if any. */
  datatype GateResult = RecoveryCodeUsed | PinAccepted | Rejected

  /**
   * `checkRecoveryCode($pin) || checkPin($pin)` on a record: the recovery-code check comes
   * first and only for a 20-character pin; the TOTP check runs only when it fails, and
   * refuses an empty pin.
   */
  function Gate(pin: string, r: Record, verifyKey: KeyVerifier): (g: GateResult)
    ensures g == RecoveryCodeUsed <==> |pin| == RECOVERY_CODE_LENGTH && pin in Values(r.recoveryCodes)
    ensures g == PinAccepted ==> |pin| != RECOVERY_CODE_LENGTH || pin !in Values(r.recoveryCodes)
    ensures g == PinAccepted <==> g != RecoveryCodeUsed && !Empty(pin) && verifyKey(pin, r.iv)
  {
    if |pin| == RECOVERY_CODE_LENGTH && ConsumeFirst(r.recoveryCodes, pin).Some? then RecoveryCodeUsed
    else if !Empty(pin) && verifyKey(pin, r.iv) then PinAccepted
    else Rejected
  }

  /** A pin of any other length than 20 never reaches the pool. */
  lemma ShortPinLeavesPool(pin: string, r: Record, verifyKey: KeyVerifier)
    requires |pin| != RECOVERY_CODE_LENGTH
    ensures Gate(pin, r, verifyKey) != RecoveryCodeUsed
    ensures AfterGate(r, pin, verifyKey, 0).recoveryCodes == r.recoveryCodes
  {
  }

  /** The record once the gate has run: a used recovery code is gone and the time stamped. */
  function AfterGate(r: Record, pin: string, verifyKey: KeyVerifier, now: int): (r': Record)
    ensures Gate(pin, r, verifyKey) != RecoveryCodeUsed ==> r' == r
    ensures Gate(pin, r, verifyKey) == RecoveryCodeUsed ==>
      r' == r.(recoveryCodes := ConsumeFirst(r.recoveryCodes, pin).value, lastRecoveryTime := now)
  {
    if Gate(pin, r, verifyKey) == RecoveryCodeUsed then
      r.(recoveryCodes := ConsumeFirst(r.recoveryCodes, pin).value, lastRecoveryTime := now)
    else r
  }

  /** The JSON answer of `saveAction`. */
  datatype SaveResponse = DemoWarning | AttemptsExceeded | WrongCode | Enabled2FA | Disabled2FA | NoChanges

  /** The record 2FA is switched on with, for the user, with fresh codes, from now on. */
  function EnabledRecord(r: Record, userId: int, expireDays: int, now: int, pool: PhpArray): (r': Record)
    ensures r'.IsTwofaEnabled() && r'.UserId() == userId
    ensures r'.date == Some(now) && r'.expireDays == Some(expireDays) && r'.recoveryCodes == pool
    ensures r'.iv == r.iv && r'.lastRecoveryTime == r.lastRecoveryTime
  {
    r.(userId := Some(userId), twofaEnabled := BoolToInt(true), expireDays := Some(expireDays),
       date := Some(now), recoveryCodes := pool)
  }

  /**
   * `save2FAStatus` on a record and the store: off to on files the enabled record under the
   * user, on to off deletes the user's entry, and the same state changes nothing.
   */
  function Save2FA(r: Record, store: map<int, Record>, enable: bool, userId: int, expireDays: int,
                   now: int, pool: PhpArray): (out: (SaveResponse, Record, map<int, Record>))
    ensures !r.IsTwofaEnabled() && enable ==>
      out.0 == Enabled2FA && out.1 == EnabledRecord(r, userId, expireDays, now, pool)
      && out.2 == store[userId := out.1]
    ensures r.IsTwofaEnabled() && !enable ==>
      out.0 == Disabled2FA && out.1 == r && out.2 == store - {userId} && userId !in out.2
    ensures r.IsTwofaEnabled() == enable ==> out == (NoChanges, r, store)
  {
    if !r.IsTwofaEnabled() && enable then
      var r' := EnabledRecord(r, userId, expireDays, now, pool);
      (Enabled2FA, r', store[userId := r'])
    else if r.IsTwofaEnabled() && !enable then (Disabled2FA, r, store - {userId})
    else (NoChanges, r, store)
  }

  /** The JSON answer of `checkCodeAction`. */
  datatype CheckResponse = UserNotFound | ResetMailSent | ResetMailFailed | CodeCorrect | CodeIncorrect

  /**
   * `checkCodeAction` once a record is found: a reset request with an address on file
   * answers with the mail's outcome (its failure is caught and reported); otherwise, and
   * when there is no address, the pin goes through the gate.
   */
  function CheckOutcome(pin: string, codeReset: bool, r: Record, hasEmail: bool, mailDelivers: bool,
                        verifyKey: KeyVerifier, now: int, newPool: PhpArray): (res: CheckResponse)
    requires |newPool| == RECOVERY_CODE_COUNT
    ensures res != UserNotFound
    ensures res == ResetMailSent <==>
      codeReset && hasEmail && Pick(r.recoveryCodes, r.lastRecoveryTime, now, newPool).Ok? && mailDelivers
    ensures res == ResetMailFailed <==>
      codeReset && hasEmail && (Pick(r.recoveryCodes, r.lastRecoveryTime, now, newPool).Err? || !mailDelivers)
    ensures res == CodeCorrect <==> !(codeReset && hasEmail) && Gate(pin, r, verifyKey) != Rejected
    ensures res == CodeIncorrect <==> !(codeReset && hasEmail) && Gate(pin, r, verifyKey) == Rejected
  {
    if codeReset && hasEmail then
      if Pick(r.recoveryCodes, r.lastRecoveryTime, now, newPool).Err? || !mailDelivers then ResetMailFailed
      else ResetMailSent
    else if Gate(pin, r, verifyKey) != Rejected then CodeCorrect
    else CodeIncorrect
  }

  /** The failed-attempt entries a `checkCodeAction` answer leaves behind. */
  function CheckTracking(res: CheckResponse): (n: nat)
    ensures n > 0 <==> res == ResetMailSent || res == CodeIncorrect
  {
    match res
    case ResetMailSent => 1
    case CodeIncorrect => 2
    case _ => 0
  }

  /** `searchInObject(getData(), 'userId', id)`: the loaded record when it is the user's. */
  function Found(loaded: Option<Record>, userId: int): (r: Option<Record>)
    ensures r.Some? <==> loaded.Some? && loaded.value.UserId() == userId
    ensures r.Some? ==> r == loaded
  {
    if loaded.Some? && loaded.value.UserId() == userId then loaded else None
  }

  /**
   * Only a correct pin or recovery code passes the second factor: a reset request that
   * is answered never does, and a pin the gate rejects never does.
   */
  lemma PassNeedsGate(pin: string, codeReset: bool, r: Record, hasEmail: bool, mailDelivers: bool,
                      verifyKey: KeyVerifier, now: int, newPool: PhpArray)
    requires |newPool| == RECOVERY_CODE_COUNT
    requires CheckOutcome(pin, codeReset, r, hasEmail, mailDelivers, verifyKey, now, newPool) == CodeCorrect
    ensures !Empty(pin)
    ensures pin in Values(r.recoveryCodes) || verifyKey(pin, r.iv)
  {
    var g := Gate(pin, r, verifyKey);
    assert g != Rejected;
    if g == RecoveryCodeUsed {
      assert pin in Values(r.recoveryCodes);
    }
  }

  /** Why `sendResetEmail` throws "Error al enviar correo": no code to pick, or the mail failed. */
  datatype MailFailure = MailFailure

  /**
   * What a code check can change outside the session flags: the record, the store, how
   * many random bytes have been drawn and the mail sent.
   */
  datatype Effects = Effects(record: Record, store: map<int, Record>, drawn: nat, mailed: seq<Code>)

  /**
   * `sendResetEmail` with an address on file: the picked code is persisted with the pool
   * it leaves and mailed when the mail goes out; a failed pick changes nothing.
   */
  function MailReset(w: Effects, stream: nat -> Byte, now: int, mailDelivers: bool)
    : (out: (Result<bool, MailFailure>, Effects))
    ensures var p := Pick(w.record.recoveryCodes, w.record.lastRecoveryTime, now, FreshPool(stream, w.drawn));
      (out.0 == Ok(true) <==> p.Ok? && mailDelivers)
      && (out.0 != Ok(true) ==> out.0 == Err(MailFailure))
      && (p.Err? ==> out.1 == w)
      && (p.Ok? ==>
        out.1.record == w.record.(recoveryCodes := p.value.pool, lastRecoveryTime := now)
        && out.1.store == w.store[w.record.UserId() := out.1.record]
        && out.1.drawn == w.drawn + (if p.value.regenerated then 100 else 0)
        && out.1.mailed == w.mailed + (if mailDelivers then [p.value.code] else []))
  {
    var picked := PickEffect(w.record, w.store, w.drawn, stream, now);
    var sent := picked.0.Ok? && mailDelivers;
    (if sent then Ok(true) else Err(MailFailure),
     Effects(picked.1, picked.2, picked.3, w.mailed + (if sent then [picked.0.value] else [])))
  }

  /**
   * A code mailed for a reset cannot be used afterwards: it is no longer in the stored
   * pool when the pool it came from had no duplicates.
   */
  lemma MailedCodeNotReusable(w: Effects, stream: nat -> Byte, now: int, mailDelivers: bool)
    requires NoDuplicates(Values(w.record.recoveryCodes)) && NoDuplicates(Values(FreshPool(stream, w.drawn)))
    requires mailDelivers && MailReset(w, stream, now, mailDelivers).0 == Ok(true)
    ensures var w' := MailReset(w, stream, now, mailDelivers).1;
      |w'.mailed| == |w.mailed| + 1
      && w'.mailed[|w.mailed|] !in Values(w'.record.recoveryCodes)
      && w'.store[w.record.UserId()] == w'.record
  {
    PickedCodeNotReusable(w.record.recoveryCodes, w.record.lastRecoveryTime, now, FreshPool(stream, w.drawn));
  }

  /** The gate's effect: a used recovery code leaves the record and the record is filed. */
  function GateEffect(w: Effects, pin: string, verifyKey: KeyVerifier, now: int): (w': Effects)
    ensures w'.drawn == w.drawn && w'.mailed == w.mailed
    ensures w'.record == AfterGate(w.record, pin, verifyKey, now)
    ensures Gate(pin, w.record, verifyKey) == RecoveryCodeUsed ==> w'.store == w.store[w.record.UserId() := w'.record]
    ensures Gate(pin, w.record, verifyKey) != RecoveryCodeUsed ==> w' == w
  {
    if Gate(pin, w.record, verifyKey) == RecoveryCodeUsed then
      var r := AfterGate(w.record, pin, verifyKey, now);
      w.(record := r, store := w.store[w.record.UserId() := r])
    else w
  }

  class AuthenticatorController {
    const service: AuthenticatorService
    const session: Session
    const verifyKey: KeyVerifier
    /** `configData->isDemoEnabled()`. */
    const demo: bool
    /** `userData->getId()`. */
    const userId: int
    /** `userData->getEmail()`. */
    const email: string
    /** Whether `MailService::send` delivers (it throws otherwise). */
    const mailDelivers: bool

    constructor (service: AuthenticatorService, session: Session, verifyKey: KeyVerifier,
                 demo: bool, userId: int, email: string, mailDelivers: bool)
      ensures this.service == service && this.session == session && this.verifyKey == verifyKey
      ensures this.demo == demo && this.userId == userId && this.email == email
      ensures this.mailDelivers == mailDelivers
    {
      this.service := service;
      this.session := session;
      this.verifyKey := verifyKey;
      this.demo := demo;
      this.userId := userId;
      this.email := email;
      this.mailDelivers := mailDelivers;
    }

    /** `checkRecoveryCode`: a 20-character pin that the service consumes. */
    method CheckRecoveryCode(pin: string, d: AuthenticatorData, now: int) returns (ok: bool)
      modifies d`recoveryCodes, d`lastRecoveryTime, service.plugin`store
      ensures ok <==> |pin| == RECOVERY_CODE_LENGTH && pin in Values(old(d.recoveryCodes))
      ensures ok ==>
        d.Snapshot() == old(d.Snapshot()).(recoveryCodes := ConsumeFirst(old(d.recoveryCodes), pin).value,
                                           lastRecoveryTime := now)
        && service.plugin.store == old(service.plugin.store)[d.GetUserId() := d.Snapshot()]
      ensures !ok ==> d.Snapshot() == old(d.Snapshot()) && service.plugin.store == old(service.plugin.store)
    {
      ok := false;
      if |pin| == RECOVERY_CODE_LENGTH {
        ok := service.UseRecoveryCode(d, pin, now);
      }
    }

    /** `checkPin`: an empty pin or a failed TOTP check is tracked and refused. */
    method CheckPin(pin: string, d: AuthenticatorData) returns (ok: bool)
      modifies session`tracked
      ensures ok <==> !Empty(pin) && verifyKey(pin, d.iv)
      ensures session.tracked == old(session.tracked) + (if ok then 0 else 1)
    {
      if Empty(pin) || !verifyKey(pin, d.iv) {
        session.AddTracking();
        return false;
      }
      return true;
    }

    /** The two checks in their order, as both actions run them. */
    method CheckCodes(pin: string, d: AuthenticatorData, now: int) returns (g: GateResult)
      modifies d`recoveryCodes, d`lastRecoveryTime, service.plugin`store, session`tracked
      ensures g == Gate(pin, old(d.Snapshot()), verifyKey)
      ensures d.Snapshot() == AfterGate(old(d.Snapshot()), pin, verifyKey, now)
      ensures g == RecoveryCodeUsed ==>
        service.plugin.store == old(service.plugin.store)[d.GetUserId() := d.Snapshot()]
      ensures g != RecoveryCodeUsed ==> service.plugin.store == old(service.plugin.store)
      ensures session.tracked == old(session.tracked) + (if g == Rejected then 1 else 0)
    {
      var used := CheckRecoveryCode(pin, d, now);
      if used {
        return RecoveryCodeUsed;
      }
      var ok := CheckPin(pin, d);
      g := if ok then PinAccepted else Rejected;
    }

    /** The enabling branch of `save2FAStatus`: the record is switched on and filed. */
    method EnableFor(d: AuthenticatorData, expireDays: int, now: int)
      modifies d, service.plugin`store, service.random
      ensures d.Snapshot() == EnabledRecord(old(d.Snapshot()), userId, expireDays, now,
                                            FreshPool(service.random.stream, old(service.random.drawn)))
      ensures service.plugin.store == old(service.plugin.store)[userId := d.Snapshot()]
      ensures service.random.drawn == old(service.random.drawn) + 100
    {
      d.SetUserId(userId);
      d.SetTwofaEnabled(true);
      d.SetExpireDays(expireDays);
      d.SetDate(now);
      var codes := GenerateRecoveryCodes(service.random);
      d.SetRecoveryCodes(codes);
      ghost var filed, stored := d.Snapshot(), service.plugin.store;
      service.plugin.SetDataForId(userId, d);
      assert service.plugin.store == stored[userId := filed];
      service.SavePluginUserData(d);
      assert stored[userId := filed][userId := filed] == stored[userId := filed];
    }

    /** `save2FAStatus`, as `Save2FA` describes it, drawing fresh codes when enabling. */
    method Save2FAStatus(d: AuthenticatorData, enable: bool, expireDays: int, now: int)
      returns (res: SaveResponse)
      modifies d, service.plugin`store, service.random
      ensures var out := Save2FA(old(d.Snapshot()), old(service.plugin.store), enable, userId,
                                 expireDays, now, FreshPool(service.random.stream, old(service.random.drawn)));
        res == out.0 && d.Snapshot() == out.1 && service.plugin.store == out.2
      ensures service.random.drawn == old(service.random.drawn) + (if res == Enabled2FA then 100 else 0)
    {
      if !d.IsTwofaEnabled() && enable {
        EnableFor(d, expireDays, now);
        return Enabled2FA;
      }
      if d.IsTwofaEnabled() && !enable {
        service.DeletePluginUserData(userId);
        return Disabled2FA;
      }
      return NoChanges;
    }

    /**
     * `saveAction` once the record is known: demo mode and an exceeded attempt limit stop
     * before any check; a pin that passes neither check is tracked twice; otherwise the
     * status is saved.
     */
    method SaveRecord(pin: string, d: AuthenticatorData, enable: bool, expireDays: int, now: int,
                      overLimit: bool) returns (res: SaveResponse)
      modifies d, service.plugin`store, service.random, session`tracked
      ensures demo || overLimit ==>
        res == (if demo then DemoWarning else AttemptsExceeded)
        && d.Snapshot() == old(d.Snapshot()) && service.plugin.store == old(service.plugin.store)
        && service.random.drawn == old(service.random.drawn)
        && session.tracked == old(session.tracked) + (if demo then 0 else 1)
      ensures !demo && !overLimit && Gate(pin, old(d.Snapshot()), verifyKey) == Rejected ==>
        res == WrongCode && d.Snapshot() == old(d.Snapshot())
        && service.plugin.store == old(service.plugin.store)
        && service.random.drawn == old(service.random.drawn) && session.tracked == old(session.tracked) + 2
      ensures !demo && !overLimit && Gate(pin, old(d.Snapshot()), verifyKey) != Rejected ==>
        var checked := AfterGate(old(d.Snapshot()), pin, verifyKey, now);
        var stored := if Gate(pin, old(d.Snapshot()), verifyKey) == RecoveryCodeUsed
                      then old(service.plugin.store)[checked.UserId() := checked]
                      else old(service.plugin.store);
        var out := Save2FA(checked, stored, enable, userId, expireDays, now,
                           FreshPool(service.random.stream, old(service.random.drawn)));
        res == out.0 && d.Snapshot() == out.1 && service.plugin.store == out.2
        && service.random.drawn == old(service.random.drawn) + (if res == Enabled2FA then 100 else 0)
        && session.tracked == old(session.tracked)
    {
      if demo {
        return DemoWarning;
      }
      if overLimit {
        session.AddTracking();
        return AttemptsExceeded;
      }
      var g := CheckCodes(pin, d, now);
      if g != Rejected {
        res := Save2FAStatus(d, enable, expireDays, now);
        return res;
      }
      session.AddTracking();
      return WrongCode;
    }

    /**
     * `saveAction`: the session's record, or a new one with a fresh secret when there is
     * none, then `SaveRecord`.
     */
    method SaveAction(pin: string, sessionData: AuthenticatorData?, enable: bool, expireDays: int,
                      now: int, overLimit: bool) returns (res: SaveResponse, d: AuthenticatorData)
      modifies sessionData, service.plugin`store, service.random, session`tracked
      ensures sessionData != null ==> d == sessionData
      ensures sessionData == null ==> fresh(d)
      ensures
        var start := if sessionData != null then old(sessionData.Snapshot())
                     else FRESH.(iv := Some(InitializationKey(Hex(Window(service.random.stream,
                                                                         old(service.random.drawn), IV_BYTES)))));
        var at := old(service.random.drawn) + (if sessionData == null then IV_BYTES else 0);
        var stopped := demo || overLimit;
        (stopped ==>
          res == (if demo then DemoWarning else AttemptsExceeded)
          && d.Snapshot() == start && service.plugin.store == old(service.plugin.store)
          && service.random.drawn == at
          && session.tracked == old(session.tracked) + (if demo then 0 else 1))
        && (!stopped && Gate(pin, start, verifyKey) == Rejected ==>
          res == WrongCode && d.Snapshot() == start && service.plugin.store == old(service.plugin.store)
          && service.random.drawn == at && session.tracked == old(session.tracked) + 2)
        && (!stopped && Gate(pin, start, verifyKey) != Rejected ==>
          var checked := AfterGate(start, pin, verifyKey, now);
          var stored := if Gate(pin, start, verifyKey) == RecoveryCodeUsed
                        then old(service.plugin.store)[checked.UserId() := checked]
                        else old(service.plugin.store);
          var out := Save2FA(checked, stored, enable, userId, expireDays, now,
                             FreshPool(service.random.stream, at));
          res == out.0 && d.Snapshot() == out.1 && service.plugin.store == out.2
          && service.random.drawn == at + (if res == Enabled2FA then 100 else 0)
          && session.tracked == old(session.tracked))
    {
      d := SessionRecord(sessionData);
      res := SaveRecord(pin, d, enable, expireDays, now, overLimit);
    }

    /** The record `saveAction` works on: the session's, or a new one holding a fresh secret. */
    method SessionRecord(sessionData: AuthenticatorData?) returns (d: AuthenticatorData)
      modifies service.random
      ensures sessionData != null ==> d == sessionData && d.Snapshot() == old(sessionData.Snapshot())
      ensures sessionData == null ==> fresh(d)
      ensures sessionData == null ==>
        d.Snapshot() == FRESH.(iv := Some(InitializationKey(Hex(Window(service.random.stream,
                                                                       old(service.random.drawn), IV_BYTES)))))
      ensures service.random.drawn == old(service.random.drawn) + (if sessionData == null then IV_BYTES else 0)
    {
      if sessionData == null {
        d := new AuthenticatorData();
        var key := AuthenticatorService.MakeInitializationKey(service.random);
        d.SetIV(key);
      } else {
        d := sessionData;
      }
    }

    /** The effects of a code check, read off the record and the collaborators. */
    function StateOf(d: AuthenticatorData): Effects
      reads d, service.plugin, service.random, session
    {
      Effects(d.Snapshot(), service.plugin.store, service.random.drawn, session.mailed)
    }

    /**
     * `checkCodeAction` on a found record: the reset request, then the gate, with the
     * session flags and the tracking each answer brings.
     */
    method CheckCodeFor(pin: string, codeReset: bool, d: AuthenticatorData, now: int)
      returns (res: CheckResponse)
      modifies d`recoveryCodes, d`lastRecoveryTime, service.plugin`store, service.random
      modifies session`mailed, session`tracked, session`twoFApass, session`authCompleted
      ensures res == CheckOutcome(pin, codeReset, old(d.Snapshot()), !Empty(email), mailDelivers, verifyKey,
                                  now, FreshPool(service.random.stream, old(service.random.drawn)))
      ensures codeReset && !Empty(email) ==>
        StateOf(d) == MailReset(old(StateOf(d)), service.random.stream, now, mailDelivers).1
      ensures !(codeReset && !Empty(email)) ==> StateOf(d) == GateEffect(old(StateOf(d)), pin, verifyKey, now)
      ensures session.tracked == old(session.tracked) + CheckTracking(res)
      ensures res == CodeCorrect ==> session.twoFApass && session.authCompleted
      ensures res == ResetMailSent ==> !session.twoFApass && !session.authCompleted
      ensures res == ResetMailFailed || res == CodeIncorrect ==>
        session.twoFApass == old(session.twoFApass) && session.authCompleted == old(session.authCompleted)
    {
      if codeReset && !Empty(email) {
        res := AnswerReset(d, now);
      } else {
        res := AnswerPin(pin, d, now);
      }
    }

    /** A reset request with an address on file: the mail's outcome decides the answer. */
    method AnswerReset(d: AuthenticatorData, now: int) returns (res: CheckResponse)
      requires !Empty(email)
      modifies d`recoveryCodes, d`lastRecoveryTime, service.plugin`store, service.random
      modifies session`mailed, session`tracked, session`twoFApass, session`authCompleted
      ensures var out := MailReset(old(StateOf(d)), service.random.stream, now, mailDelivers);
        res == (if out.0.Ok? then ResetMailSent else ResetMailFailed) && StateOf(d) == out.1
      ensures session.tracked == old(session.tracked) + CheckTracking(res)
      ensures res == ResetMailSent ==> !session.twoFApass && !session.authCompleted
      ensures res == ResetMailFailed ==>
        session.twoFApass == old(session.twoFApass) && session.authCompleted == old(session.authCompleted)
    {
      var sent := SendResetEmail(d, now);
      res := AnswerMail(sent);
    }

    /** The answer to a reset request once `sendResetEmail` has run. */
    method AnswerMail(sent: Result<bool, MailFailure>) returns (res: CheckResponse)
      requires sent.Ok? ==> sent.value
      modifies session`tracked, session`twoFApass, session`authCompleted
      ensures res == (if sent.Err? then ResetMailFailed else ResetMailSent)
      ensures session.tracked == old(session.tracked) + CheckTracking(res)
      ensures res == ResetMailSent ==> !session.twoFApass && !session.authCompleted
      ensures res == ResetMailFailed ==>
        session.twoFApass == old(session.twoFApass) && session.authCompleted == old(session.authCompleted)
    {
      if sent.Err? {
        return ResetMailFailed;
      }
      session.AddTracking();
      session.SetFlags(false);
      return ResetMailSent;
    }

    /** The pin through the gate: a pass sets both flags, a failure is tracked twice. */
    method AnswerPin(pin: string, d: AuthenticatorData, now: int) returns (res: CheckResponse)
      modifies d`recoveryCodes, d`lastRecoveryTime, service.plugin`store, session`tracked
      modifies session`twoFApass, session`authCompleted
      ensures res == (if Gate(pin, old(d.Snapshot()), verifyKey) != Rejected then CodeCorrect else CodeIncorrect)
      ensures StateOf(d) == GateEffect(old(StateOf(d)), pin, verifyKey, now)
      ensures session.tracked == old(session.tracked) + CheckTracking(res)
      ensures res == CodeCorrect ==> session.twoFApass && session.authCompleted
      ensures res == CodeIncorrect ==>
        session.twoFApass == old(session.twoFApass) && session.authCompleted == old(session.authCompleted)
    {
      var g := CheckCodes(pin, d, now);
      if g != Rejected {
        session.SetFlags(true);
        return CodeCorrect;
      }
      session.AddTracking();
      return CodeIncorrect;
    }

    /**
     * `checkCodeAction`: the signed-in user's record is looked up; without one both flags
     * are cleared and the user is not found, otherwise `CheckCodeFor` answers on it.
     */
    method CheckCodeAction(pin: string, codeReset: bool, now: int) returns (res: CheckResponse)
      modifies service.plugin`data, service.plugin.data, service.plugin`store, service.random
      modifies session`mailed, session`tracked, session`twoFApass, session`authCompleted
      ensures var found := Found(old(service.plugin.Pending()), userId);
        found.None? ==>
          res == UserNotFound && !session.twoFApass && !session.authCompleted
          && service.plugin.store == old(service.plugin.store) && service.random.drawn == old(service.random.drawn)
          && session.tracked == old(session.tracked) && session.mailed == old(session.mailed)
      ensures var found := Found(old(service.plugin.Pending()), userId);
        found.Some? ==>
          var before := Effects(found.value, old(service.plugin.store), old(service.random.drawn), old(session.mailed));
          service.plugin.data != null
          && res == CheckOutcome(pin, codeReset, found.value, !Empty(email), mailDelivers, verifyKey, now,
                                 FreshPool(service.random.stream, old(service.random.drawn)))
          && StateOf(service.plugin.data)
             == if codeReset && !Empty(email) then MailReset(before, service.random.stream, now, mailDelivers).1
                else GateEffect(before, pin, verifyKey, now)
      ensures session.tracked == old(session.tracked) + CheckTracking(res)
      ensures res == CodeCorrect ==> session.twoFApass && session.authCompleted
      ensures res == ResetMailSent || res == UserNotFound ==> !session.twoFApass && !session.authCompleted
      ensures res == ResetMailFailed || res == CodeIncorrect ==>
        session.twoFApass == old(session.twoFApass) && session.authCompleted == old(session.authCompleted)
    {
      var loaded := service.plugin.GetData();
      if loaded == null || loaded.GetUserId() != userId {
        session.SetFlags(false);
        return UserNotFound;
      }
      assert Found(old(service.plugin.Pending()), userId) == Some(loaded.Snapshot());
      assert StateOf(loaded) == Effects(loaded.Snapshot(), old(service.plugin.store),
                                        old(service.random.drawn), old(session.mailed));
      res := CheckCodeFor(pin, codeReset, loaded, now);
      assert service.plugin.data == loaded;
    }

    /**
     * `sendResetEmail`: with an address on file, picks a code and mails it, as `MailReset`
     * describes; without an address, false and nothing changes.
     */
    method SendResetEmail(d: AuthenticatorData, now: int) returns (r: Result<bool, MailFailure>)
      modifies d`recoveryCodes, d`lastRecoveryTime, service.plugin`store, service.random, session`mailed
      ensures Empty(email) ==> r == Ok(false) && StateOf(d) == old(StateOf(d))
      ensures !Empty(email) ==> r == MailReset(old(StateOf(d)), service.random.stream, now, mailDelivers).0
      ensures !Empty(email) ==> StateOf(d) == MailReset(old(StateOf(d)), service.random.stream, now, mailDelivers).1
    {
      if !Empty(email) {
        r := MailCode(d, now);
      } else {
        r := Ok(false);
      }
    }

    /** `sendResetEmail` with an address on file: pick a code, then mail it. */
    method MailCode(d: AuthenticatorData, now: int) returns (r: Result<bool, MailFailure>)
      modifies d`recoveryCodes, d`lastRecoveryTime, service.plugin`store, service.random, session`mailed
      ensures r == MailReset(old(StateOf(d)), service.random.stream, now, mailDelivers).0
      ensures StateOf(d) == MailReset(old(StateOf(d)), service.random.stream, now, mailDelivers).1
    {
      var code := service.PickRecoveryCode(d, now);
      r := Deliver(code);
    }

    /** Mails a picked code; no code, or a mail that is not delivered, is a failure. */
    method Deliver(code: Result<Code, PickError>) returns (r: Result<bool, MailFailure>)
      modifies session`mailed
      ensures r == Ok(true) <==> code.Ok? && mailDelivers
      ensures r != Ok(true) ==> r == Err(MailFailure)
      ensures session.mailed == old(session.mailed) + (if code.Ok? && mailDelivers then [code.value] else [])
    {
      if code.Err? || !mailDelivers {
        return Err(MailFailure);
      }
      session.Mail(code.value);
      return Ok(true);
    }
  }
}
