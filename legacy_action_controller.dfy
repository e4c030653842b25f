/**
 * The legacy revision's `ActionController` (Authenticator/ActionController.php): saving the
 * 2FA preference behind a code check in which TOTP comes first, the second-factor check at
 * login, recovery codes consumed and reindexed, and a reset mail that peeks at the last
 * code with a count taken before any regeneration. Every response ends the request.
 */
module LegacyActions {
  import opened Wrappers
  import opened Php
  import opened Randomness
  import opened Models
  import opened Host
  import opened RecoveryCodes
  import opened LegacyPlugin
  import Services
  import Controller

  /**
   * What an action can change outside the session flags: the record it works on, the
   * plugin's array of records, how many random bytes have been drawn and the mail sent.
   */
  datatype World = World(record: Record, table: Table, drawn: nat, mailed: seq<Code>)

  /**
   * `useRecoveryCode` on a world: the first strict match leaves the pool, the rest is
   * reindexed in order, the time is stamped and the record filed under its user id; the
   * answer is whether the store saved. Without a match nothing changes.
   */
  function UseEffect(w: World, code: Code, now: int, saves: bool): (out: (bool, World))
    ensures code !in Values(w.record.recoveryCodes) ==> out == (false, w)
    ensures code in Values(w.record.recoveryCodes) ==>
      var r := out.1.record;
      out.0 == saves
      && IsList(r.recoveryCodes)
      && Values(r.recoveryCodes)
         == RemoveAt(Values(w.record.recoveryCodes), IndexOf(Values(w.record.recoveryCodes), code).value)
      && r == w.record.(recoveryCodes := r.recoveryCodes, lastRecoveryTime := now)
      && out.1 == w.(record := r, table := Put(w.table, r.UserId(), r))
  {
    match ConsumeFirst(w.record.recoveryCodes, code)
    case None => (false, w)
    case Some(pool) =>
      var r := w.record.(recoveryCodes := pool, lastRecoveryTime := now);
      (saves, w.(record := r, table := Put(w.table, r.UserId(), r)))
  }

  /** What `pickRecoveryCode` returns: a code, null (an undefined index), or false. */
  datatype PickValue = PickedCode(code: Code) | PickedNull | NoCode

  /**
   * `$numCodes > 0 ? $codes[$numCodes - 1] : false` with a count n that need not be the
   * array's own: false for a zero count, otherwise the value under key n - 1, null when
   * there is none. On a list with an accurate count it is the last code.
   */
  function Peek(codes: PhpArray, n: nat): (v: PickValue)
    ensures v == NoCode <==> n == 0
    ensures n > 0 ==> (v.PickedCode? <==> Get(codes, n - 1).Some?)
    ensures v.PickedCode? ==> Get(codes, n - 1) == Some(v.code)
    ensures IsList(codes) && 0 < n <= |codes| ==> v == PickedCode(codes[n - 1].value)
  {
    if n == 0 then NoCode
    else match Get(codes, n - 1)
      case Some(c) => PickedCode(c)
      case None => PickedNull
  }

  /** A picked code is text of the pool: one that was peeked at is still in it. */
  lemma {:induction false} PeekedCodeInPool(codes: PhpArray, n: nat)
    requires Peek(codes, n).PickedCode?
    ensures Peek(codes, n).code in Values(codes)
  {
    var i :| 0 <= i < |codes| && codes[i].key == n - 1;
    assert Values(codes)[i] == Peek(codes, n).code;
  }

  /** The regeneration test: no code was ever issued, or the grace time is over and none is left. */
  predicate Regenerates(r: Record, now: int) {
    r.lastRecoveryTime == 0
    || (now - r.lastRecoveryTime >= RECOVERY_GRACE_TIME && |r.recoveryCodes| == 0)
  }

  /**
   * `pickRecoveryCode` on a world: a regeneration installs ten fresh codes, stamps the time
   * and files the record, and yields false when the store fails; the code is then read at
   * the count taken before the regeneration. No code leaves the pool.
   */
  function PickEffect(w: World, stream: nat -> Byte, now: int, saves: bool): (out: (PickValue, World))
    ensures !Regenerates(w.record, now) ==>
      out.1 == w && out.0 == Peek(w.record.recoveryCodes, |w.record.recoveryCodes|)
    ensures !Regenerates(w.record, now) && IsList(w.record.recoveryCodes) && w.record.recoveryCodes != [] ==>
      out.0 == PickedCode(Last(w.record.recoveryCodes))
    ensures Regenerates(w.record, now) ==>
      var r := out.1.record;
      r == w.record.(recoveryCodes := FreshPool(stream, w.drawn), lastRecoveryTime := now)
      && out.1 == World(r, Put(w.table, r.UserId(), r), w.drawn + 100, w.mailed)
    ensures Regenerates(w.record, now) && saves && 0 < |w.record.recoveryCodes| <= RECOVERY_CODE_COUNT ==>
      out.0 == PickedCode(out.1.record.recoveryCodes[|w.record.recoveryCodes| - 1].value)
    ensures Regenerates(w.record, now) && (!saves || w.record.recoveryCodes == []) ==> out.0 == NoCode
  {
    var n := |w.record.recoveryCodes|;
    if Regenerates(w.record, now) then
      var pool := FreshPool(stream, w.drawn);
      var r := w.record.(recoveryCodes := pool, lastRecoveryTime := now);
      (if saves then Peek(pool, n) else NoCode, World(r, Put(w.table, r.UserId(), r), w.drawn + 100, w.mailed))
    else (Peek(w.record.recoveryCodes, n), w)
  }

  /**
   * The stale count: an exhausted pool that is regenerated gives false even though ten
   * fresh codes were just stored, so the reset mail is never sent.
   */
  lemma {:induction false} RegeneratedEmptyPoolGivesNothing(w: World, stream: nat -> Byte, now: int)
    requires w.record.recoveryCodes == [] && Services.MayRegenerate(w.record.lastRecoveryTime, now)
    ensures Regenerates(w.record, now)
    ensures PickEffect(w, stream, now, true).0 == NoCode
    ensures |PickEffect(w, stream, now, true).1.record.recoveryCodes| == RECOVERY_CODE_COUNT
  {
  }

  /** The text a picked value is mailed as: `sprintf('%s', null)` is the empty string. */
  function MailText(v: PickValue): (s: Code)
    requires v != NoCode
    ensures v.PickedCode? ==> s == v.code
    ensures v.PickedNull? ==> s == ""
  {
    if v.PickedCode? then v.code else ""
  }

  /**
   * `sendResetEmail` once a pick has run (picked: what it returned and the world it left):
   * with an address on file, a picked value is mailed and the answer is whether the mail
   * went out; no address or a false pick answers false.
   */
  function Mail(w: World, picked: (PickValue, World), hasEmail: bool, delivers: bool): (out: (bool, World))
    ensures !hasEmail ==> out == (false, w)
    ensures out.0 <==> hasEmail && delivers && picked.0 != NoCode
    ensures hasEmail ==>
      out.1 == picked.1.(mailed := picked.1.mailed + (if out.0 then [MailText(picked.0)] else []))
  {
    if !hasEmail then (false, w)
    else if picked.0 == NoCode then (false, picked.1)
    else if delivers then (true, picked.1.(mailed := picked.1.mailed + [MailText(picked.0)]))
    else (false, picked.1)
  }

  /** `sendResetEmail` of this revision: `Mail` after `PickEffect`, which sends nothing itself. */
  function MailEffect(w: World, stream: nat -> Byte, now: int, hasEmail: bool, saves: bool, delivers: bool)
    : (out: (bool, World))
    ensures !hasEmail ==> out == (false, w)
    ensures out.0 <==> hasEmail && delivers && PickEffect(w, stream, now, saves).0 != NoCode
    ensures hasEmail ==>
      var p := PickEffect(w, stream, now, saves);
      out.1 == p.1.(mailed := w.mailed + (if out.0 then [MailText(p.0)] else []))
  {
    Mail(w, PickEffect(w, stream, now, saves), hasEmail, delivers)
  }

  /** The answers of `checkCode`. */
  datatype CheckReply = NotFound | RecoveryCodeUsed | ResetMailSent | CodeCorrect | CodeIncorrect

  /**
   * `returnResponseOk($isAuth)` / `returnResponseError($isAuth)`: the flags are set to the
   * outcome only when `$isAuth` is true, and left alone otherwise.
   */
  function ResponseFlags(ok: bool, isAuth: bool): (f: Option<bool>)
    ensures f.Some? <==> isAuth
    ensures f.Some? ==> f.value == ok
  {
    if isAuth then Some(ok) else None
  }

  /** The value both session flags take after each `checkCode` answer, None when untouched. */
  function CheckFlags(res: CheckReply): (f: Option<bool>)
    ensures f == None <==> res == CodeIncorrect
    ensures f == Some(true) <==> res == RecoveryCodeUsed || res == CodeCorrect
  {
    match res
    case NotFound => ResponseFlags(false, true)
    case RecoveryCodeUsed => ResponseFlags(true, true)
    case ResetMailSent => Some(false)
    case CodeCorrect => ResponseFlags(true, true)
    case CodeIncorrect => ResponseFlags(false, false)
  }

  /**
   * `checkCode` once the record is found and no recovery code was used: a reset request
   * whose mail goes out answers that; otherwise the TOTP check decides, refusing an empty pin.
   */
  function AfterRecoveryEffect(w: World, pin: string, codeReset: bool, stream: nat -> Byte, now: int,
                               verifyKey: Services.KeyVerifier, hasEmail: bool, saves: bool, delivers: bool)
    : (out: (CheckReply, World))
    ensures out.0 in {ResetMailSent, CodeCorrect, CodeIncorrect}
    ensures out.0 == ResetMailSent <==> codeReset && MailEffect(w, stream, now, hasEmail, saves, delivers).0
    ensures out.0 == CodeCorrect <==> out.0 != ResetMailSent && !Empty(pin) && verifyKey(pin, w.record.iv)
    ensures codeReset ==> out.1 == MailEffect(w, stream, now, hasEmail, saves, delivers).1
    ensures !codeReset ==> out.1 == w
  {
    var m := if codeReset then MailEffect(w, stream, now, hasEmail, saves, delivers) else (false, w);
    if m.0 then (ResetMailSent, m.1)
    else if !Empty(pin) && verifyKey(pin, w.record.iv) then (CodeCorrect, m.1)
    else (CodeIncorrect, m.1)
  }

  /**
   * `checkCode` once the record is found: a 20-character pin that is consumed (and saved)
   * as a recovery code passes; otherwise the reset mail and then the TOTP check decide.
   */
  function CheckEffect(w: World, pin: string, codeReset: bool, stream: nat -> Byte, now: int,
                       verifyKey: Services.KeyVerifier, hasEmail: bool, saves: bool, delivers: bool)
    : (out: (CheckReply, World))
    ensures out.0 != NotFound
    ensures out.0 == RecoveryCodeUsed <==>
      |pin| == RECOVERY_CODE_LENGTH && pin in Values(w.record.recoveryCodes) && saves
    ensures out.0 == RecoveryCodeUsed ==> out.1 == UseEffect(w, pin, now, saves).1
    ensures out.0 != RecoveryCodeUsed ==>
      var w1 := if |pin| == RECOVERY_CODE_LENGTH then UseEffect(w, pin, now, saves).1 else w;
      out == AfterRecoveryEffect(w1, pin, codeReset, stream, now, verifyKey, hasEmail, saves, delivers)
  {
    var u := if |pin| == RECOVERY_CODE_LENGTH then UseEffect(w, pin, now, saves) else (false, w);
    if u.0 then (RecoveryCodeUsed, u.1)
    else AfterRecoveryEffect(u.1, pin, codeReset, stream, now, verifyKey, hasEmail, saves, delivers)
  }

  /**
   * Both flags are set to true only with a valid second factor: a pin the TOTP check
   * accepts, or a recovery code from the stored pool, which is then gone from the pool
   * stored for the user when the pool had no duplicates.
   */
  lemma {:induction false} PassNeedsFactor(w: World, pin: string, codeReset: bool, stream: nat -> Byte,
                                           now: int, verifyKey: Services.KeyVerifier, hasEmail: bool,
                                           saves: bool, delivers: bool)
    requires NoDuplicates(Values(w.record.recoveryCodes))
    requires CheckFlags(CheckEffect(w, pin, codeReset, stream, now, verifyKey, hasEmail, saves, delivers).0)
             == Some(true)
    ensures verifyKey(pin, w.record.iv) || pin in Values(w.record.recoveryCodes)
    ensures CheckEffect(w, pin, codeReset, stream, now, verifyKey, hasEmail, saves, delivers).0 == RecoveryCodeUsed ==>
      var w' := CheckEffect(w, pin, codeReset, stream, now, verifyKey, hasEmail, saves, delivers).1;
      Lookup(w'.table, w'.record.UserId()) == Some(w'.record) && pin !in Values(w'.record.recoveryCodes)
  {
    var out := CheckEffect(w, pin, codeReset, stream, now, verifyKey, hasEmail, saves, delivers);
    if out.0 == RecoveryCodeUsed {
      var i := IndexOf(Values(w.record.recoveryCodes), pin).value;
      RemoveAtGone(Values(w.record.recoveryCodes), i);
    } else {
      var w1 := if |pin| == RECOVERY_CODE_LENGTH then UseEffect(w, pin, now, saves).1 else w;
      assert w1.record.iv == w.record.iv;
    }
  }

  /**
   * `save`'s code check: TOTP first; only when it fails is a 20-character pin consumed
   * as a recovery code, and it passes when the store saved.
   */
  function SaveGateEffect(w: World, pin: string, now: int, verifyKey: Services.KeyVerifier, saves: bool)
    : (out: (bool, World))
    ensures out.0 <==>
      verifyKey(pin, w.record.iv)
      || (|pin| == RECOVERY_CODE_LENGTH && pin in Values(w.record.recoveryCodes) && saves)
    ensures verifyKey(pin, w.record.iv) || |pin| != RECOVERY_CODE_LENGTH ==> out.1 == w
    ensures !verifyKey(pin, w.record.iv) && |pin| == RECOVERY_CODE_LENGTH ==>
      out.1 == UseEffect(w, pin, now, saves).1
  {
    if verifyKey(pin, w.record.iv) then (true, w)
    else if |pin| == RECOVERY_CODE_LENGTH then UseEffect(w, pin, now, saves)
    else (false, w)
  }

  /**
   * This revision and the current one accept the same non-empty pins, in the other order:
   * a pin that is both a valid TOTP code and a recovery code spends the recovery code in
   * the current revision, while here TOTP lets it through and the pool is left alone.
   */
  lemma GateOrderAcrossRevisions(w: World, pin: string, now: int, verifyKey: Services.KeyVerifier)
    requires !Empty(pin)
    ensures (Controller.Gate(pin, w.record, verifyKey) != Controller.Rejected)
            <==> SaveGateEffect(w, pin, now, verifyKey, true).0
    ensures Controller.Gate(pin, w.record, verifyKey) == Controller.RecoveryCodeUsed && verifyKey(pin, w.record.iv) ==>
      SaveGateEffect(w, pin, now, verifyKey, true).1 == w
  {
  }

  /** The answers of `save`. */
  datatype SaveReply = WrongCode | DemoWarning | Updated

  /** `save`'s enabling branch: the record switched on with fresh codes from now, and filed. */
  function EnableEffect(w: World, userId: int, expireDays: int, now: int, stream: nat -> Byte): (w': World)
    ensures w'.record == Controller.EnabledRecord(w.record, userId, expireDays, now, FreshPool(stream, w.drawn))
    ensures Lookup(w'.table, userId) == Some(w'.record)
    ensures forall other :: other != userId ==> Lookup(w'.table, other) == Lookup(w.table, other)
    ensures w'.drawn == w.drawn + 100 && w'.mailed == w.mailed
  {
    var r := Controller.EnabledRecord(w.record, userId, expireDays, now, FreshPool(stream, w.drawn));
    World(r, Put(w.table, userId, r), w.drawn + 100, w.mailed)
  }

  /**
   * `save` on a world: a failed code check answers "wrong code" (after a recovery code
   * that matched but was not saved has still left the pool); demo mode stops after the
   * check; enabling always restarts the date and replaces the pool, whatever the previous
   * state; disabling removes the user's entry.
   */
  function SaveEffect(w: World, pin: string, enable: bool, userId: int, expireDays: int, now: int,
                      stream: nat -> Byte, verifyKey: Services.KeyVerifier, demo: bool, saves: bool)
    : (out: (SaveReply, World))
    ensures out.0 == WrongCode <==> !SaveGateEffect(w, pin, now, verifyKey, saves).0
    ensures out.0 == DemoWarning <==> SaveGateEffect(w, pin, now, verifyKey, saves).0 && demo
    ensures out.0 != Updated ==> out.1 == SaveGateEffect(w, pin, now, verifyKey, saves).1
    ensures out.0 == Updated && enable ==>
      out.1 == EnableEffect(SaveGateEffect(w, pin, now, verifyKey, saves).1, userId, expireDays, now, stream)
      && out.1.record.IsTwofaEnabled() && out.1.record.date == Some(now)
      && |out.1.record.recoveryCodes| == RECOVERY_CODE_COUNT
    ensures out.0 == Updated && !enable ==>
      var g := SaveGateEffect(w, pin, now, verifyKey, saves).1;
      out.1 == g.(table := Remove(g.table, userId)) && Lookup(out.1.table, userId).None?
  {
    var g := SaveGateEffect(w, pin, now, verifyKey, saves);
    if !g.0 then (WrongCode, g.1)
    else if demo then (DemoWarning, g.1)
    else if enable then (Updated, EnableEffect(g.1, userId, expireDays, now, stream))
    else (Updated, g.1.(table := Remove(g.1.table, userId)))
  }

  /** The answer of `showRecoveryCodes`: status 0 with the codes, or status 1, "exhausted". */
  datatype ShowReply = CodesShown(codes: PhpArray) | CodesExhausted {
    function Status(): int {
      if CodesShown? then 0 else 1
    }
  }

  /** `showRecoveryCodes` on the session's record. */
  function ShowRecoveryCodes(r: Record): (reply: ShowReply)
    ensures reply.Status() == 0 <==> |r.recoveryCodes| > 0
    ensures reply.Status() == 1 <==> r.recoveryCodes == []
    ensures reply.CodesShown? ==> reply.codes == r.recoveryCodes
  {
    if |r.recoveryCodes| > 0 then CodesShown(r.recoveryCodes) else CodesExhausted
  }

  class LegacyActionController {
    const plugin: AuthenticatorPlugin
    const session: Session
    const random: RandomSource
    const verifyKey: Services.KeyVerifier
    /** `Checks::demoIsEnabled()`. */
    const demo: bool
    /** Whether `PluginDataStore::save` succeeds (it throws otherwise). */
    const storeSaves: bool
    /** The signed-in user's e-mail address. */
    const email: string
    /** Whether `Email::sendEmail` reports the mail as sent. */
    const mailDelivers: bool
    /** `$this->itemId`: the user the preferences are saved for. */
    const itemId: int

    constructor (plugin: AuthenticatorPlugin, session: Session, random: RandomSource,
                 verifyKey: Services.KeyVerifier, demo: bool, storeSaves: bool, email: string,
                 mailDelivers: bool, itemId: int)
      ensures this.plugin == plugin && this.session == session && this.random == random
      ensures this.verifyKey == verifyKey && this.demo == demo && this.storeSaves == storeSaves
      ensures this.email == email && this.mailDelivers == mailDelivers && this.itemId == itemId
    {
      this.plugin := plugin;
      this.session := session;
      this.random := random;
      this.verifyKey := verifyKey;
      this.demo := demo;
      this.storeSaves := storeSaves;
      this.email := email;
      this.mailDelivers := mailDelivers;
      this.itemId := itemId;
    }

    /** What an action on the record d can change, outside the session flags. */
    function StateOf(d: AuthenticatorData): World
      reads d, plugin, random, session
    {
      World(d.Snapshot(), plugin.data, random.drawn, session.mailed)
    }

    /** `savePluginUserData`: files the record under its own user id, then saves the store. */
    method SavePluginUserData(d: AuthenticatorData) returns (ok: bool)
      modifies plugin`data
      ensures plugin.data == Put(old(plugin.data), d.GetUserId(), d.Snapshot())
      ensures ok == storeSaves
    {
      plugin.SetDataForId(d.GetUserId(), d);
      ok := storeSaves;
    }

    /** `deletePluginUserData($id)`. */
    method DeletePluginUserData(id: int) returns (ok: bool)
      modifies plugin`data
      ensures plugin.data == Remove(old(plugin.data), id)
      ensures ok == storeSaves
    {
      plugin.DeleteDataForId(id);
      ok := storeSaves;
    }

    /** `useRecoveryCode`, as `UseEffect` describes it. */
    method UseRecoveryCode(d: AuthenticatorData, code: Code, now: int) returns (ok: bool)
      modifies d`recoveryCodes, d`lastRecoveryTime, plugin`data
      ensures ok == UseEffect(old(StateOf(d)), code, now, storeSaves).0
      ensures StateOf(d) == UseEffect(old(StateOf(d)), code, now, storeSaves).1
    {
      var codes := d.recoveryCodes;
      var key := Search(codes, code);
      if key.Some? {
        var rest := Unset(codes, key.value);
        if |rest| > 0 {
          d.SetRecoveryCodes(FromList(Values(rest)));
        } else {
          assert FromList(Values(rest)) == [];
          d.SetRecoveryCodes([]);
        }
        d.SetLastRecoveryTime(now);
        ok := SavePluginUserData(d);
      } else {
        ok := false;
      }
    }

    /** The regeneration inside `pickRecoveryCode`: fresh codes, the time stamped, the record saved. */
    method Regenerate(d: AuthenticatorData, now: int) returns (codes: PhpArray, ok: bool)
      modifies d`recoveryCodes, d`lastRecoveryTime, plugin`data, random
      ensures codes == FreshPool(random.stream, old(random.drawn)) && ok == storeSaves
      ensures d.Snapshot() == old(d.Snapshot()).(recoveryCodes := codes, lastRecoveryTime := now)
      ensures plugin.data == Put(old(plugin.data), d.GetUserId(), d.Snapshot())
      ensures random.drawn == old(random.drawn) + 100
    {
      codes := GenerateRecoveryCodes(random);
      d.SetRecoveryCodes(codes);
      d.SetLastRecoveryTime(now);
      ok := SavePluginUserData(d);
    }

    /** `pickRecoveryCode`, as `PickEffect` describes it. */
    method PickRecoveryCode(d: AuthenticatorData, now: int) returns (v: PickValue)
      modifies d`recoveryCodes, d`lastRecoveryTime, plugin`data, random
      ensures v == PickEffect(old(StateOf(d)), random.stream, now, storeSaves).0
      ensures StateOf(d) == PickEffect(old(StateOf(d)), random.stream, now, storeSaves).1
    {
      var recoveryTime := d.lastRecoveryTime;
      var codes := d.recoveryCodes;
      var numCodes := |codes|;
      if recoveryTime == 0 || (now - recoveryTime >= RECOVERY_GRACE_TIME && numCodes == 0) {
        var ok;
        codes, ok := Regenerate(d, now);
        if !ok {
          return NoCode;
        }
      }
      v := Peek(codes, numCodes);
    }

    /** `sendResetEmail`, as `MailEffect` describes it. */
    method SendResetEmail(d: AuthenticatorData, now: int) returns (sent: bool)
      modifies d`recoveryCodes, d`lastRecoveryTime, plugin`data, random, session`mailed
      ensures sent == MailEffect(old(StateOf(d)), random.stream, now, !Empty(email), storeSaves, mailDelivers).0
      ensures StateOf(d) == MailEffect(old(StateOf(d)), random.stream, now, !Empty(email), storeSaves, mailDelivers).1
    {
      if !Empty(email) {
        var code := PickRecoveryCode(d, now);
        if code != NoCode {
          if mailDelivers {
            session.Mail(MailText(code));
          }
          return mailDelivers;
        }
      }
      return false;
    }

    /** `returnResponseOk($isAuth)` and `returnResponseError($isAuth)`: the flags they set. */
    method Respond(ok: bool, isAuth: bool)
      modifies session`twoFApass, session`authCompleted
      ensures ResponseFlags(ok, isAuth).Some? ==>
        session.twoFApass == ok && session.authCompleted == ok
      ensures ResponseFlags(ok, isAuth).None? ==>
        session.twoFApass == old(session.twoFApass) && session.authCompleted == old(session.authCompleted)
    {
      if isAuth {
        session.SetFlags(ok);
      }
    }

    /** `checkCode` after the recovery-code attempt, as `AfterRecoveryEffect` describes it. */
    method AnswerAfterRecovery(d: AuthenticatorData, pin: string, codeReset: bool, now: int)
      returns (res: CheckReply)
      modifies d`recoveryCodes, d`lastRecoveryTime, plugin`data, random, session
      ensures res == AfterRecoveryEffect(old(StateOf(d)), pin, codeReset, random.stream, now, verifyKey,
                                         !Empty(email), storeSaves, mailDelivers).0
      ensures StateOf(d) == AfterRecoveryEffect(old(StateOf(d)), pin, codeReset, random.stream, now, verifyKey,
                                                !Empty(email), storeSaves, mailDelivers).1
      ensures CheckFlags(res).Some? ==>
        session.twoFApass == CheckFlags(res).value && session.authCompleted == CheckFlags(res).value
      ensures CheckFlags(res).None? ==>
        session.twoFApass == old(session.twoFApass) && session.authCompleted == old(session.authCompleted)
      ensures session.tracked == old(session.tracked) && session.redirect == old(session.redirect)
    {
      var iv := d.iv;
      if codeReset {
        var sent := SendResetEmail(d, now);
        if sent {
          session.SetFlags(false);
          return ResetMailSent;
        }
      }
      if !Empty(pin) && verifyKey(pin, iv) {
        Respond(true, true);
        return CodeCorrect;
      }
      Respond(false, false);
      return CodeIncorrect;
    }

    /** `checkCode` on a found record, as `CheckEffect` describes it. */
    method CheckCodeFor(d: AuthenticatorData, pin: string, codeReset: bool, now: int) returns (res: CheckReply)
      modifies d`recoveryCodes, d`lastRecoveryTime, plugin`data, random, session
      ensures res == CheckEffect(old(StateOf(d)), pin, codeReset, random.stream, now, verifyKey,
                                 !Empty(email), storeSaves, mailDelivers).0
      ensures StateOf(d) == CheckEffect(old(StateOf(d)), pin, codeReset, random.stream, now, verifyKey,
                                        !Empty(email), storeSaves, mailDelivers).1
      ensures CheckFlags(res).Some? ==>
        session.twoFApass == CheckFlags(res).value && session.authCompleted == CheckFlags(res).value
      ensures CheckFlags(res).None? ==>
        session.twoFApass == old(session.twoFApass) && session.authCompleted == old(session.authCompleted)
      ensures session.tracked == old(session.tracked) && session.redirect == old(session.redirect)
    {
      if |pin| == RECOVERY_CODE_LENGTH {
        var used := UseRecoveryCode(d, pin, now);
        if used {
          Respond(true, true);
          return RecoveryCodeUsed;
        }
      }
      res := AnswerAfterRecovery(d, pin, codeReset, now);
    }

    /**
     * `checkCode` for the user `userId`: no record for the user clears both flags and
     * answers "not found"; otherwise as `CheckEffect` describes it on that record.
     */
    method CheckCode(userId: int, pin: string, codeReset: bool, now: int) returns (res: CheckReply)
      modifies plugin`data, random, session
      ensures Find(old(plugin.data), userId).None? ==>
        res == NotFound && plugin.data == old(plugin.data) && random.drawn == old(random.drawn)
        && session.mailed == old(session.mailed)
      ensures Find(old(plugin.data), userId).Some? ==>
        var out := CheckEffect(World(Find(old(plugin.data), userId).value, old(plugin.data), old(random.drawn),
                                     old(session.mailed)),
                               pin, codeReset, random.stream, now, verifyKey, !Empty(email), storeSaves,
                               mailDelivers);
        res == out.0 && plugin.data == out.1.table && random.drawn == out.1.drawn
        && session.mailed == out.1.mailed
      ensures CheckFlags(res).Some? ==>
        session.twoFApass == CheckFlags(res).value && session.authCompleted == CheckFlags(res).value
      ensures CheckFlags(res).None? ==>
        session.twoFApass == old(session.twoFApass) && session.authCompleted == old(session.authCompleted)
    {
      var found := Find(plugin.data, userId);
      if found.None? {
        Respond(false, true);
        return NotFound;
      }
      var d := new AuthenticatorData.FromRecord(found.value);
      res := CheckCodeFor(d, pin, codeReset, now);
    }

    /** `save`'s code check, as `SaveGateEffect` describes it. */
    method SaveGate(d: AuthenticatorData, pin: string, now: int) returns (pass: bool)
      modifies d`recoveryCodes, d`lastRecoveryTime, plugin`data
      ensures pass == SaveGateEffect(old(StateOf(d)), pin, now, verifyKey, storeSaves).0
      ensures StateOf(d) == SaveGateEffect(old(StateOf(d)), pin, now, verifyKey, storeSaves).1
    {
      if verifyKey(pin, d.iv) {
        return true;
      }
      pass := false;
      if |pin| == RECOVERY_CODE_LENGTH {
        pass := UseRecoveryCode(d, pin, now);
      }
    }

    /** `save`'s enabling branch, as `EnableEffect` describes it. */
    method EnableFor(d: AuthenticatorData, expireDays: int, now: int)
      modifies d, plugin`data, random
      ensures StateOf(d) == EnableEffect(old(StateOf(d)), itemId, expireDays, now, random.stream)
    {
      d.SetUserId(itemId);
      d.SetTwofaEnabled(true);
      d.SetExpireDays(expireDays);
      d.SetDate(now);
      var codes := GenerateRecoveryCodes(random);
      d.SetRecoveryCodes(codes);
      ghost var filed, before := d.Snapshot(), plugin.data;
      plugin.SetDataForId(itemId, d);
      var _ := SavePluginUserData(d);
      assert plugin.data == Put(Put(before, itemId, filed), itemId, filed);
      assert Entries(plugin.data) == Entries(before)[itemId := filed];
    }

    /** `save` on the session's record d, as `SaveEffect` describes it; the flags stay untouched. */
    method Save(d: AuthenticatorData, pin: string, enable: bool, expireDays: int, now: int)
      returns (res: SaveReply)
      modifies d, plugin`data, random
      ensures res == SaveEffect(old(StateOf(d)), pin, enable, itemId, expireDays, now, random.stream,
                                verifyKey, demo, storeSaves).0
      ensures StateOf(d) == SaveEffect(old(StateOf(d)), pin, enable, itemId, expireDays, now, random.stream,
                                       verifyKey, demo, storeSaves).1
    {
      var pass := SaveGate(d, pin, now);
      if !pass {
        return WrongCode;
      }
      if demo {
        return DemoWarning;
      }
      if enable {
        EnableFor(d, expireDays, now);
      } else {
        var _ := DeletePluginUserData(itemId);
      }
      return Updated;
    }
  }
}
