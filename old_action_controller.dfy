/**
 * The oldest revision's `ActionController` (Authenticator/ActionController.class.php): a
 * save gate that demands TOTP and, for a 20-character pin, a recovery code as well; a
 * recovery code whose use turns 2FA off and unsets the entry under key 1 rather than the
 * matching one; a reset mail that regenerates only a never-used pool; and a disabling save
 * that writes the record back after deleting it. Every response ends the request.
 */
module OldActions {
  import opened Wrappers
  import opened Php
  import opened Randomness
  import opened Models
  import opened Host
  import opened RecoveryCodes
  import opened LegacyPlugin
  import opened LegacyActions
  import Services
  import Plugin

  /**
   * `useRecoveryCode` of this revision on a world. `$key = array_search(...) !== false`
   * assigns the comparison, so `$key` is `true` and `unset($codes[$key])` unsets key 1,
   * whatever entry matched; nothing is reindexed. A match also turns 2FA off, stamps the
   * time and files the record; the answer is whether the store saved.
   */
  function OldUseEffect(w: World, code: Code, now: int, saves: bool): (out: (bool, World))
    ensures code !in Values(w.record.recoveryCodes) ==> out == (false, w)
    ensures code in Values(w.record.recoveryCodes) ==>
      var r := out.1.record;
      out.0 == saves && !r.IsTwofaEnabled()
      && r.recoveryCodes == Unset(w.record.recoveryCodes, 1)
      && r == w.record.(twofaEnabled := 0, recoveryCodes := r.recoveryCodes, lastRecoveryTime := now)
      && out.1 == w.(record := r, table := Put(w.table, r.UserId(), r))
  {
    if Search(w.record.recoveryCodes, code).Some? then
      var r := w.record.(twofaEnabled := BoolToInt(false), recoveryCodes := Unset(w.record.recoveryCodes, 1),
                         lastRecoveryTime := now);
      (saves, w.(record := r, table := Put(w.table, r.UserId(), r)))
    else (false, w)
  }

  /** `unset($a[$k])` keeps every entry under another key. */
  lemma {:induction false} UnsetKeepsOthers(a: PhpArray, k: int, i: nat)
    requires i < |a| && a[i].key != k
    ensures a[i].value in Values(Unset(a, k))
  {
    if j :| 0 <= j < |a| && a[j].key == k {
      UnsetAt(a, j);
      var r := a[..j] + a[j + 1..];
      var at := if i < j then i else i - 1;
      assert r[at] == a[i];
      assert Values(r)[at] == a[i].value;
    } else {
      UnsetAbsent(a, k);
      assert Values(a)[i] == a[i].value;
    }
  }

  /**
   * Replay: a recovery code not filed under key 1 is still in the pool after it was used,
   * and using it again succeeds again.
   */
  lemma {:induction false} OldReplayAccepted(w: World, code: Code, now: int)
    requires code in Values(w.record.recoveryCodes)
    requires Search(w.record.recoveryCodes, code) != Some(1)
    ensures OldUseEffect(w, code, now, true).0
    ensures var w' := OldUseEffect(w, code, now, true).1;
      code in Values(w'.record.recoveryCodes) && OldUseEffect(w', code, now, true).0
  {
    var codes := w.record.recoveryCodes;
    var i := IndexOf(Values(codes), code).value;
    assert codes[i].value == code;
    UnsetKeepsOthers(codes, 1, i);
  }

  /** Two fresh codes, the first one used: it stays, and the second one is lost instead. */
  lemma OldReplayExample(w: World, c0: Code, c1: Code, now: int)
    requires c0 != c1 && w.record.recoveryCodes == FromList([c0, c1])
    ensures Values(OldUseEffect(w, c0, now, true).1.record.recoveryCodes) == [c0]
  {
    var a := w.record.recoveryCodes;
    assert Values(a) == [c0, c1];
    UnsetAt(a, 1);
    assert a[..1] + a[2..] == [a[0]];
  }

  /**
   * `pickRecoveryCode` of this revision on a world: only a record that never issued a code
   * (issue time 0) gets ten fresh codes, and then its last one unless the store failed;
   * any other record peeks at its pool as it is, so an exhausted pool stays exhausted.
   */
  function OldPickEffect(w: World, stream: nat -> Byte, now: int, saves: bool): (out: (PickValue, World))
    ensures w.record.lastRecoveryTime != 0 ==>
      out == (Peek(w.record.recoveryCodes, |w.record.recoveryCodes|), w)
    ensures w.record.lastRecoveryTime != 0 && w.record.recoveryCodes == [] ==> out.0 == NoCode
    ensures w.record.lastRecoveryTime == 0 ==>
      var r := out.1.record;
      r == w.record.(recoveryCodes := FreshPool(stream, w.drawn), lastRecoveryTime := now)
      && out.1 == World(r, Put(w.table, r.UserId(), r), w.drawn + 100, w.mailed)
      && out.0 == (if saves then PickedCode(Last(r.recoveryCodes)) else NoCode)
  {
    if w.record.lastRecoveryTime == 0 then
      var pool := FreshPool(stream, w.drawn);
      var r := w.record.(recoveryCodes := pool, lastRecoveryTime := now);
      (if saves then Peek(pool, |pool|) else NoCode, World(r, Put(w.table, r.UserId(), r), w.drawn + 100, w.mailed))
    else (Peek(w.record.recoveryCodes, |w.record.recoveryCodes|), w)
  }

  /** `sendResetEmail` of this revision: `Mail` after `OldPickEffect`. */
  function OldMailEffect(w: World, stream: nat -> Byte, now: int, hasEmail: bool, saves: bool, delivers: bool)
    : (out: (bool, World))
    ensures !hasEmail ==> out == (false, w)
    ensures out.0 <==> hasEmail && delivers && OldPickEffect(w, stream, now, saves).0 != NoCode
    ensures hasEmail ==>
      var p := OldPickEffect(w, stream, now, saves);
      out.1 == p.1.(mailed := w.mailed + (if out.0 then [MailText(p.0)] else []))
  {
    Mail(w, OldPickEffect(w, stream, now, saves), hasEmail, delivers)
  }

  /**
   * The value both session flags take after each `checkCode` answer of this revision, None
   * when untouched: `authResponseError()` is called without `$isAuth`, so neither a missing
   * record nor a wrong code touches them, unlike the later revision.
   */
  function OldCheckFlags(res: CheckReply): (f: Option<bool>)
    ensures f == None <==> res == NotFound || res == CodeIncorrect
    ensures f == Some(true) <==> res == RecoveryCodeUsed || res == CodeCorrect
    ensures res == NotFound ==> f != CheckFlags(res)
  {
    match res
    case NotFound => ResponseFlags(false, false)
    case RecoveryCodeUsed => Some(true)
    case ResetMailSent => Some(false)
    case CodeCorrect => Some(true)
    case CodeIncorrect => ResponseFlags(false, false)
  }

  /**
   * `checkCode` of this revision after the recovery-code attempt: a reset request whose
   * mail goes out answers that; otherwise the TOTP check decides, refusing an empty pin.
   */
  function OldAfterRecoveryEffect(w: World, pin: string, codeReset: bool, stream: nat -> Byte, now: int,
                                  verifyKey: Services.KeyVerifier, hasEmail: bool, saves: bool, delivers: bool)
    : (out: (CheckReply, World))
    ensures out.0 in {ResetMailSent, CodeCorrect, CodeIncorrect}
    ensures out.0 == ResetMailSent <==> codeReset && OldMailEffect(w, stream, now, hasEmail, saves, delivers).0
    ensures out.0 == CodeCorrect <==> out.0 != ResetMailSent && !Empty(pin) && verifyKey(pin, w.record.iv)
    ensures codeReset ==> out.1 == OldMailEffect(w, stream, now, hasEmail, saves, delivers).1
    ensures !codeReset ==> out.1 == w
  {
    var m := if codeReset then OldMailEffect(w, stream, now, hasEmail, saves, delivers) else (false, w);
    if m.0 then (ResetMailSent, m.1)
    else if !Empty(pin) && verifyKey(pin, w.record.iv) then (CodeCorrect, m.1)
    else (CodeIncorrect, m.1)
  }

  /**
   * `checkCode` of this revision once the record is found: a used (and saved) recovery
   * code passes and leaves the record filed with 2FA off; otherwise the reset mail and
   * then the TOTP check decide.
   */
  function OldCheckEffect(w: World, pin: string, codeReset: bool, stream: nat -> Byte, now: int,
                          verifyKey: Services.KeyVerifier, hasEmail: bool, saves: bool, delivers: bool)
    : (out: (CheckReply, World))
    ensures out.0 != NotFound
    ensures out.0 == RecoveryCodeUsed <==>
      |pin| == RECOVERY_CODE_LENGTH && pin in Values(w.record.recoveryCodes) && saves
    ensures out.0 == RecoveryCodeUsed ==>
      out.1 == OldUseEffect(w, pin, now, saves).1
      && !out.1.record.IsTwofaEnabled() && Lookup(out.1.table, out.1.record.UserId()) == Some(out.1.record)
    ensures out.0 != RecoveryCodeUsed ==>
      var w1 := if |pin| == RECOVERY_CODE_LENGTH then OldUseEffect(w, pin, now, saves).1 else w;
      out == OldAfterRecoveryEffect(w1, pin, codeReset, stream, now, verifyKey, hasEmail, saves, delivers)
  {
    var u := if |pin| == RECOVERY_CODE_LENGTH then OldUseEffect(w, pin, now, saves) else (false, w);
    if u.0 then (RecoveryCodeUsed, u.1)
    else OldAfterRecoveryEffect(u.1, pin, codeReset, stream, now, verifyKey, hasEmail, saves, delivers)
  }

  /**
   * `save`'s code check in this revision: TOTP must pass, and a 20-character pin must in
   * addition be consumed as a recovery code, so a recovery code alone never passes.
   */
  function OldSaveGate(w: World, pin: string, now: int, verifyKey: Services.KeyVerifier, saves: bool)
    : (out: (bool, World))
    ensures out.0 ==> verifyKey(pin, w.record.iv)
    ensures out.0 <==>
      verifyKey(pin, w.record.iv)
      && (|pin| != RECOVERY_CODE_LENGTH || (pin in Values(w.record.recoveryCodes) && saves))
    ensures !verifyKey(pin, w.record.iv) || |pin| != RECOVERY_CODE_LENGTH ==> out.1 == w
    ensures verifyKey(pin, w.record.iv) && |pin| == RECOVERY_CODE_LENGTH ==>
      out.1 == OldUseEffect(w, pin, now, saves).1
  {
    if !verifyKey(pin, w.record.iv) then (false, w)
    else if |pin| == RECOVERY_CODE_LENGTH then OldUseEffect(w, pin, now, saves)
    else (true, w)
  }

  /**
   * A valid recovery code typed while the TOTP check fails is refused by this gate and
   * accepted by the later revision's gate.
   */
  lemma RecoveryCodeAloneRejected(w: World, pin: string, now: int, verifyKey: Services.KeyVerifier)
    requires |pin| == RECOVERY_CODE_LENGTH && pin in Values(w.record.recoveryCodes)
    requires !verifyKey(pin, w.record.iv)
    ensures !OldSaveGate(w, pin, now, verifyKey, true).0
    ensures SaveGateEffect(w, pin, now, verifyKey, true).0
  {
  }

  /**
   * `save` of this revision on a world: the gate, then demo mode, then enabling (as the
   * later revision does) or deleting the user's entry; in either case the record is
   * finally filed again under its own user id.
   */
  function OldSaveEffect(w: World, pin: string, enable: bool, userId: int, expireDays: int, now: int,
                         stream: nat -> Byte, verifyKey: Services.KeyVerifier, demo: bool, saves: bool)
    : (out: (SaveReply, World))
    ensures out.0 == WrongCode <==> !OldSaveGate(w, pin, now, verifyKey, saves).0
    ensures out.0 == DemoWarning <==> OldSaveGate(w, pin, now, verifyKey, saves).0 && demo
    ensures out.0 != Updated ==> out.1 == OldSaveGate(w, pin, now, verifyKey, saves).1
    ensures out.0 == Updated ==> Lookup(out.1.table, out.1.record.UserId()) == Some(out.1.record)
    ensures out.0 == Updated && enable ==>
      var e := EnableEffect(OldSaveGate(w, pin, now, verifyKey, saves).1, userId, expireDays, now, stream);
      out.1 == e.(table := Put(e.table, userId, e.record))
      && Lookup(out.1.table, userId) == Some(e.record)
      && forall other :: other != userId ==>
           Lookup(out.1.table, other) == Lookup(OldSaveGate(w, pin, now, verifyKey, saves).1.table, other)
    ensures out.0 == Updated && !enable ==>
      var g := OldSaveGate(w, pin, now, verifyKey, saves).1;
      out.1 == g.(table := Put(Remove(g.table, userId), g.record.UserId(), g.record))
  {
    var g := OldSaveGate(w, pin, now, verifyKey, saves);
    if !g.0 then (WrongCode, g.1)
    else if demo then (DemoWarning, g.1)
    else
      var w1 := if enable then EnableEffect(g.1, userId, expireDays, now, stream)
                else g.1.(table := Remove(g.1.table, userId));
      (Updated, w1.(table := Put(w1.table, w1.record.UserId(), w1.record)))
  }

  /**
   * Disabling in this revision does not disable: for a user whose record is filed under
   * their id with 2FA on, the record is written back after the delete, so the login gate
   * still demands the second factor. The later revision's save leaves no entry behind.
   */
  lemma OldDisableKeepsSecondFactor(w: World, pin: string, userId: int, expireDays: int, now: int,
                                    stream: nat -> Byte, verifyKey: Services.KeyVerifier, saves: bool)
    requires w.record.UserId() == userId && w.record.IsTwofaEnabled()
    requires |pin| != RECOVERY_CODE_LENGTH && verifyKey(pin, w.record.iv)
    ensures OldSaveEffect(w, pin, false, userId, expireDays, now, stream, verifyKey, false, saves).0 == Updated
    ensures Plugin.RequiresSecondFactor(
      Lookup(OldSaveEffect(w, pin, false, userId, expireDays, now, stream, verifyKey, false, saves).1.table, userId))
    ensures SaveEffect(w, pin, false, userId, expireDays, now, stream, verifyKey, false, saves).0 == Updated
    ensures !Plugin.RequiresSecondFactor(
      Lookup(SaveEffect(w, pin, false, userId, expireDays, now, stream, verifyKey, false, saves).1.table, userId))
  {
  }

  /**
   * `showRecoveryCodes` of this revision: status 0 with the session record's pool, even an
   * exhausted one, where the later revision answers status 1.
   */
  function OldShowRecoveryCodes(r: Record): (reply: ShowReply)
    ensures reply.Status() == 0 && reply.CodesShown? && reply.codes == r.recoveryCodes
    ensures r.recoveryCodes == [] ==> reply != ShowRecoveryCodes(r)
  {
    CodesShown(r.recoveryCodes)
  }

  class OldActionController {
    const plugin: AuthenticatorPlugin
    const session: Session
    const random: RandomSource
    const verifyKey: Services.KeyVerifier
    /** `Checks::demoIsEnabled()`. */
    const demo: bool
    /** Whether `PluginDataStore::save` succeeds (it throws otherwise). */
    const storeSaves: bool
    /** The signed-in user's e-mail address. */
    const email: string
    /** Whether `Email::sendEmail` reports the mail as sent. */
    const mailDelivers: bool
    /** `$this->itemId`: the user the preferences are saved for. */
    const itemId: int

    constructor (plugin: AuthenticatorPlugin, session: Session, random: RandomSource,
                 verifyKey: Services.KeyVerifier, demo: bool, storeSaves: bool, email: string,
                 mailDelivers: bool, itemId: int)
      ensures this.plugin == plugin && this.session == session && this.random == random
      ensures this.verifyKey == verifyKey && this.demo == demo && this.storeSaves == storeSaves
      ensures this.email == email && this.mailDelivers == mailDelivers && this.itemId == itemId
    {
      this.plugin := plugin;
      this.session := session;
      this.random := random;
      this.verifyKey := verifyKey;
      this.demo := demo;
      this.storeSaves := storeSaves;
      this.email := email;
      this.mailDelivers := mailDelivers;
      this.itemId := itemId;
    }

    /** What an action on the record d can change, outside the session flags. */
    function StateOf(d: AuthenticatorData): World
      reads d, plugin, random, session
    {
      World(d.Snapshot(), plugin.data, random.drawn, session.mailed)
    }

    /** `savePluginUserData`: files the record under its own user id, then saves the store. */
    method SavePluginUserData(d: AuthenticatorData) returns (ok: bool)
      modifies plugin`data
      ensures plugin.data == Put(old(plugin.data), d.GetUserId(), d.Snapshot())
      ensures ok == storeSaves
    {
      plugin.SetDataForId(d.GetUserId(), d);
      ok := storeSaves;
    }

    /** `useRecoveryCode`, as `OldUseEffect` describes it. */
    method UseRecoveryCode(d: AuthenticatorData, code: Code, now: int) returns (ok: bool)
      modifies d`twofaEnabled, d`recoveryCodes, d`lastRecoveryTime, plugin`data
      ensures ok == OldUseEffect(old(StateOf(d)), code, now, storeSaves).0
      ensures StateOf(d) == OldUseEffect(old(StateOf(d)), code, now, storeSaves).1
    {
      var codes := d.recoveryCodes;
      if Search(codes, code).Some? {
        // `$key` holds `true`, which PHP turns into the key 1.
        codes := Unset(codes, 1);
        d.SetTwofaEnabled(false);
        d.SetRecoveryCodes(codes);
        d.SetLastRecoveryTime(now);
        ok := SavePluginUserData(d);
      } else {
        ok := false;
      }
    }

    /** The regeneration inside `pickRecoveryCode`: fresh codes, the time stamped, the record saved. */
    method Regenerate(d: AuthenticatorData, now: int) returns (codes: PhpArray, ok: bool)
      modifies d`recoveryCodes, d`lastRecoveryTime, plugin`data, random
      ensures codes == FreshPool(random.stream, old(random.drawn)) && ok == storeSaves
      ensures d.Snapshot() == old(d.Snapshot()).(recoveryCodes := codes, lastRecoveryTime := now)
      ensures plugin.data == Put(old(plugin.data), d.GetUserId(), d.Snapshot())
      ensures random.drawn == old(random.drawn) + 100
    {
      codes := GenerateRecoveryCodes(random);
      d.SetRecoveryCodes(codes);
      d.SetLastRecoveryTime(now);
      ok := SavePluginUserData(d);
    }

    /** `pickRecoveryCode`, as `OldPickEffect` describes it. */
    method PickRecoveryCode(d: AuthenticatorData, now: int) returns (v: PickValue)
      modifies d`recoveryCodes, d`lastRecoveryTime, plugin`data, random
      ensures v == OldPickEffect(old(StateOf(d)), random.stream, now, storeSaves).0
      ensures StateOf(d) == OldPickEffect(old(StateOf(d)), random.stream, now, storeSaves).1
    {
      var codes;
      if d.lastRecoveryTime == 0 {
        var ok;
        codes, ok := Regenerate(d, now);
        if !ok {
          return NoCode;
        }
      } else {
        codes := d.recoveryCodes;
      }
      v := Peek(codes, |codes|);
    }

    /** `sendResetEmail`, as `OldMailEffect` describes it. */
    method SendResetEmail(d: AuthenticatorData, now: int) returns (sent: bool)
      modifies d`recoveryCodes, d`lastRecoveryTime, plugin`data, random, session`mailed
      ensures sent == OldMailEffect(old(StateOf(d)), random.stream, now, !Empty(email), storeSaves, mailDelivers).0
      ensures StateOf(d) == OldMailEffect(old(StateOf(d)), random.stream, now, !Empty(email), storeSaves,
                                          mailDelivers).1
    {
      if !Empty(email) {
        var code := PickRecoveryCode(d, now);
        if code != NoCode {
          if mailDelivers {
            session.Mail(MailText(code));
          }
          return mailDelivers;
        }
      }
      return false;
    }

    /** `authResponseOk()`: both flags set. */
    method AuthResponseOk()
      modifies session`twoFApass, session`authCompleted
      ensures session.twoFApass && session.authCompleted
    {
      session.SetFlags(true);
    }

    /** `authResponseError($isAuth)`: both flags cleared only when `$isAuth` is true. */
    method AuthResponseError(isAuth: bool)
      modifies session`twoFApass, session`authCompleted
      ensures ResponseFlags(false, isAuth).Some? ==> !session.twoFApass && !session.authCompleted
      ensures ResponseFlags(false, isAuth).None? ==>
        session.twoFApass == old(session.twoFApass) && session.authCompleted == old(session.authCompleted)
    {
      if isAuth {
        session.SetFlags(false);
      }
    }

    /** `checkCode` after the recovery-code attempt, as `OldAfterRecoveryEffect` describes it. */
    method AnswerAfterRecovery(d: AuthenticatorData, pin: string, codeReset: bool, now: int)
      returns (res: CheckReply)
      modifies d`recoveryCodes, d`lastRecoveryTime, plugin`data, random, session
      ensures res == OldAfterRecoveryEffect(old(StateOf(d)), pin, codeReset, random.stream, now, verifyKey,
                                            !Empty(email), storeSaves, mailDelivers).0
      ensures StateOf(d) == OldAfterRecoveryEffect(old(StateOf(d)), pin, codeReset, random.stream, now, verifyKey,
                                                   !Empty(email), storeSaves, mailDelivers).1
      ensures OldCheckFlags(res).Some? ==>
        session.twoFApass == OldCheckFlags(res).value && session.authCompleted == OldCheckFlags(res).value
      ensures OldCheckFlags(res).None? ==>
        session.twoFApass == old(session.twoFApass) && session.authCompleted == old(session.authCompleted)
      ensures session.tracked == old(session.tracked) && session.redirect == old(session.redirect)
    {
      var iv := d.iv;
      if codeReset {
        var sent := SendResetEmail(d, now);
        if sent {
          session.SetFlags(false);
          return ResetMailSent;
        }
      }
      if !Empty(pin) && verifyKey(pin, iv) {
        AuthResponseOk();
        return CodeCorrect;
      }
      AuthResponseError(false);
      return CodeIncorrect;
    }

    /** `checkCode` on a found record, as `OldCheckEffect` describes it. */
    method CheckCodeFor(d: AuthenticatorData, pin: string, codeReset: bool, now: int) returns (res: CheckReply)
      modifies d`twofaEnabled, d`recoveryCodes, d`lastRecoveryTime, plugin`data, random, session
      ensures res == OldCheckEffect(old(StateOf(d)), pin, codeReset, random.stream, now, verifyKey,
                                    !Empty(email), storeSaves, mailDelivers).0
      ensures StateOf(d) == OldCheckEffect(old(StateOf(d)), pin, codeReset, random.stream, now, verifyKey,
                                           !Empty(email), storeSaves, mailDelivers).1
      ensures OldCheckFlags(res).Some? ==>
        session.twoFApass == OldCheckFlags(res).value && session.authCompleted == OldCheckFlags(res).value
      ensures OldCheckFlags(res).None? ==>
        session.twoFApass == old(session.twoFApass) && session.authCompleted == old(session.authCompleted)
      ensures session.tracked == old(session.tracked) && session.redirect == old(session.redirect)
    {
      if |pin| == RECOVERY_CODE_LENGTH {
        var used := UseRecoveryCode(d, pin, now);
        if used {
          session.SetFlags(true);
          AuthResponseOk();
          return RecoveryCodeUsed;
        }
      }
      res := AnswerAfterRecovery(d, pin, codeReset, now);
    }

    /**
     * `checkCode` for the user `userId`: no record for the user answers "not found" with
     * the flags untouched; otherwise as `OldCheckEffect` describes it on that record.
     */
    method CheckCode(userId: int, pin: string, codeReset: bool, now: int) returns (res: CheckReply)
      modifies plugin`data, random, session
      ensures Find(old(plugin.data), userId).None? ==>
        res == NotFound && plugin.data == old(plugin.data) && random.drawn == old(random.drawn)
        && session.mailed == old(session.mailed)
      ensures Find(old(plugin.data), userId).Some? ==>
        var out := OldCheckEffect(World(Find(old(plugin.data), userId).value, old(plugin.data),
                                        old(random.drawn), old(session.mailed)),
                                  pin, codeReset, random.stream, now, verifyKey, !Empty(email), storeSaves,
                                  mailDelivers);
        res == out.0 && plugin.data == out.1.table && random.drawn == out.1.drawn
        && session.mailed == out.1.mailed
      ensures OldCheckFlags(res).Some? ==>
        session.twoFApass == OldCheckFlags(res).value && session.authCompleted == OldCheckFlags(res).value
      ensures OldCheckFlags(res).None? ==>
        session.twoFApass == old(session.twoFApass) && session.authCompleted == old(session.authCompleted)
    {
      var found := Find(plugin.data, userId);
      if found.None? {
        AuthResponseError(false);
        return NotFound;
      }
      var d := new AuthenticatorData.FromRecord(found.value);
      res := CheckCodeFor(d, pin, codeReset, now);
    }

    /** `save`'s code check, as `OldSaveGate` describes it. */
    method SaveGate(d: AuthenticatorData, pin: string, now: int) returns (pass: bool)
      modifies d`twofaEnabled, d`recoveryCodes, d`lastRecoveryTime, plugin`data
      ensures pass == OldSaveGate(old(StateOf(d)), pin, now, verifyKey, storeSaves).0
      ensures StateOf(d) == OldSaveGate(old(StateOf(d)), pin, now, verifyKey, storeSaves).1
    {
      if !verifyKey(pin, d.iv) {
        return false;
      }
      pass := true;
      if |pin| == RECOVERY_CODE_LENGTH {
        pass := UseRecoveryCode(d, pin, now);
      }
    }

    /** `save`'s enabling branch: the record switched on with fresh codes and filed under the user. */
    method EnableFor(d: AuthenticatorData, expireDays: int, now: int)
      modifies d, plugin`data, random
      ensures StateOf(d) == EnableEffect(old(StateOf(d)), itemId, expireDays, now, random.stream)
    {
      d.SetUserId(itemId);
      d.SetTwofaEnabled(true);
      d.SetExpireDays(expireDays);
      d.SetDate(now);
      var codes := GenerateRecoveryCodes(random);
      d.SetRecoveryCodes(codes);
      plugin.SetDataForId(itemId, d);
    }

    /** `save` on the session's record d, as `OldSaveEffect` describes it; the flags stay untouched. */
    method Save(d: AuthenticatorData, pin: string, enable: bool, expireDays: int, now: int)
      returns (res: SaveReply)
      modifies d, plugin`data, random
      ensures res == OldSaveEffect(old(StateOf(d)), pin, enable, itemId, expireDays, now, random.stream,
                                   verifyKey, demo, storeSaves).0
      ensures StateOf(d) == OldSaveEffect(old(StateOf(d)), pin, enable, itemId, expireDays, now, random.stream,
                                          verifyKey, demo, storeSaves).1
    {
      var pass := SaveGate(d, pin, now);
      if !pass {
        return WrongCode;
      }
      if demo {
        return DemoWarning;
      }
      if enable {
        EnableFor(d, expireDays, now);
      } else {
        plugin.DeleteDataForId(itemId);
      }
      var _ := SavePluginUserData(d);
      return Updated;
    }
  }
}
