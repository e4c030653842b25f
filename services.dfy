/**
 * The current revision's `AuthenticatorService` (src/lib/Services/AuthenticatorService.php):
 * the TOTP secret, the token check, and the recovery-code pool of a record, which it
 * pops, consumes and persists through the plugin store.
 */
module Services {
  import opened Wrappers
  import opened Php
  import opened Randomness
  import opened Base32
  import opened Models
  import opened RecoveryCodes
  import opened Plugin

  /** Random bytes drawn for a new TOTP secret. */
  const IV_BYTES: nat := 32
  /** Characters of the secret kept by `substr(..., 0, 16)`. */
  const KEY_LENGTH: nat := 16

  /**
   * The secret `makeInitializationKey` derives from the random text iv: its Base32
   * encoding, cut to its first 16 characters (all of it when shorter).
   */
  function InitializationKey(iv: string): (key: string)
    requires IsByteString(iv)
    ensures |key| <= KEY_LENGTH
    ensures forall c :: c in key ==> c in ALPHABET || c == PAD
    ensures |iv| >= 10 ==> |key| == KEY_LENGTH && (forall c :: c in key ==> c in ALPHABET)
    ensures |iv| >= 10 ==> key == EncodeGroup(Bytes(iv)[..5]) + EncodeGroup(Bytes(iv)[5..10])
  {
    var e := Encode(Bytes(iv));
    if |iv| >= 10 then
      EncodePrefix(Bytes(iv));
      e[..KEY_LENGTH]
    else if |e| <= KEY_LENGTH then e
    else e[..KEY_LENGTH]
  }

  /** Two texts that agree on their first ten characters give the same secret. */
  lemma {:induction false} KeyDependsOnTenCharacters(a: string, b: string)
    requires IsByteString(a) && IsByteString(b)
    requires |a| >= 10 && |b| >= 10 && a[..10] == b[..10]
    ensures InitializationKey(a) == InitializationKey(b)
  {
    assert Bytes(a)[..5] == Bytes(b)[..5] by {
      forall i | 0 <= i < 5 ensures Bytes(a)[i] == Bytes(b)[i] {
        assert a[i] == a[..10][i];
      }
    }
    assert Bytes(a)[5..10] == Bytes(b)[5..10] by {
      forall i | 5 <= i < 10 ensures Bytes(a)[i] == Bytes(b)[i] {
        assert a[i] == a[..10][i];
      }
    }
  }

  /** The hexadecimal text of the first n bytes is the first 2n characters of the text. */
  lemma {:induction false} HexPrefix(bs: seq<Byte>, n: nat)
    requires n <= |bs|
    ensures Hex(bs)[..2 * n] == Hex(bs[..n])
  {
    if n > 0 {
      HexPrefix(bs[1..], n - 1);
      assert bs[..n] == [bs[0]] + bs[1..][..n - 1];
    }
  }

  /**
   * The secret made from 32 random bytes depends on the first five of them only: the
   * Base32 input is their hexadecimal text, and 16 symbols encode its first ten characters.
   */
  lemma {:induction false} KeyDependsOnFiveRandomBytes(s1: nat -> Byte, s2: nat -> Byte, from: nat)
    requires Window(s1, from, 5) == Window(s2, from, 5)
    ensures InitializationKey(Hex(Window(s1, from, IV_BYTES))) == InitializationKey(Hex(Window(s2, from, IV_BYTES)))
  {
    var w1, w2 := Window(s1, from, IV_BYTES), Window(s2, from, IV_BYTES);
    HexPrefix(w1, 5);
    HexPrefix(w2, 5);
    assert w1[..5] == Window(s1, from, 5) == Window(s2, from, 5) == w2[..5];
    KeyDependsOnTenCharacters(Hex(w1), Hex(w2));
  }

  /** `verifyKey($key, $iv)`: the TOTP check of Google2FA, not modelled, over (pin, secret). */
  type KeyVerifier = (string, Option<string>) -> bool

  /**
   * `checkUserToken`: the token against the one code that `oath_totp` computes from the
   * secret for the current time step (`get_timestamp()`).
   */
  function CheckUserToken(userToken: string, iv: string, timestamp: int,
                          oathTotp: (string, int) -> string): bool
  {
    oathTotp(iv, timestamp) == userToken
  }

  /** The code of the current time step is accepted. */
  lemma CurrentStepAccepted(iv: string, timestamp: int, oathTotp: (string, int) -> string)
    ensures CheckUserToken(oathTotp(iv, timestamp), iv, timestamp, oathTotp)
  {
  }

  /** No tolerance window: the code of the previous time step is refused. */
  lemma NoToleranceWindow(userToken: string, iv: string, timestamp: int,
                          oathTotp: (string, int) -> string)
    requires oathTotp(iv, timestamp - 1) == userToken && oathTotp(iv, timestamp) != userToken
    ensures !CheckUserToken(userToken, iv, timestamp, oathTotp)
  {
  }

  /** Why `pickRecoveryCode` throws: "There aren't any recovery codes available". */
  datatype PickError = NoRecoveryCodes

  /** An empty pool may be regenerated: no code was ever issued, or the grace time is over. */
  predicate MayRegenerate(lastRecoveryTime: int, now: int) {
    lastRecoveryTime == 0 || now - lastRecoveryTime >= RECOVERY_GRACE_TIME
  }

  /** A code handed out and the pool that is stored afterwards. */
  datatype Picked = Picked(code: Code, pool: PhpArray, regenerated: bool)

  /**
   * `pickRecoveryCode` on a pool, its last issue time and the clock, with `newPool` the pool
   * a regeneration would draw: pops the last code, from the pool when it has one, from a
   * fresh pool when the pool is empty and may be regenerated; fails otherwise.
   */
  function Pick(pool: PhpArray, lastRecoveryTime: int, now: int, newPool: PhpArray)
    : (r: Result<Picked, PickError>)
    requires |newPool| == RECOVERY_CODE_COUNT
    ensures r.Err? <==> pool == [] && !MayRegenerate(lastRecoveryTime, now)
    ensures r.Ok? ==> (r.value.regenerated <==> pool == [])
    ensures r.Ok? ==>
      var from := if r.value.regenerated then newPool else pool;
      Values(r.value.pool) + [r.value.code] == Values(from)
      && r.value.pool == from[..|from| - 1]
  {
    if |pool| > 0 then Ok(Picked(Last(pool), DropLast(pool), false))
    else if MayRegenerate(lastRecoveryTime, now) then Ok(Picked(Last(newPool), DropLast(newPool), true))
    else Err(NoRecoveryCodes)
  }

  /**
   * A code handed out by `pickRecoveryCode` from a pool without duplicates is not in the
   * pool stored afterwards, so using it later fails.
   */
  lemma {:induction false} PickedCodeNotReusable(pool: PhpArray, lastRecoveryTime: int, now: int,
                                                 newPool: PhpArray)
    requires |newPool| == RECOVERY_CODE_COUNT
    requires NoDuplicates(Values(pool)) && NoDuplicates(Values(newPool))
    requires Pick(pool, lastRecoveryTime, now, newPool).Ok?
    ensures var p := Pick(pool, lastRecoveryTime, now, newPool).value;
      p.code !in Values(p.pool) && ConsumeFirst(p.pool, p.code).None?
  {
    if |pool| > 0 {
      PoppedCodeGone(pool);
    } else {
      PoppedCodeGone(newPool);
    }
  }

  /**
   * `pickRecoveryCode` on a record, the store and the random cursor: the code handed out,
   * the record with the pool it leaves and the issue time stamped, the store with that
   * record filed under its user, and the cursor after any regeneration. A failed pick
   * changes nothing.
   */
  function PickEffect(r: Record, store: map<int, Record>, drawn: nat, stream: nat -> Byte, now: int)
    : (out: (Result<Code, PickError>, Record, map<int, Record>, nat))
    ensures var p := Pick(r.recoveryCodes, r.lastRecoveryTime, now, FreshPool(stream, drawn));
      (out.0.Err? <==> p.Err?)
      && (p.Err? ==> out.1 == r && out.2 == store && out.3 == drawn)
      && (p.Ok? ==>
        out.0 == Ok(p.value.code)
        && out.1 == r.(recoveryCodes := p.value.pool, lastRecoveryTime := now)
        && out.2 == store[r.UserId() := out.1]
        && out.3 == drawn + (if p.value.regenerated then 100 else 0))
  {
    var p := Pick(r.recoveryCodes, r.lastRecoveryTime, now, FreshPool(stream, drawn));
    if p.Err? then (Err(p.error), r, store, drawn)
    else
      var r' := r.(recoveryCodes := p.value.pool, lastRecoveryTime := now);
      (Ok(p.value.code), r', store[r.UserId() := r'], drawn + (if p.value.regenerated then 100 else 0))
  }

  class AuthenticatorService {
    const plugin: Plugin
    const random: RandomSource

    constructor (plugin: Plugin, random: RandomSource)
      ensures this.plugin == plugin && this.random == random
    {
      this.plugin := plugin;
      this.random := random;
    }

    /** `makeInitializationKey()`: the secret derived from the next 32 random bytes. */
    static method MakeInitializationKey(random: RandomSource) returns (key: string)
      modifies random
      ensures key == InitializationKey(Hex(Window(random.stream, old(random.drawn), IV_BYTES)))
      ensures |key| == KEY_LENGTH && forall c :: c in key ==> c in ALPHABET
      ensures random.drawn == old(random.drawn) + IV_BYTES
    {
      var iv := random.GenerateRandomBytes(IV_BYTES);
      key := InitializationKey(iv);
    }

    /** `savePluginUserData`: files the record under its own user id. */
    method SavePluginUserData(d: AuthenticatorData)
      modifies plugin`store
      ensures plugin.store == old(plugin.store)[d.GetUserId() := d.Snapshot()]
    {
      plugin.SetDataForId(d.GetUserId(), d);
    }

    /** `deletePluginUserData($id)`. */
    method DeletePluginUserData(id: int)
      modifies plugin`store
      ensures plugin.store == old(plugin.store) - {id}
    {
      plugin.DeleteDataForId(id);
    }

    /** `saveRecoveryCodes`: installs the pool, stamps the issue time and persists. */
    method SaveRecoveryCodes(codes: PhpArray, d: AuthenticatorData, now: int)
      modifies d`recoveryCodes, d`lastRecoveryTime, plugin`store
      ensures d.Snapshot() == old(d.Snapshot()).(recoveryCodes := codes, lastRecoveryTime := now)
      ensures plugin.store == old(plugin.store)[d.GetUserId() := d.Snapshot()]
    {
      d.SetRecoveryCodes(codes);
      d.SetLastRecoveryTime(now);
      SavePluginUserData(d);
    }

    /** `pickRecoveryCode`, as `Pick` describes it, persisting the pool it leaves. */
    method PickRecoveryCode(d: AuthenticatorData, now: int) returns (r: Result<Code, PickError>)
      modifies d`recoveryCodes, d`lastRecoveryTime, plugin`store, random
      ensures r == PickEffect(old(d.Snapshot()), old(plugin.store), old(random.drawn), random.stream, now).0
      ensures d.Snapshot() == PickEffect(old(d.Snapshot()), old(plugin.store), old(random.drawn), random.stream, now).1
      ensures plugin.store == PickEffect(old(d.Snapshot()), old(plugin.store), old(random.drawn), random.stream, now).2
      ensures random.drawn == PickEffect(old(d.Snapshot()), old(plugin.store), old(random.drawn), random.stream, now).3
    {
      var recoveryTime := d.lastRecoveryTime;
      var codes := d.recoveryCodes;
      var numCodes := |codes|;
      if numCodes > 0 {
        var code := Last(codes);
        SaveRecoveryCodes(DropLast(codes), d, now);
        return Ok(code);
      }
      if recoveryTime == 0 || (now - recoveryTime >= RECOVERY_GRACE_TIME && numCodes == 0) {
        codes := GenerateRecoveryCodes(random);
        var code := Last(codes);
        SaveRecoveryCodes(DropLast(codes), d, now);
        return Ok(code);
      }
      return Err(NoRecoveryCodes);
    }

    /**
     * `useRecoveryCode`: on a strict match the first matching code is removed, the rest
     * reindexed, the issue time stamped and the record persisted; otherwise nothing happens.
     */
    method UseRecoveryCode(d: AuthenticatorData, code: Code, now: int) returns (used: bool)
      modifies d`recoveryCodes, d`lastRecoveryTime, plugin`store
      ensures used <==> code in Values(old(d.recoveryCodes))
      ensures used ==>
        d.Snapshot() == old(d.Snapshot()).(recoveryCodes := ConsumeFirst(old(d.recoveryCodes), code).value,
                                           lastRecoveryTime := now)
        && plugin.store == old(plugin.store)[d.GetUserId() := d.Snapshot()]
      ensures !used ==>
        d.Snapshot() == old(d.Snapshot()) && plugin.store == old(plugin.store)
    {
      var codes := d.recoveryCodes;
      var usedKey := Search(codes, code);
      if usedKey.Some? {
        SaveRecoveryCodes(FromList(Values(Unset(codes, usedKey.value))), d, now);
        return true;
      }
      return false;
    }
  }
}
