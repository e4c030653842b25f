/**
 * Recovery-code pools, shared by the three revisions: how a pool of ten codes is drawn,
 * and how a code is consumed by the current revision and by `ActionController.php`
 * (first strict match removed, the rest reindexed in order).
 */
module RecoveryCodes {
  import opened Wrappers
  import opened Php
  import opened Randomness

  /** Codes per pool: the do-while loop runs for i = 1 .. 10. */
  const RECOVERY_CODE_COUNT: nat := 10
  /** Random bytes per code. */
  const RECOVERY_CODE_BYTES: nat := 10
  /** The `strlen($pin) === 20` test that routes a pin to the recovery-code check. */
  const RECOVERY_CODE_LENGTH: nat := 20
  /** `Plugin::RECOVERY_GRACE_TIME`: seconds before an exhausted pool may be regenerated. */
  const RECOVERY_GRACE_TIME: int := 86400

  /** The first k codes drawn from the stream starting at position `from`. */
  function FreshCodes(stream: nat -> Byte, from: nat, k: nat): (codes: seq<Code>)
    ensures |codes| == k
    ensures forall i :: 0 <= i < k ==>
      codes[i] == Hex(Window(stream, from + 10 * i, RECOVERY_CODE_BYTES))
    ensures forall i :: 0 <= i < k ==> |codes[i]| == RECOVERY_CODE_LENGTH
  {
    if k == 0 then []
    else FreshCodes(stream, from, k - 1)
         + [Hex(Window(stream, from + 10 * (k - 1), RECOVERY_CODE_BYTES))]
  }

  /** The pool `generateRecoveryCodes()` returns when the stream is at position `from`. */
  function FreshPool(stream: nat -> Byte, from: nat): (pool: PhpArray)
    ensures |pool| == RECOVERY_CODE_COUNT && IsList(pool)
    ensures forall i :: 0 <= i < |pool| ==> |pool[i].value| == RECOVERY_CODE_LENGTH
  {
    FromList(FreshCodes(stream, from, RECOVERY_CODE_COUNT))
  }

  /**
   * `generateRecoveryCodes()`: appends `generateRandomBytes(10)` once per pass of a
   * do-while loop that starts from `$i = 1`, increments `$i` at the end of each pass and
   * repeats while `$i <= 10`: ten passes.
   */
  method GenerateRecoveryCodes(random: RandomSource) returns (codes: PhpArray)
    modifies random
    ensures codes == FreshPool(random.stream, old(random.drawn))
    ensures random.drawn == old(random.drawn) + 100
  {
    var list: seq<Code> := [];
    var i := 1;
    while true
      invariant 1 <= i <= 10
      invariant list == FreshCodes(random.stream, old(random.drawn), i - 1)
      invariant random.drawn == old(random.drawn) + 10 * (i - 1)
      decreases 10 - i
    {
      ghost var at := random.drawn;
      var code := random.GenerateRandomBytes(RECOVERY_CODE_BYTES);
      assert code == Hex(Window(random.stream, at, RECOVERY_CODE_BYTES));
      assert FreshCodes(random.stream, old(random.drawn), i) == list + [code];
      list := list + [code];
      i := i + 1;
      if !(i <= 10) {
        break;
      }
    }
    codes := FromList(list);
  }

  /** The values without the one at position i. */
  function RemoveAt(vs: seq<Code>, i: nat): (r: seq<Code>)
    requires i < |vs|
    ensures |r| == |vs| - 1
    ensures multiset(r) + multiset{vs[i]} == multiset(vs)
  {
    assert vs == vs[..i] + [vs[i]] + vs[i + 1..];
    vs[..i] + vs[i + 1..]
  }

  lemma {:induction false} ValuesSlices(a: PhpArray, i: nat)
    requires i < |a|
    ensures Values(a[..i] + a[i + 1..]) == Values(a)[..i] + Values(a)[i + 1..]
  {
    ValuesConcat(a[..i], a[i + 1..]);
  }

  /**
   * Consuming a code as the current revision and `ActionController.php` do: the key of
   * the first strict match is searched, the entry under it removed and the rest reindexed
   * (`array_values`). None when no entry matches.
   */
  function ConsumeFirst(pool: PhpArray, code: Code): (r: Option<PhpArray>)
    ensures r.None? <==> code !in Values(pool)
    ensures r.Some? ==>
      IsList(r.value) && Values(r.value) == RemoveAt(Values(pool), IndexOf(Values(pool), code).value)
  {
    match Search(pool, code)
    case None => None
    case Some(key) =>
      var i := IndexOf(Values(pool), code).value;
      UnsetAt(pool, i);
      ValuesSlices(pool, i);
      Some(FromList(Values(Unset(pool, key))))
  }

  /**
   * A consumed code leaves exactly one entry fewer: the first match is gone, every other
   * code stays, in order, with its multiplicity.
   */
  lemma {:induction false} ConsumeRemovesOne(pool: PhpArray, code: Code)
    requires code in Values(pool)
    ensures ConsumeFirst(pool, code).Some?
    ensures |ConsumeFirst(pool, code).value| == |pool| - 1
    ensures multiset(Values(ConsumeFirst(pool, code).value)) + multiset{code}
            == multiset(Values(pool))
  {
    var i := IndexOf(Values(pool), code).value;
    assert Values(pool)[i] == code;
  }

  /** In a pool without duplicates, a removed code is no longer there. */
  lemma {:induction false} RemoveAtGone(vs: seq<Code>, i: nat)
    requires i < |vs| && NoDuplicates(vs)
    ensures vs[i] !in RemoveAt(vs, i)
    ensures NoDuplicates(RemoveAt(vs, i))
  {
    var r := RemoveAt(vs, i);
    forall j | 0 <= j < |r| ensures r[j] != vs[i] {
      if j < i {
        assert r[j] == vs[j];
      } else {
        assert r[j] == vs[j + 1];
      }
    }
    forall j, k | 0 <= j < k < |r| ensures r[j] != r[k] {
      var j' := if j < i then j else j + 1;
      var k' := if k < i then k else k + 1;
      assert r[j] == vs[j'] && r[k] == vs[k'];
    }
  }

  /** Replaying a consumed code against a pool without duplicates fails. */
  lemma {:induction false} ConsumeReplayRejected(pool: PhpArray, code: Code)
    requires NoDuplicates(Values(pool)) && code in Values(pool)
    ensures ConsumeFirst(ConsumeFirst(pool, code).value, code).None?
    ensures NoDuplicates(Values(ConsumeFirst(pool, code).value))
  {
    var i := IndexOf(Values(pool), code).value;
    RemoveAtGone(Values(pool), i);
  }

  /** `array_pop` on a pool without duplicates: the popped code is not among the rest. */
  lemma {:induction false} PoppedCodeGone(pool: PhpArray)
    requires |pool| > 0 && NoDuplicates(Values(pool))
    ensures Last(pool) !in Values(DropLast(pool))
    ensures NoDuplicates(Values(DropLast(pool)))
    ensures ConsumeFirst(DropLast(pool), Last(pool)).None?
  {
    var vs := Values(pool);
    var n := |pool| - 1;
    assert Values(DropLast(pool)) == vs[..n];
    assert vs[..n] == RemoveAt(vs, n);
    RemoveAtGone(vs, n);
  }
}
