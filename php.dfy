/**
 * The few PHP semantics the plugin relies on: `empty()` on a string, and arrays as
 * ordered maps from keys to values, with the builtins that work on recovery-code
 * pools (`count`, `array_values`, `array_search`, `$a[$k]`, `unset`, `array_pop`).
 * Strings are byte strings in PHP; a Dafny `char` stands for one byte.
 */
module Php {
  import opened Wrappers

  /** A recovery code, a submitted pin or any other PHP string. */
  type Code = string

  /** `empty($s)` for a string: true for "" and for "0", so a pin of one character "0" is empty. */
  predicate Empty(s: string)
    ensures Empty(s) ==> |s| <= 1
    ensures |s| == 1 ==> (Empty(s) <==> s[0] == '0')
  {
    s == "" || s == "0"
  }

  /** One key => value pair of a PHP array. */
  datatype Entry = Entry(key: int, value: Code)

  /** No entry of a has key k. */
  ghost predicate KeyAbsent(a: seq<Entry>, k: int) {
    forall i :: 0 <= i < |a| ==> a[i].key != k
  }

  /** No key occurs twice: the first entry's key is not among the rest, and so on. */
  ghost predicate DistinctKeys(a: seq<Entry>)
    decreases |a|
  {
    a == [] || (KeyAbsent(a[1..], a[0].key) && DistinctKeys(a[1..]))
  }

  /** Distinct keys, entry by entry. */
  lemma {:induction false} DistinctKeysAt(a: seq<Entry>, i: nat, j: nat)
    requires DistinctKeys(a) && i < j < |a|
    ensures a[i].key != a[j].key
  {
    if i == 0 {
      assert a[1..][j - 1] == a[j];
    } else {
      DistinctKeysAt(a[1..], i - 1, j - 1);
    }
  }

  /** Keys that run off, off + 1, ... are distinct. */
  lemma {:induction false} ConsecutiveKeysDistinct(a: seq<Entry>, off: int)
    requires forall i :: 0 <= i < |a| ==> a[i].key == off + i
    ensures DistinctKeys(a)
    decreases |a|
  {
    if a != [] {
      ConsecutiveKeysDistinct(a[1..], off + 1);
    }
  }

  /** A prefix of an array with distinct keys has distinct keys. */
  lemma {:induction false} PrefixDistinct(a: seq<Entry>, n: nat)
    requires DistinctKeys(a) && n <= |a|
    ensures DistinctKeys(a[..n])
    decreases n
  {
    if n > 0 {
      PrefixDistinct(a[1..], n - 1);
      assert a[..n][1..] == a[1..][..n - 1];
    }
  }

  /** A PHP array of strings: entries in insertion order, no key twice. */
  type PhpArray = a: seq<Entry> | DistinctKeys(a) witness []

  /** `array_values($a)`: the values, in order. */
  function Values(a: seq<Entry>): (vs: seq<Code>)
    ensures |vs| == |a|
    ensures forall i :: 0 <= i < |a| ==> vs[i] == a[i].value
  {
    if a == [] then [] else [a[0].value] + Values(a[1..])
  }

  /** The array is a list: its keys are 0, 1, ..., count - 1, in order. */
  predicate IsList(a: seq<Entry>) {
    forall i :: 0 <= i < |a| ==> a[i].key == i
  }

  /** The list PHP builds from the values vs (by `$a[] = v` appends or by `array_values`). */
  function FromList(vs: seq<Code>): (a: PhpArray)
    ensures |a| == |vs| && IsList(a) && Values(a) == vs
  {
    var a := seq(|vs|, i requires 0 <= i < |vs| => Entry(i, vs[i]));
    ConsecutiveKeysDistinct(a, 0);
    a
  }

  /** Position of the first occurrence of x in vs. */
  function IndexOf(vs: seq<Code>, x: Code): (r: Option<nat>)
    ensures r.None? <==> x !in vs
    ensures r.Some? ==> r.value < |vs| && vs[r.value] == x && x !in vs[..r.value]
  {
    if vs == [] then None
    else if vs[0] == x then Some(0)
    else match IndexOf(vs[1..], x)
      case None => None
      case Some(i) =>
        assert vs[..i + 1] == [vs[0]] + vs[1..][..i];
        Some(i + 1)
  }

  /** `array_search($x, $a, true)`: the key of the first entry whose value is x, or false (None). */
  function Search(a: PhpArray, x: Code): (r: Option<int>)
    ensures r.None? <==> x !in Values(a)
    ensures r.Some? ==> IndexOf(Values(a), x).Some? && r.value == a[IndexOf(Values(a), x).value].key
  {
    match IndexOf(Values(a), x)
    case None => None
    case Some(i) => Some(a[i].key)
  }

  /** `$a[$k]`: the value under key k; None is an undefined index, which PHP reads as null. */
  function Get(a: PhpArray, k: int): (r: Option<Code>)
    ensures r.None? <==> forall i :: 0 <= i < |a| ==> a[i].key != k
    ensures forall i :: 0 <= i < |a| && a[i].key == k ==> r == Some(a[i].value)
  {
    if a == [] then None
    else if a[0].key == k then Some(a[0].value)
    else Get(a[1..], k)
  }

  /** `unset($a[$k])`: drops the entry under key k, if there is one; nothing is reindexed. */
  function Unset(a: PhpArray, k: int): (r: PhpArray)
    ensures forall i :: 0 <= i < |r| ==> r[i] in a && r[i].key != k
    ensures |r| <= |a|
  {
    if a == [] then []
    else if a[0].key == k then Unset(a[1..], k)
    else
      var rest := Unset(a[1..], k);
      assert KeyAbsent(rest, a[0].key) by {
        forall i | 0 <= i < |rest| ensures rest[i].key != a[0].key {
          assert rest[i] in a[1..];
        }
      }
      assert ([a[0]] + rest)[1..] == rest;
      [a[0]] + rest
  }

  /** The value `array_pop` returns: the one in the last entry. */
  function Last(a: PhpArray): Code
    requires |a| > 0
  {
    a[|a| - 1].value
  }

  /** The array `array_pop` leaves: all entries but the last, keys untouched. */
  function DropLast(a: PhpArray): (r: PhpArray)
    requires |a| > 0
    ensures |r| == |a| - 1
    ensures Values(a) == Values(r) + [Last(a)]
  {
    PrefixDistinct(a, |a| - 1);
    a[..|a| - 1]
  }

  /** The values have no duplicates. */
  predicate NoDuplicates(vs: seq<Code>) {
    forall i, j :: 0 <= i < j < |vs| ==> vs[i] != vs[j]
  }

  lemma {:induction false} ValuesConcat(a: seq<Entry>, b: seq<Entry>)
    ensures Values(a + b) == Values(a) + Values(b)
  {
  }

  /** Unsetting a key that no entry has leaves the array as it was. */
  lemma {:induction false} UnsetAbsent(a: PhpArray, k: int)
    requires forall i :: 0 <= i < |a| ==> a[i].key != k
    ensures Unset(a, k) == a
  {
    if a != [] {
      UnsetAbsent(a[1..], k);
      assert a == [a[0]] + a[1..];
    }
  }

  /** Unsetting a key the first entry does not have keeps that entry in front. */
  lemma UnsetKeepsHead(a: PhpArray, k: int)
    requires a != [] && a[0].key != k
    ensures Unset(a, k) == [a[0]] + Unset(a[1..], k)
  {
  }

  /** Unsetting the key of entry i removes exactly that entry and keeps the order of the rest. */
  lemma {:induction false} UnsetAt(a: PhpArray, i: nat)
    requires i < |a|
    ensures Unset(a, a[i].key) == a[..i] + a[i + 1..]
  {
    var k := a[i].key;
    if i == 0 {
      UnsetAbsent(a[1..], k);
    } else {
      DistinctKeysAt(a, 0, i);
      var rest: PhpArray := a[1..];
      assert rest[i - 1].key == k;
      calc {
        Unset(a, k);
        { UnsetKeepsHead(a, k); }
        [a[0]] + Unset(rest, k);
        { UnsetAt(rest, i - 1); }
        [a[0]] + (rest[..i - 1] + rest[i..]);
        { assert a[..i] == [a[0]] + rest[..i - 1]; }
        a[..i] + rest[i..];
        { assert a[i + 1..] == rest[i..]; }
        a[..i] + a[i + 1..];
      }
    }
  }
}
