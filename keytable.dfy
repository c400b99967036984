/**
 * The frequency table's key set and the order in which `Object.keys`
 * enumerates a registry whose keys are drawn from it.
 *
 * Frequencies themselves are left out: a key code is valid exactly when it
 * is a key of the table (every frequency is a non-zero number, so the
 * truthiness test of the source is a membership test).
 */
module KeyTable {

  /** A key code as the source uses it: the decimal text of a key number. */
  type KeyCode = string

  function Digit(c: char): int { c as int - '0' as int }

  /** A canonical two-digit numeric string: the shape of every table key. */
  predicate IsTwoDigitCode(s: string) {
    |s| == 2 && '1' <= s[0] <= '9' && '0' <= s[1] <= '9'
  }

  /** The number a two-digit key code denotes. */
  function CodeValue(s: string): (n: nat)
    requires IsTwoDigitCode(s)
    ensures 10 <= n < 100
  {
    10 * Digit(s[0]) + Digit(s[1])
  }

  /** The decimal text of a two-digit number, as `toString` writes it. */
  function CodeText(v: nat): (s: string)
    requires 10 <= v < 100
    ensures IsTwoDigitCode(s) && CodeValue(s) == v
  {
    [('0' as int + v / 10) as char, ('0' as int + v % 10) as char]
  }

  /** A two-digit code is the text of its own value: codes and numbers correspond one to one. */
  lemma CodeTextOfValue(s: string)
    requires IsTwoDigitCode(s)
    ensures CodeText(CodeValue(s)) == s
  {
    var t := CodeText(CodeValue(s));
    assert t[0] == s[0] && t[1] == s[1];
  }

  /** The key numbers of the frequency table. */
  predicate TableValue(v: int) {
    50 <= v <= 51 || 53 <= v <= 55 || 66 <= v <= 69 || 71 <= v <= 72 ||
    v == 74 || 77 <= v <= 78 || 81 <= v <= 90
  }

  /** `keyboardFrequencyMap[code]` is truthy: the codes for which a press can sound. */
  predicate InTable(k: KeyCode) {
    IsTwoDigitCode(k) && TableValue(CodeValue(k))
  }

  /** The keys of the frequency map, in its declaration order. */
  const FrequencyMapKeys: seq<KeyCode> := [
    "90", "83", "88", "68", "67", "86", "71", "66", "72", "78", "74", "77",
    "81", "50", "87", "51", "69", "82", "53", "84", "54", "89", "55", "85"
  ]

  /** Every key of the frequency map is in the table. */
  lemma FrequencyMapKeysInTable()
    ensures forall n :: 0 <= n < |FrequencyMapKeys| ==> InTable(FrequencyMapKeys[n])
  {
  }

  /** The table values as numbers, in the declaration order of the frequency map. */
  const FrequencyMapValues: seq<int> := [
    90, 83, 88, 68, 67, 86, 71, 66, 72, 78, 74, 77,
    81, 50, 87, 51, 69, 82, 53, 84, 54, 89, 55, 85
  ]

  lemma TableValuesListed(v: int)
    requires TableValue(v)
    ensures v in FrequencyMapValues
  {
  }

  lemma FrequencyMapKeysText(n: nat)
    requires n < |FrequencyMapKeys|
    ensures |FrequencyMapValues| == |FrequencyMapKeys|
    ensures 10 <= FrequencyMapValues[n] < 100
    ensures FrequencyMapKeys[n] == CodeText(FrequencyMapValues[n])
  {
  }

  /** Every table key is a key of the frequency map, so `InTable` is exactly its key set. */
  lemma TableIsFrequencyMapKeys(k: KeyCode)
    ensures InTable(k) <==> k in FrequencyMapKeys
  {
    if InTable(k) {
      var v := CodeValue(k);
      TableValuesListed(v);
      var n :| 0 <= n < |FrequencyMapValues| && FrequencyMapValues[n] == v;
      FrequencyMapKeysText(n);
      CodeTextOfValue(k);
    }
    if k in FrequencyMapKeys {
      FrequencyMapKeysInTable();
    }
  }

  /** Strictly ascending two-digit codes; such a sequence has no duplicates. */
  predicate Ascending(s: seq<KeyCode>) {
    (forall n :: 0 <= n < |s| ==> IsTwoDigitCode(s[n])) &&
    (forall i, j :: 0 <= i < j < |s| ==> CodeValue(s[i]) < CodeValue(s[j]))
  }

  /**
   * The codes of `keys` whose values are `v`, `v + 1`, …, 99, in that
   * order: section 10.1.11.1 of ECMA-262 (OrdinaryOwnPropertyKeys) lists
   * integer-index keys in ascending numeric order.
   */
  function ScanFrom(v: nat, keys: set<KeyCode>): (r: seq<KeyCode>)
    requires 10 <= v <= 100
    ensures forall n :: 0 <= n < |r| ==> IsTwoDigitCode(r[n]) && v <= CodeValue(r[n]) && r[n] in keys
    decreases 100 - v
  {
    if v == 100 then []
    else (if CodeText(v) in keys then [CodeText(v)] else []) + ScanFrom(v + 1, keys)
  }

  /** The scan finds every two-digit code of `keys` from value `v` on. */
  lemma {:induction false} ScanFromFinds(v: nat, keys: set<KeyCode>, x: KeyCode)
    requires 10 <= v <= 100
    requires x in keys && IsTwoDigitCode(x) && v <= CodeValue(x)
    ensures x in ScanFrom(v, keys)
    decreases 100 - v
  {
    var head := if CodeText(v) in keys then [CodeText(v)] else [];
    var tail := ScanFrom(v + 1, keys);
    assert ScanFrom(v, keys) == head + tail;
    if CodeValue(x) == v {
      CodeTextOfValue(x);
      assert x in head;
    } else {
      ScanFromFinds(v + 1, keys, x);
      assert x in tail;
    }
  }

  /** The scan is strictly ascending. */
  lemma {:induction false} ScanFromAscending(v: nat, keys: set<KeyCode>)
    requires 10 <= v <= 100
    ensures Ascending(ScanFrom(v, keys))
    decreases 100 - v
  {
    if v < 100 {
      ScanFromAscending(v + 1, keys);
      var tail := ScanFrom(v + 1, keys);
      if CodeText(v) in keys {
        var r := [CodeText(v)] + tail;
        assert ScanFrom(v, keys) == r;
        forall i, j | 0 <= i < j < |r| ensures CodeValue(r[i]) < CodeValue(r[j]) {
          assert r[j] == tail[j - 1];
          if i > 0 {
            assert r[i] == tail[i - 1];
          } else {
            assert CodeValue(r[i]) == v < v + 1 <= CodeValue(tail[j - 1]);
          }
        }
      }
    }
  }

  /**
   * `Object.keys` of the registry: its two-digit codes in ascending numeric
   * order (every registered code is a table key, hence two-digit).
   */
  function ScanOrder(keys: set<KeyCode>): (r: seq<KeyCode>)
    ensures forall n :: 0 <= n < |r| ==> r[n] in keys && IsTwoDigitCode(r[n])
  {
    ScanFrom(10, keys)
  }

  /** The number of distinct elements of an ascending sequence is its length. */
  lemma {:induction false} AscendingCardinality(s: seq<KeyCode>)
    requires Ascending(s)
    ensures |set x | x in s| == |s|
  {
    if s != [] {
      var rest := s[1..];
      assert Ascending(rest) by {
        forall n | 0 <= n < |rest| ensures rest[n] == s[n + 1] {}
      }
      AscendingCardinality(rest);
      assert s[0] !in rest by {
        forall q | 0 <= q < |rest| ensures rest[q] != s[0] {
          assert rest[q] == s[q + 1];
        }
      }
      assert (set x | x in s) == {s[0]} + (set x | x in rest);
    }
  }

  /**
   * The scan order lists exactly the two-digit codes of the registry,
   * strictly ascending, so a registry of table keys is visited once per
   * key.
   */
  lemma ScanOrderAscending(keys: set<KeyCode>)
    ensures Ascending(ScanOrder(keys))
    ensures forall x :: x in keys && IsTwoDigitCode(x) ==> x in ScanOrder(keys)
    ensures (forall x :: x in keys ==> IsTwoDigitCode(x)) ==> |ScanOrder(keys)| == |keys|
  {
    ScanFromAscending(10, keys);
    var r := ScanOrder(keys);
    forall x | x in keys && IsTwoDigitCode(x) ensures x in r {
      ScanFromFinds(10, keys, x);
    }
    if forall x :: x in keys ==> IsTwoDigitCode(x) {
      AscendingCardinality(r);
      assert (set x | x in r) == keys;
    }
  }
}
