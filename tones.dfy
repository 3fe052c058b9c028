/**
 * The `Tones` table of dtmf.js and the order in which `for (let k in Tones)`
 * visits its keys.  The table has the twelve keys of a telephone keypad
 * (no A to D); the pairs are the row and column frequencies of ITU-T
 * Recommendation Q.23.
 */
module Tones {
  /** The low-group (row) and high-group (column) frequency of a key, in Hz. */
  datatype Pair = Pair(low: nat, high: nat)

  const RowFrequencies: seq<nat> := [697, 770, 852, 941]
  const ColumnFrequencies: seq<nat> := [1209, 1336, 1477]

  /** The keypad, row by row, as the table lays it out. */
  const Keypad: seq<seq<string>> := [["1", "2", "3"], ["4", "5", "6"], ["7", "8", "9"], ["*", "0", "#"]]

  /** The object literal `Tones`, property by property in source order. */
  const Literal: seq<(string, Pair)> := [
    ("1", Pair(697, 1209)), ("2", Pair(697, 1336)), ("3", Pair(697, 1477)),
    ("4", Pair(770, 1209)), ("5", Pair(770, 1336)), ("6", Pair(770, 1477)),
    ("7", Pair(852, 1209)), ("8", Pair(852, 1336)), ("9", Pair(852, 1477)),
    ("*", Pair(941, 1209)), ("0", Pair(941, 1336)), ("#", Pair(941, 1477))
  ]

  /** The property names of the literal, in insertion order. */
  function LiteralKeys(): (r: seq<string>)
    ensures |r| == |Literal|
    ensures forall i :: 0 <= i < |Literal| ==> r[i] == Literal[i].0
  {
    seq(|Literal|, i requires 0 <= i < |Literal| => Literal[i].0)
  }

  /** The table as a dictionary from key to frequency pair. */
  function Table(): map<string, Pair>
  {
    map i | 0 <= i < |Literal| :: Literal[i].0 := Literal[i].1
  }

  /** The set of keys of the table. */
  function KeySet(): set<string>
  {
    Table().Keys
  }

  // ---------------------------------------------------------------------------
  // for-in order (OrdinaryOwnPropertyKeys, section 10.1.11.1 of ECMA-262):
  // array-index keys in ascending numeric order, then the other string keys
  // in insertion order.

  predicate IsDigit(c: char)
  {
    '0' <= c <= '9'
  }

  /** The decimal value of a string of digits. */
  function DecimalValue(s: string): nat
    requires forall i :: 0 <= i < |s| ==> IsDigit(s[i])
  {
    if s == [] then 0
    else
      assert IsDigit(s[|s| - 1]);
      10 * DecimalValue(s[..|s| - 1]) + (s[|s| - 1] - '0') as int
  }

  /** A canonical decimal string of an integer below 2^32 - 1. */
  predicate IsArrayIndex(k: string)
  {
    && |k| > 0
    && (forall i :: 0 <= i < |k| ==> IsDigit(k[i]))
    && (k[0] != '0' || |k| == 1)
    && DecimalValue(k) < 0xFFFF_FFFF
  }

  /** The numeric value of an array-index key. */
  function IndexValue(k: string): nat
    requires IsArrayIndex(k)
  {
    DecimalValue(k)
  }

  /**
   * `order` is the order in which for-in visits an object whose properties
   * were created in the order `keys` (all distinct): the same keys, every
   * array index before every other key, the array indices ascending, the
   * other keys in creation order.
   */
  predicate IsForInOrder(keys: seq<string>, order: seq<string>)
  {
    && multiset(order) == multiset(keys)
    && (forall i, j :: 0 <= i < j < |order| && IsArrayIndex(order[j]) ==> IsArrayIndex(order[i]))
    && (forall i, j :: 0 <= i < j < |order| && IsArrayIndex(order[i]) && IsArrayIndex(order[j]) ==>
          IndexValue(order[i]) < IndexValue(order[j]))
    && (forall i, j :: 0 <= i < j < |order| && !IsArrayIndex(order[i]) && !IsArrayIndex(order[j]) ==>
          exists p, q :: 0 <= p < q < |keys| && keys[p] == order[i] && keys[q] == order[j])
  }

  /** The order of `for (let k in Tones)`: "0" to "9", then "*" and "#". */
  const KeyOrder: seq<string> := ["0", "1", "2", "3", "4", "5", "6", "7", "8", "9", "*", "#"]

  /** A one-digit key is an array index whose value is the digit. */
  lemma DigitKey(k: string, d: nat)
    requires |k| == 1 && IsDigit(k[0]) && (k[0] - '0') as int == d
    ensures IsArrayIndex(k) && IndexValue(k) == d
  {
    assert k[..|k| - 1] == [];
    assert DecimalValue(k[..|k| - 1]) == 0;
    assert DecimalValue(k) == 10 * 0 + (k[0] - '0') as int;
  }

  /** The first ten keys of KeyOrder are the array indices 0 to 9; "*" and "#" are not array indices. */
  lemma KeyOrderIndices()
    ensures forall i :: 0 <= i < |KeyOrder| ==> (IsArrayIndex(KeyOrder[i]) <==> i < 10)
    ensures forall i :: 0 <= i < 10 ==> IndexValue(KeyOrder[i]) == i
  {
    DigitKey("0", 0); DigitKey("1", 1); DigitKey("2", 2); DigitKey("3", 3); DigitKey("4", 4);
    DigitKey("5", 5); DigitKey("6", 6); DigitKey("7", 7); DigitKey("8", 8); DigitKey("9", 9);
    assert !IsDigit(KeyOrder[10][0]) && !IsDigit(KeyOrder[11][0]);
  }

  /** The literal's keys in source order. */
  lemma LiteralKeysValue()
    ensures LiteralKeys() == ["1", "2", "3", "4", "5", "6", "7", "8", "9", "*", "0", "#"]
  {
  }

  /** Moving one element of a sequence forward keeps the multiset of its elements. */
  lemma MoveForward<T>(a: seq<T>, x: T, y: T, z: T)
    ensures multiset([x] + a + [y] + [z]) == multiset(a + [y] + [x] + [z])
  {
  }

  /** The keys "*" and "#" keep their creation order. */
  lemma OtherKeysKept()
    ensures forall i, j :: 0 <= i < j < |KeyOrder| && !IsArrayIndex(KeyOrder[i]) && !IsArrayIndex(KeyOrder[j]) ==>
              exists p, q :: 0 <= p < q < |LiteralKeys()| && LiteralKeys()[p] == KeyOrder[i] && LiteralKeys()[q] == KeyOrder[j]
  {
    var keys := LiteralKeys();
    LiteralKeysValue();
    KeyOrderIndices();
    forall i, j | 0 <= i < j < |KeyOrder| && !IsArrayIndex(KeyOrder[i]) && !IsArrayIndex(KeyOrder[j])
      ensures exists p, q :: 0 <= p < q < |keys| && keys[p] == KeyOrder[i] && keys[q] == KeyOrder[j]
    {
      assert i >= 10 && j >= 10;
      assert keys[9] == KeyOrder[i] && keys[11] == KeyOrder[j];
    }
  }

  /** KeyOrder holds the literal's keys, each once. */
  lemma KeyOrderPermutation()
    ensures multiset(KeyOrder) == multiset(LiteralKeys())
  {
    LiteralKeysValue();
    var digits: seq<string> := ["1", "2", "3", "4", "5", "6", "7", "8", "9"];
    assert KeyOrder == ["0"] + digits + ["*"] + ["#"] by {}
    assert LiteralKeys() == digits + ["*"] + ["0"] + ["#"] by {}
    MoveForward(digits, "0", "*", "#");
  }

  /** In KeyOrder the array indices come first, in ascending order. */
  lemma IndicesFirstAscending()
    ensures forall i, j :: 0 <= i < j < |KeyOrder| && IsArrayIndex(KeyOrder[j]) ==> IsArrayIndex(KeyOrder[i])
    ensures forall i, j :: 0 <= i < j < |KeyOrder| && IsArrayIndex(KeyOrder[i]) && IsArrayIndex(KeyOrder[j]) ==>
              IndexValue(KeyOrder[i]) < IndexValue(KeyOrder[j])
  {
    KeyOrderIndices();
  }

  /** KeyOrder is the for-in order of the literal's keys. */
  lemma ToneKeyOrder()
    ensures IsForInOrder(LiteralKeys(), KeyOrder)
  {
    KeyOrderPermutation();
    IndicesFirstAscending();
    OtherKeysKept();
  }

  // ---------------------------------------------------------------------------
  // The table itself

  /** The table's keys are the property names of the literal. */
  lemma TableKeysLiteral()
    ensures forall k :: k in Table() <==> k in LiteralKeys()
  {
    forall k | k in Table() ensures k in LiteralKeys() {
      var i :| 0 <= i < |Literal| && Literal[i].0 == k;
      assert LiteralKeys()[i] == k;
    }
    forall k | k in LiteralKeys() ensures k in Table() {
      var i :| 0 <= i < |LiteralKeys()| && LiteralKeys()[i] == k;
      assert Literal[i].0 == k;
    }
  }

  /** The table has one entry per key of KeyOrder, and no other. */
  lemma TableKeys()
    ensures forall k :: k in Table() <==> k in KeyOrder
    ensures |KeyOrder| == 12
  {
    TableKeysLiteral();
    KeyOrderPermutation();
    forall k ensures k in LiteralKeys() <==> k in KeyOrder {
      calc {
        k in LiteralKeys();
        k in multiset(LiteralKeys());
        k in multiset(KeyOrder);
        k in KeyOrder;
      }
    }
  }

  /** The table maps every property name of the literal to that property's value. */
  lemma LiteralEntry(i: int)
    requires 0 <= i < |Literal|
    ensures Literal[i].0 in Table() && Table()[Literal[i].0] == Literal[i].1
  {
  }

  /** The key at row r and column c of the keypad sounds row r's and column c's frequencies. */
  lemma KeypadEntry(r: int, c: int)
    requires 0 <= r < 4 && 0 <= c < 3
    ensures Keypad[r][c] in Table() && Table()[Keypad[r][c]] == Pair(RowFrequencies[r], ColumnFrequencies[c])
  {
    var i := 3 * r + c;
    assert Literal[i].0 == Keypad[r][c] && Literal[i].1 == Pair(RowFrequencies[r], ColumnFrequencies[c]) by {
      if r == 0 {} else if r == 1 {} else if r == 2 {} else {}
    }
    LiteralEntry(i);
  }

  /** Each key's pair is the frequency of its keypad row and of its keypad column (ITU-T Q.23). */
  lemma TableFollowsKeypad()
    ensures forall r, c :: 0 <= r < 4 && 0 <= c < 3 ==> Keypad[r][c] in Table()
    ensures forall r, c :: 0 <= r < 4 && 0 <= c < 3 ==> Table()[Keypad[r][c]] == Pair(RowFrequencies[r], ColumnFrequencies[c])
  {
    forall r, c | 0 <= r < 4 && 0 <= c < 3 ensures Keypad[r][c] in Table() {
      KeypadEntry(r, c);
    }
    forall r, c | 0 <= r < 4 && 0 <= c < 3
      ensures Table()[Keypad[r][c]] == Pair(RowFrequencies[r], ColumnFrequencies[c])
    {
      KeypadEntry(r, c);
    }
  }

  /** No key occurs twice in the for-in order. */
  lemma KeyOrderDistinct()
    ensures forall i, j :: 0 <= i < j < |KeyOrder| ==> KeyOrder[i] != KeyOrder[j]
  {
    KeyOrderIndices();
    forall i, j | 0 <= i < j < |KeyOrder| ensures KeyOrder[i] != KeyOrder[j] {
      if j < 10 {
        assert IndexValue(KeyOrder[i]) != IndexValue(KeyOrder[j]);
      } else if i < 10 {
        assert IsArrayIndex(KeyOrder[i]) && !IsArrayIndex(KeyOrder[j]);
      }
    }
  }
}
