// The sequential hash table: the specification of the concurrent one.
module PhtBase {
  import opened Common

  const HASH_TABLE_CAPACITY: nat := 4096

  datatype Pair = Pair(key: string, value: Word)

  // A bucket is its list of pairs, head first.
  type Table = seq<seq<Pair>>

  // bernstein_hash on 32 bits, from the last character on.
  function Hash(key: string): Word
    decreases |key|
  {
    if |key| == 0 then 0 else (33 * Hash(key[..|key| - 1]) + key[|key| - 1] as int) % 0x1_0000_0000
  }

  function Power33(n: nat): nat { if n == 0 then 1 else 33 * Power33(n - 1) }

  // The characters as the digits of a number to the base 33, first digit first.
  function Digits33(key: string): nat {
    if |key| == 0 then 0 else key[0] as int * Power33(|key| - 1) + Digits33(key[1..])
  }

  lemma OnePlaceUp(c: nat, n: nat, d: nat, e: nat, last: nat)
    requires n > 0 && d == 33 * e + last
    ensures c * Power33(n) + d == 33 * (c * Power33(n - 1) + e) + last
  {
    assert c * Power33(n) == 33 * (c * Power33(n - 1));
  }

  lemma {:induction false} DigitsAppend(key: string)
    requires |key| > 0
    ensures Digits33(key) == 33 * Digits33(key[..|key| - 1]) + key[|key| - 1] as int
  {
    var n := |key| - 1;
    if n > 0 {
      DigitsAppend(key[1..]);
      assert key[1..][..n - 1] == key[..n][1..] && key[1..][n - 1] == key[n] && key[..n][0] == key[0];
      OnePlaceUp(key[0] as int, n, Digits33(key[1..]), Digits33(key[..n][1..]), key[n] as int);
    }
  }

  lemma WrapLate(n: nat, c: nat)
    ensures (33 * (n % 0x1_0000_0000) + c) % 0x1_0000_0000 == (33 * n + c) % 0x1_0000_0000
  {
    var q := n / 0x1_0000_0000;
    assert 33 * n + c == 33 * (n % 0x1_0000_0000) + c + 0x1_0000_0000 * (33 * q);
  }

  // The loop computes the whole number modulo 2^32, whatever wraps around on the way.
  lemma {:induction false} HashIsNumber(key: string)
    ensures Hash(key) == Digits33(key) % 0x1_0000_0000
  {
    if |key| > 0 {
      HashIsNumber(key[..|key| - 1]);
      DigitsAppend(key);
      WrapLate(Digits33(key[..|key| - 1]), key[|key| - 1] as int);
    }
  }

  method BernsteinHash(key: string) returns (hash: Word)
    ensures hash == Digits33(key) % 0x1_0000_0000
  {
    hash := 0;
    var i := 0;
    while i < |key|
      invariant 0 <= i <= |key| && hash == Hash(key[..i])
    {
      assert key[..i + 1][..i] == key[..i];
      hash := (33 * hash + key[i] as int) % 0x1_0000_0000;
      i := i + 1;
    }
    assert key[..i] == key;
    HashIsNumber(key);
  }

  function Index(key: string): (b: int)
    ensures 0 <= b < HASH_TABLE_CAPACITY
  {
    Hash(key) % HASH_TABLE_CAPACITY
  }

  ghost predicate TableSized(t: Table) { |t| == HASH_TABLE_CAPACITY }

  function Empty(): (t: Table)
    ensures TableSized(t) && forall b :: 0 <= b < HASH_TABLE_CAPACITY ==> t[b] == []
  {
    seq(HASH_TABLE_CAPACITY, _ => [])
  }

  // ---------------------------------------------------------------- one bucket

  // get_list_entry: the first pair with the key, or the length of the list.
  function FindIn(l: seq<Pair>, k: string): (i: nat)
    ensures i <= |l| && (i < |l| ==> l[i].key == k) && forall j :: 0 <= j < i ==> l[j].key != k
  {
    if |l| == 0 || l[0].key == k then 0 else 1 + FindIn(l[1..], k)
  }

  predicate Has(l: seq<Pair>, k: string) { FindIn(l, k) < |l| }

  // Overwrite the value of an existing key, or insert at the head.
  function AddTo(l: seq<Pair>, k: string, v: Word): seq<Pair> {
    if Has(l, k) then l[FindIn(l, k) := Pair(l[FindIn(l, k)].key, v)] else [Pair(k, v)] + l
  }

  // ---------------------------------------------------------------- the table

  function AddEntry(t: Table, k: string, v: Word): (t': Table)
    requires TableSized(t)
    ensures TableSized(t')
  {
    t[Index(k) := AddTo(t[Index(k)], k, v)]
  }

  predicate Contains(t: Table, k: string)
    requires TableSized(t)
  {
    Has(t[Index(k)], k)
  }

  // The value of a key; the code asserts that the key is there.
  function GetValue(t: Table, k: string): Word
    requires TableSized(t) && Contains(t, k)
  {
    t[Index(k)][FindIn(t[Index(k)], k)].value
  }

  // Each key occurs once, and in its own bucket.
  ghost predicate WellPlaced(t: Table) {
    && TableSized(t)
    && forall b, i :: 0 <= b < |t| && 0 <= i < |t[b]| ==>
      Index(t[b][i].key) == b && FindIn(t[b], t[b][i].key) == i
  }

  lemma {:induction false} SameKeys(l: seq<Pair>, l': seq<Pair>, k: string)
    requires |l'| == |l| && forall j :: 0 <= j < |l| ==> l'[j].key == l[j].key
    ensures FindIn(l', k) == FindIn(l, k)
  {
    if |l| > 0 && l[0].key != k { SameKeys(l[1..], l'[1..], k); }
  }

  lemma {:induction false} AddedPlace(l: seq<Pair>, k: string, v: Word, i: int)
    requires forall j :: 0 <= j < |l| ==> FindIn(l, l[j].key) == j
    requires 0 <= i < |AddTo(l, k, v)|
    ensures FindIn(AddTo(l, k, v), AddTo(l, k, v)[i].key) == i
    ensures AddTo(l, k, v)[i].key == k || (exists j :: 0 <= j < |l| && l[j].key == AddTo(l, k, v)[i].key)
  {
    var l' := AddTo(l, k, v);
    if Has(l, k) {
      assert l'[i].key == l[i].key;
      SameKeys(l, l', l'[i].key);
    } else if i > 0 {
      assert l'[1..] == l && l[i - 1].key == l'[i].key;
      assert FindIn(l, l[i - 1].key) == i - 1;
    }
  }

  lemma AddKeepsPlaces(t: Table, k: string, v: Word)
    requires WellPlaced(t)
    ensures WellPlaced(AddEntry(t, k, v))
  {
    var t': Table := AddEntry(t, k, v);
    var c := Index(k);
    forall b: int, i: int | 0 <= b < |t'| && 0 <= i < |t'[b]|
      ensures Index(t'[b][i].key) == b && FindIn(t'[b], t'[b][i].key) == i
    {
      if b == c {
        AddedPlace(t[c], k, v, i);
      }
    }
  }

  lemma {:induction false} AddedFind(l: seq<Pair>, k: string, v: Word, k': string)
    ensures Has(AddTo(l, k, v), k') <==> k' == k || Has(l, k')
    ensures Has(AddTo(l, k, v), k') ==>
      AddTo(l, k, v)[FindIn(AddTo(l, k, v), k')].value == if k' == k then v else l[FindIn(l, k')].value
  {
    var l' := AddTo(l, k, v);
    if Has(l, k) {
      SameKeys(l, l', k');
      SameKeys(l, l', k);
    } else {
      assert l'[1..] == l;
    }
  }

  // The table is a map: an add sets its own key and leaves every other alone.
  lemma AddIsMapUpdate(t: Table, k: string, v: Word, k': string)
    requires TableSized(t)
    ensures Contains(AddEntry(t, k, v), k') <==> k' == k || Contains(t, k')
    ensures Contains(AddEntry(t, k, v), k') ==>
      GetValue(AddEntry(t, k, v), k') == if k' == k then v else GetValue(t, k')
  {
    var l := t[Index(k)];
    if Index(k') == Index(k) {
      AddedFind(l, k, v, k');
    }
  }

  // ---------------------------------------------------------------- many adds

  function AddAll(log: seq<Pair>): (t: Table)
    ensures TableSized(t)
  {
    if |log| == 0 then Empty() else AddEntry(AddAll(log[..|log| - 1]), log[|log| - 1].key, log[|log| - 1].value)
  }

  lemma {:induction false} AddAllStep(log: seq<Pair>, k: string, v: Word)
    ensures AddAll(log + [Pair(k, v)]) == AddEntry(AddAll(log), k, v)
  {
    assert (log + [Pair(k, v)])[..|log|] == log;
  }

  lemma {:induction false} AddAllPlaced(log: seq<Pair>)
    ensures WellPlaced(AddAll(log))
  {
    if |log| > 0 {
      AddAllPlaced(log[..|log| - 1]);
      AddKeepsPlaces(AddAll(log[..|log| - 1]), log[|log| - 1].key, log[|log| - 1].value);
    }
  }

  // A key is in the table if and only if it has been added.
  lemma {:induction false} AddAllContains(log: seq<Pair>, k: string)
    ensures Contains(AddAll(log), k) <==> exists a :: 0 <= a < |log| && log[a].key == k
  {
    if |log| > 0 {
      var n := |log| - 1;
      AddAllContains(log[..n], k);
      AddIsMapUpdate(AddAll(log[..n]), log[n].key, log[n].value, k);
      forall a | 0 <= a < n ensures log[..n][a] == log[a] {
      }
    }
  }

  // ---------------------------------------------------------------- in place

  class HashTableBase {
    const buckets: array<seq<Pair>>

    ghost predicate Valid()
      reads buckets
    {
      TableSized(buckets[..])
    }

    constructor ()
      ensures Valid() && fresh(buckets) && buckets[..] == Empty()
    {
      buckets := new seq<Pair>[HASH_TABLE_CAPACITY](_ => []);
      new;
      assert buckets[..] == Empty();
    }

    method ListEntry(b: int, k: string) returns (i: nat)
      requires Valid() && 0 <= b < HASH_TABLE_CAPACITY
      ensures i == FindIn(buckets[b], k)
    {
      i := 0;
      while i < |buckets[b]|
        invariant 0 <= i <= |buckets[b]|
        invariant FindIn(buckets[b], k) == i + FindIn(buckets[b][i..], k)
      {
        if buckets[b][i].key == k { return; }
        assert buckets[b][i..][1..] == buckets[b][i + 1..];
        i := i + 1;
      }
    }

    method Add(k: string, v: Word)
      requires Valid()
      modifies buckets
      ensures Valid() && buckets[..] == AddEntry(old(buckets[..]), k, v)
    {
      var b := Index(k);
      var i := ListEntry(b, k);
      if i < |buckets[b]| {
        buckets[b] := buckets[b][i := Pair(buckets[b][i].key, v)];
      } else {
        buckets[b] := [Pair(k, v)] + buckets[b];
      }
      assert buckets[..] == old(buckets[..])[b := AddTo(old(buckets[b]), k, v)];
    }

    method ContainsKey(k: string) returns (r: bool)
      requires Valid()
      ensures r <==> Contains(buckets[..], k)
    {
      var i := ListEntry(Index(k), k);
      r := i < |buckets[Index(k)]|;
    }

    // False in place of the failed assertion.
    method Value(k: string) returns (found: bool, v: Word)
      requires Valid()
      ensures found <==> Contains(buckets[..], k)
      ensures found ==> v == GetValue(buckets[..], k)
    {
      var i := ListEntry(Index(k), k);
      if i < |buckets[Index(k)]| { return true, buckets[Index(k)][i].value; }
      return false, 0;
    }
  }
}
