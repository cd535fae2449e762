/**
 The chained hash: an array of buckets whose length is one of a table of primes.

 Keys that are equal for the hash's equality are one and the same number here; the value 0 is the null pointer.
 */
module Hash {
  import opened Machine
  import opened Ring

  type Key = nat
  type Value = nat
  datatype Entry = Entry(key: Key, value: Value)
  type Chain = seq<Entry>

  const TABLE_SIZE: nat := 60

  // `hash_primes`
  function Prime(i: nat): nat
    requires i < TABLE_SIZE
  {
    if i == 0 then 13 else if i == 1 then 31 else if i == 2 then 61 else if i == 3 then 127 else
    if i == 4 then 251 else if i == 5 then 509 else if i == 6 then 1021 else if i == 7 then 2039 else
    if i == 8 then 4093 else if i == 9 then 8191 else if i == 10 then 16381 else if i == 11 then 32749 else
    if i == 12 then 65521 else if i == 13 then 131071 else if i == 14 then 262139 else if i == 15 then 524287 else
    if i == 16 then 1048573 else if i == 17 then 2097143 else if i == 18 then 4194301 else
    if i == 19 then 8388593 else if i == 20 then 16777213 else if i == 21 then 33554393 else
    if i == 22 then 67108859 else if i == 23 then 134217689 else if i == 24 then 268435399 else
    if i == 25 then 536870909 else if i == 26 then 1073741789 else if i == 27 then 2147483647 else
    if i == 28 then 4294967295 else if i == 29 then 8589934591 else if i == 30 then 17179869183 else
    if i == 31 then 34359738367 else if i == 32 then 68719476735 else if i == 33 then 137438953471 else
    if i == 34 then 274877906943 else if i == 35 then 549755813887 else if i == 36 then 1099511627775 else
    if i == 37 then 2199023255551 else if i == 38 then 4398046511103 else if i == 39 then 8796093022207 else
    if i == 40 then 17592186044415 else if i == 41 then 35184372088831 else if i == 42 then 70368744177663 else
    if i == 43 then 140737488355327 else if i == 44 then 281474976710655 else if i == 45 then 562949953421311 else
    if i == 46 then 1125899906842623 else if i == 47 then 2251799813685247 else if i == 48 then 4503599627370495 else
    if i == 49 then 9007199254740991 else if i == 50 then 18014398509481983 else
    if i == 51 then 36028797018963967 else if i == 52 then 72057594037927935 else
    if i == 53 then 144115188075855871 else if i == 54 then 288230376151711743 else
    if i == 55 then 576460752303423487 else if i == 56 then 1152921504606846975 else
    if i == 57 then 2305843009213693949 else if i == 58 then 4611686018427387903 else 9223372036854775807
  }

  // They grow.
  lemma PrimesGrow(i: nat)
    requires i < TABLE_SIZE
    ensures 13 <= Prime(i) < WORD
    ensures i + 1 < TABLE_SIZE ==> Prime(i) + 2 <= Prime(i + 1)
  {
  }

  // ----- Chains -----

  function Lookup(chain: Chain, key: Key): Option<Value> {
    if chain == [] then None
    else if chain[0].key == key then Some(chain[0].value)
    else Lookup(chain[1..], key)
  }

  ghost predicate Distinct(chain: Chain) {
    forall i, j :: 0 <= i < j < |chain| ==> chain[i].key != chain[j].key
  }

  lemma {:induction false} LookupAt(chain: Chain, i: nat)
    requires Distinct(chain) && i < |chain|
    ensures Lookup(chain, chain[i].key) == Some(chain[i].value)
    decreases |chain|
  {
    if i > 0 {
      LookupAt(chain[1..], i - 1);
    }
  }

  lemma {:induction false} LookupNone(chain: Chain, key: Key)
    ensures Lookup(chain, key) == None <==> forall i :: 0 <= i < |chain| ==> chain[i].key != key
    decreases |chain|
  {
    if chain != [] {
      LookupNone(chain[1..], key);
      assert forall i :: 1 <= i < |chain| ==> chain[i] == chain[1..][i - 1];
    }
  }

  lemma {:induction false} LookupConcat(a: Chain, b: Chain, key: Key)
    ensures Lookup(a + b, key) == if Lookup(a, key).Some? then Lookup(a, key) else Lookup(b, key)
    decreases |a|
  {
    if a == [] {
      assert a + b == b;
    } else {
      assert (a + b)[1..] == a[1..] + b;
      LookupConcat(a[1..], b, key);
    }
  }

  function Without(chain: Chain, i: nat): Chain
    requires i < |chain|
  {
    chain[..i] + chain[i + 1..]
  }

  lemma LookupWithout(chain: Chain, i: nat, key: Key)
    requires Distinct(chain) && i < |chain|
    ensures Lookup(Without(chain, i), key) == if key == chain[i].key then None else Lookup(chain, key)
    ensures Distinct(Without(chain, i))
  {
    var without := Without(chain, i);
    assert chain == chain[..i] + ([chain[i]] + chain[i + 1..]);
    LookupConcat(chain[..i], [chain[i]] + chain[i + 1..], key);
    LookupConcat(chain[..i], chain[i + 1..], key);
    assert ([chain[i]] + chain[i + 1..])[1..] == chain[i + 1..];
    if key == chain[i].key {
      LookupNone(without, key);
      forall j | 0 <= j < |without|
        ensures without[j].key != key
      {
        assert without[j] == chain[if j < i then j else j + 1];
      }
    }
    forall j, k | 0 <= j < k < |without|
      ensures without[j].key != without[k].key
    {
      assert without[j] == chain[if j < i then j else j + 1] && without[k] == chain[if k < i then k else k + 1];
    }
  }

  lemma LookupReplaced(chain: Chain, i: nat, value: Value, key: Key)
    requires Distinct(chain) && i < |chain|
    ensures var after := chain[i := Entry(chain[i].key, value)];
            && Distinct(after)
            && Lookup(after, key) == if key == chain[i].key then Some(value) else Lookup(chain, key)
  {
    var after := chain[i := Entry(chain[i].key, value)];
    assert forall j :: 0 <= j < |chain| ==> after[j].key == chain[j].key;
    LookupAt(after, i);
    if key != chain[i].key {
      if j :| 0 <= j < |chain| && chain[j].key == key {
        LookupAt(chain, j);
        LookupAt(after, j);
      } else {
        LookupNone(chain, key);
        LookupNone(after, key);
      }
    }
  }

  lemma LookupPushed(e: Entry, chain: Chain, key: Key)
    ensures Lookup([e] + chain, key) == if key == e.key then Some(e.value) else Lookup(chain, key)
    ensures Distinct(chain) && Lookup(chain, e.key) == None ==> Distinct([e] + chain)
  {
    assert ([e] + chain)[1..] == chain;
    LookupNone(chain, e.key);
  }

  // ----- Buckets -----

  // How many buckets are in use.
  function Used(buckets: seq<Chain>): nat {
    if buckets == [] then 0 else (if buckets[0] == [] then 0 else 1) + Used(buckets[1..])
  }

  lemma {:induction false} UsedUpdate(buckets: seq<Chain>, i: nat, chain: Chain)
    requires i < |buckets|
    ensures Used(buckets[i := chain]) + (if buckets[i] == [] then 0 else 1)
         == Used(buckets) + (if chain == [] then 0 else 1)
    ensures Used(buckets) <= |buckets|
    decreases |buckets|
  {
    UsedBound(buckets);
    if i == 0 {
      assert buckets[i := chain][1..] == buckets[1..];
    } else {
      assert buckets[i := chain][1..] == buckets[1..][i - 1 := chain];
      UsedUpdate(buckets[1..], i - 1, chain);
    }
  }

  lemma {:induction false} UsedBound(buckets: seq<Chain>)
    ensures Used(buckets) <= |buckets|
    ensures (exists i :: 0 <= i < |buckets| && buckets[i] != []) ==> Used(buckets) > 0
    decreases |buckets|
  {
    if buckets != [] {
      UsedBound(buckets[1..]);
      if i :| 0 < i < |buckets| && buckets[i] != [] {
        assert buckets[1..][i - 1] != [];
      }
    }
  }

  ghost predicate Empty(buckets: seq<Chain>) {
    forall i :: 0 <= i < |buckets| ==> buckets[i] == []
  }

  lemma {:induction false} UsedNone(buckets: seq<Chain>)
    requires Empty(buckets)
    ensures Used(buckets) == 0
    decreases |buckets|
  {
    if buckets != [] {
      assert forall i :: 1 <= i < |buckets| ==> buckets[i] == buckets[1..][i - 1];
      UsedNone(buckets[1..]);
    }
  }

  // Every entry, bucket after bucket.
  function Flat(buckets: seq<Chain>): Chain {
    if buckets == [] then [] else buckets[0] + Flat(buckets[1..])
  }

  // Every entry is where it belongs, and no key is there twice.
  ghost predicate ChainOk(hash: Key -> nat, n: nat, i: nat, chain: Chain)
    requires n > 0
  {
    Distinct(chain) && forall e :: e in chain ==> Place(hash(e.key), n) == i
  }

  ghost predicate Placed(hash: Key -> nat, buckets: seq<Chain>, n: nat)
    requires n > 0 && |buckets| == n
  {
    forall i :: 0 <= i < n ==> ChainOk(hash, n, i, buckets[i])
  }

  function Bucket(hash: Key -> nat, buckets: seq<Chain>, n: nat, key: Key): Chain
    requires n > 0 && |buckets| == n
  {
    buckets[Place(hash(key), n)]
  }

  ghost predicate Holds(hash: Key -> nat, buckets: seq<Chain>, n: nat, contents: map<Key, Value>)
    requires n > 0 && |buckets| == n
  {
    forall key ::
      Lookup(Bucket(hash, buckets, n, key), key) == if key in contents then Some(contents[key]) else None
  }

  // A table of `n` buckets that says the same as the map.
  ghost predicate Table(hash: Key -> nat, buckets: seq<Chain>, n: nat, contents: map<Key, Value>) {
    n > 0 && |buckets| == n && Placed(hash, buckets, n) && Holds(hash, buckets, n, contents)
  }

  lemma TableAt(hash: Key -> nat, buckets: seq<Chain>, n: nat, contents: map<Key, Value>, key: Key)
    requires Table(hash, buckets, n, contents)
    ensures |buckets| == n > 0 && ChainOk(hash, n, Place(hash(key), n), Bucket(hash, buckets, n, key))
    ensures Lookup(Bucket(hash, buckets, n, key), key) == if key in contents then Some(contents[key]) else None
    ensures key in contents ==> Bucket(hash, buckets, n, key) != []
  {
  }

  lemma EmptyTable(hash: Key -> nat, buckets: seq<Chain>, n: nat)
    requires n > 0 && |buckets| == n && Empty(buckets)
    ensures Table(hash, buckets, n, map[]) && Used(buckets) == 0
  {
    UsedNone(buckets);
  }

  // One bucket changed at one key.
  lemma BucketChanged(hash: Key -> nat, buckets: seq<Chain>, n: nat, contents: map<Key, Value>, key: Key, chain: Chain,
                      contents': map<Key, Value>)
    requires Table(hash, buckets, n, contents)
    requires n > 0 && ChainOk(hash, n, Place(hash(key), n), chain)
    requires forall k :: k != key ==> Lookup(chain, k) == Lookup(Bucket(hash, buckets, n, key), k)
    requires Lookup(chain, key) == if key in contents' then Some(contents'[key]) else None
    requires contents' - {key} == contents - {key}
    ensures var buckets' := buckets[Place(hash(key), n) := chain];
            Table(hash, buckets', n, contents')
  {
    var buckets' := buckets[Place(hash(key), n) := chain];
    forall k
      ensures Lookup(Bucket(hash, buckets', n, k), k) == if k in contents' then Some(contents'[k]) else None
    {
      assert k != key ==> (k in contents' <==> k in contents' - {key}) && (k in contents <==> k in contents - {key});
      assert k != key && k in contents' ==> contents'[k] == (contents' - {key})[k] == (contents - {key})[k];
    }
  }

  // ----- Every entry once -----

  lemma {:induction false} FlatIn(buckets: seq<Chain>, e: Entry)
    ensures e in Flat(buckets) <==> exists i :: 0 <= i < |buckets| && e in buckets[i]
    decreases |buckets|
  {
    if buckets != [] {
      FlatIn(buckets[1..], e);
      assert forall i :: 1 <= i < |buckets| ==> buckets[i] == buckets[1..][i - 1];
    }
  }

  ghost predicate Apart(buckets: seq<Chain>) {
    forall i, j, d, e :: 0 <= i < j < |buckets| && d in buckets[i] && e in buckets[j] ==> d.key != e.key
  }

  lemma {:induction false} FlatDistinct(buckets: seq<Chain>)
    requires Apart(buckets) && forall i :: 0 <= i < |buckets| ==> Distinct(buckets[i])
    ensures Distinct(Flat(buckets))
    decreases |buckets|
  {
    if buckets != [] {
      var rest := buckets[1..];
      assert Apart(rest) by {
        forall i, j, d: Entry, e: Entry | 0 <= i < j < |rest| && d in rest[i] && e in rest[j]
          ensures d.key != e.key
        {
          assert d in buckets[i + 1] && e in buckets[j + 1];
        }
      }
      FlatDistinct(rest);
      var first, flat := buckets[0], Flat(rest);
      forall i, j | 0 <= i < |first| && 0 <= j < |flat|
        ensures first[i].key != flat[j].key
      {
        FlatIn(rest, flat[j]);
        var k :| 0 <= k < |rest| && flat[j] in rest[k];
        assert flat[j] in buckets[k + 1] && first[i] in buckets[0];
      }
    }
  }

  ghost function Keys(chain: Chain): set<Key> {
    set e | e in chain :: e.key
  }

  lemma {:induction false} DistinctKeys(chain: Chain)
    requires Distinct(chain)
    ensures |Keys(chain)| == |chain|
    decreases |chain|
  {
    if chain != [] {
      DistinctKeys(chain[1..]);
      var rest := Keys(chain[1..]);
      assert Keys(chain) == {chain[0].key} + rest;
      forall e | e in chain[1..]
        ensures e.key != chain[0].key
      {
        var j :| 0 <= j < |chain[1..]| && chain[1..][j] == e;
        assert chain[j + 1] == e;
      }
    }
  }

  lemma FlatMember(hash: Key -> nat, buckets: seq<Chain>, n: nat, contents: map<Key, Value>, e: Entry)
    requires Table(hash, buckets, n, contents)
    ensures e in Flat(buckets) <==> e.key in contents && contents[e.key] == e.value
  {
    FlatIn(buckets, e);
    TableAt(hash, buckets, n, contents, e.key);
    var chain := Bucket(hash, buckets, n, e.key);
    hide Place, Flat, Holds;
    if e in Flat(buckets) {
      var i :| 0 <= i < |buckets| && e in buckets[i];
      assert ChainOk(hash, n, i, buckets[i]);
      var j :| 0 <= j < |chain| && chain[j] == e;
      LookupAt(chain, j);
    }
    if e.key in contents && contents[e.key] == e.value {
      LookupNone(chain, e.key);
      var j :| 0 <= j < |chain| && chain[j].key == e.key;
      LookupAt(chain, j);
      assert chain[j] == e && e in buckets[Place(hash(e.key), n)];
    }
  }

  lemma TableApart(hash: Key -> nat, buckets: seq<Chain>, n: nat, contents: map<Key, Value>)
    requires Table(hash, buckets, n, contents)
    ensures Distinct(Flat(buckets))
  {
    hide Place, Flat, Holds;
    forall i, j, d: Entry, e: Entry | 0 <= i < j < |buckets| && d in buckets[i] && e in buckets[j]
      ensures d.key != e.key
    {
      assert ChainOk(hash, n, i, buckets[i]) && ChainOk(hash, n, j, buckets[j]);
    }
    forall i | 0 <= i < |buckets|
      ensures Distinct(buckets[i])
    {
      assert ChainOk(hash, n, i, buckets[i]);
    }
    FlatDistinct(buckets);
  }

  // Bucket after bucket, one comes across every key of the map once, with its value.
  lemma EachOnce(hash: Key -> nat, buckets: seq<Chain>, n: nat, contents: map<Key, Value>)
    requires Table(hash, buckets, n, contents)
    ensures Distinct(Flat(buckets)) && |Flat(buckets)| == |contents|
    ensures forall e :: e in Flat(buckets) <==> e.key in contents && contents[e.key] == e.value
  {
    hide Table, Flat, Distinct;
    var flat := Flat(buckets);
    TableApart(hash, buckets, n, contents);
    forall e
      ensures e in flat <==> e.key in contents && contents[e.key] == e.value
    {
      FlatMember(hash, buckets, n, contents, e);
    }
    DistinctKeys(flat);
    assert Keys(flat) == contents.Keys by {
      forall k | k in contents
        ensures k in Keys(flat)
      {
        assert Entry(k, contents[k]) in flat;
      }
    }
    assert |contents| == |contents.Keys|;
  }

  // A percentage of a limit, computed in 64-bit words.
  function Share(limit: nat, percentage: nat): nat {
    Word(limit * percentage) / 100
  }

  lemma ShareLess(limit: nat, percentage: nat)
    ensures 100 * Share(limit, percentage) <= limit * percentage
  {
    WordLess(limit * percentage);
  }

  lemma WordLess(n: nat)
    ensures Word(n) <= n && (n < WORD ==> Word(n) == n)
    ensures WORD <= n < WORD + WORD ==> Word(n) == n - WORD
  {
  }

  // ----- The program -----

  class Hash {
    const hash: Key -> nat
    var primeIndex: nat
    var usedIndexes: nat       // a 64-bit word
    var length: nat
    var buckets: seq<Chain>
    var cursorIndex: nat
    var cursorEntry: Chain     // the entry at the cursor and those after it
    var cursorKey: Key
    ghost var contents: map<Key, Value>

    function Limit(): nat
      requires primeIndex < TABLE_SIZE
      reads this`primeIndex
    {
      Prime(primeIndex)
    }

    ghost predicate Valid()
      reads this
    {
      && primeIndex < TABLE_SIZE
      && Table(hash, buckets, Limit(), contents)
      && length == |contents| && 100 * length <= 75 * Limit() && usedIndexes < WORD
    }

    // `used_indexes_size` says how many buckets are in use.
    ghost predicate Exact()
      reads this
    {
      usedIndexes == Used(buckets)
    }

    // `hash_new`
    constructor (hash: Key -> nat)
      ensures Valid() && Exact() && contents == map[] && this.hash == hash && primeIndex == 0
      ensures Empty(buckets) && |buckets| == Prime(0) && length == 0
    {
      this.hash := hash;
      primeIndex, usedIndexes, length := 0, 0, 0;
      buckets := seq(Prime(0), i => []);
      cursorIndex, cursorEntry, cursorKey, contents := 0, [], 0, map[];
      new;
      EmptyTable(hash, buckets, Prime(0));
    }

    // `hash_key_index`
    function Index(key: Key): (i: nat)
      requires primeIndex < TABLE_SIZE && Limit() > 0
      reads this`primeIndex
      ensures i < Limit()
    {
      Place(hash(key), Limit())
    }

    // `hash_get_entry`: where in its chain the entry is, if there is one.
    method GetEntry(key: Key) returns (position: Option<nat>)
      requires Valid()
      ensures position.None? <==> key !in contents
      ensures position.Some? ==>
                var chain := buckets[Index(key)];
                position.value < |chain| && chain[position.value] == Entry(key, contents[key])
    {
      hide Table, Place, Prime;
      TableAt(hash, buckets, Limit(), contents, key);
      var chain := buckets[Index(key)];
      var i := 0;
      while i < |chain|
        invariant i <= |chain| && Lookup(chain[i..], key) == Lookup(chain, key)
      {
        if chain[i].key == key {
          assert chain[i..][0] == chain[i];
          return Some(i);
        }
        assert chain[i..][1..] == chain[i + 1..];
        i := i + 1;
      }
      return None;
    }

    // `hash_has`
    method Has(key: Key) returns (has: bool)
      requires Valid()
      ensures has <==> key in contents
    {
      hide Table, Place, Lookup, Prime, Share;
      var position := GetEntry(key);
      return position.Some?;
    }

    // `hash_get`: null for a key that is not there.
    method Get(key: Key) returns (value: Value)
      requires Valid()
      ensures value == if key in contents then contents[key] else 0
    {
      hide Table, Place, Lookup, Prime, Share;
      TableAt(hash, buckets, Limit(), contents, key);
      var position := GetEntry(key);
      if position.None? {
        return 0;
      }
      return buckets[Index(key)][position.value].value;
    }

    // `hash_is_overload`
    predicate Overload()
      requires primeIndex < TABLE_SIZE
      reads this
    {
      length >= Share(Limit(), 75) || usedIndexes >= Share(Limit(), 50)
    }

    // Where nothing overflows, that is three quarters of the buckets as entries, or half of them in use, rounded down.
    lemma WhenOverloaded()
      requires Valid() && Limit() * 75 < WORD
      ensures Overload() <==> 100 * length + 100 > 75 * Limit() || 100 * usedIndexes + 100 > 50 * Limit()
    {
      hide Prime, Table;
      WordLess(Limit() * 75);
      WordLess(Limit() * 50);
    }

    // `hash_rehash`
    method Rehash()
      requires Valid() && primeIndex + 1 < TABLE_SIZE
      modifies this`primeIndex, this`usedIndexes, this`buckets
      ensures Valid() && Exact() && primeIndex == old(primeIndex) + 1
    {
      hide Table, Placed, Place, Lookup, Prime, Share, Used, Moved;
      PrimesGrow(primeIndex);
      PrimesGrow(primeIndex + 1);
      var oldLimit, newLimit := Limit(), Prime(primeIndex + 1);
      TableParts(hash, buckets, oldLimit, contents);
      var table: seq<Chain> := seq(newLimit, i => []);
      NothingMoved(hash, buckets, oldLimit, table, newLimit);
      var used, index := 0, 0;
      while index < oldLimit
        invariant unchanged(this) && index <= oldLimit && |table| == newLimit && Placed(hash, table, newLimit)
                    && used == Used(table)
        invariant AllMoved(hash, buckets, oldLimit, index, 0, table, newLimit)
      {
        var chain := buckets[index];
        var j := 0;
        while j < |chain|
          invariant unchanged(this) && j <= |chain| && |table| == newLimit && Placed(hash, table, newLimit)
                      && used == Used(table)
          invariant AllMoved(hash, buckets, oldLimit, index, j, table, newLimit)
        {
          var e := chain[j];
          var to := Place(hash(e.key), newLimit);
          MoveOne(hash, buckets, oldLimit, index, j, table, newLimit);
          UsedUpdate(table, to, [e] + table[to]);
          if table[to] == [] {
            used := used + 1;
          }
          table := table[to := [e] + table[to]];
          j := j + 1;
        }
        MovedChain(hash, buckets, oldLimit, index, table, newLimit);
        index := index + 1;
      }
      UsedBound(table);
      MovedAll(hash, buckets, oldLimit, contents, table, newLimit);
      primeIndex, usedIndexes, buckets := primeIndex + 1, used, table;
    }

    // `hash_set_entry_if_not_exists`
    method SetIfNotExists(key: Key, value: Value) returns (ok: bool)
      requires Valid() && (key !in contents ==> 100 * (length + 1) <= 75 * Limit())
      modifies this`usedIndexes, this`length, this`buckets, this`contents
      ensures Valid() && (old(Exact()) ==> Exact())
      ensures ok <==> key !in old(contents)
      ensures contents == if ok then old(contents)[key := value] else old(contents)
      ensures ok ==> buckets == old(buckets)[Index(key) := [Entry(key, value)] + old(buckets)[Index(key)]]
    {
      hide Table, Place, Lookup, Prime, Share, Used, Word;
      TableAt(hash, buckets, Limit(), contents, key);
      PrimesGrow(primeIndex);
      var position := GetEntry(key);
      if position.Some? {
        return false;
      }
      var index := Index(key);
      var chain := [Entry(key, value)] + buckets[index];
      SetPlaced(hash, buckets, Limit(), contents, key, value);
      UsedUpdate(buckets, index, chain);
      UsedBound(buckets[index := chain]);
      WordLess(usedIndexes + 1);
      if buckets[index] == [] {
        usedIndexes := Word(usedIndexes + 1);
      }
      buckets := buckets[index := chain];
      length := length + 1;
      contents := contents[key := value];
      return true;
    }

    // `hash_set`
    method Set(key: Key, value: Value) returns (ok: bool)
      requires Valid() && (Overload() ==> primeIndex + 1 < TABLE_SIZE)
      modifies this
      ensures Valid() && (old(Exact()) ==> Exact())
      ensures ok <==> key !in old(contents)
      ensures contents == if ok then old(contents)[key := value] else old(contents)
      ensures length == |contents|
      ensures primeIndex == old(primeIndex) + if old(Overload()) then 1 else 0
      ensures ok && !old(Overload()) ==>
                buckets == old(buckets)[Index(key) := [Entry(key, value)] + old(buckets)[Index(key)]]
    {
      hide Table, Place, Lookup, Prime, Share, Used, Word;
      PrimesGrow(primeIndex);
      if Overload() {
        Rehash();
      } else {
        ShareLess(Limit(), 75);
      }
      ok := SetIfNotExists(key, value);
    }

    // `hash_put`
    method Put(key: Key, value: Value)
      requires Valid() && (Overload() && key !in contents ==> primeIndex + 1 < TABLE_SIZE)
      modifies this
      ensures Valid() && (old(Exact()) ==> Exact())
      ensures contents == old(contents)[key := value]
    {
      hide Table, Place, Lookup, Prime, Share, Used, Word;
      TableAt(hash, buckets, Limit(), contents, key);
      var position := GetEntry(key);
      if position.None? {
        var ok := Set(key, value);
        return;
      }
      PrimesGrow(primeIndex);
      var index, i := Index(key), position.value;
      var chain := buckets[index][i := Entry(key, value)];
      ReplacePlaced(hash, buckets, Limit(), contents, key, i, value);
      UsedUpdate(buckets, index, chain);
      buckets := buckets[index := chain];
      contents := contents[key := value];
    }

    // `hash_delete`, with `hash_delete_entry`.  The number of buckets in use stays right exactly when the entry is not
    // the first of a chain that goes on.
    method Delete(key: Key) returns (ok: bool)
      requires Valid()
      modifies this`usedIndexes, this`length, this`buckets, this`contents
      ensures Valid()
      ensures ok <==> key in old(contents)
      ensures contents == old(contents) - {key}
      ensures var chain := old(buckets)[Index(key)];
              && old(Exact()) ==>
                   (Exact() <==> (chain != [] && chain[0].key == key ==> |chain| == 1))
      ensures length == |contents|
      ensures !ok ==> buckets == old(buckets) && usedIndexes == old(usedIndexes)
      ensures ok && old(buckets)[Index(key)][0].key == key ==>
                && usedIndexes == Word(old(usedIndexes) + WORD - 1)
                && buckets == old(buckets)[Index(key) := old(buckets)[Index(key)][1..]]
    {
      hide Table, Place, Lookup, Prime, Share, Used, Word, Distinct, Without, Placed, Holds;
      TableAt(hash, buckets, Limit(), contents, key);
      PrimesGrow(primeIndex);
      var position := GetEntry(key);
      ghost var before := buckets[Index(key)];
      Absent(before, key);
      if position.None? {
        return false;
      }
      var index, i := Index(key), position.value;
      Front(before, key, i);
      DeletePlaced(hash, buckets, Limit(), contents, key, i);
      UsedUpdate(buckets, index, Without(buckets[index], i));
      UsedBound(buckets);
      WordLess(usedIndexes + WORD - 1);
      assert contents.Keys == (contents - {key}).Keys + {key};
      assert |contents| == |contents.Keys| && |contents - {key}| == |(contents - {key}).Keys|;
      if i == 0 {
        usedIndexes := Word(usedIndexes + WORD - 1);
      }
      buckets := buckets[index := Without(buckets[index], i)];
      length := length - 1;
      contents := contents - {key};
      return true;
    }

    // What an iteration has still to come across.
    ghost function Ahead(): Chain
      requires cursorIndex < |buckets|
      reads this
    {
      cursorEntry + Flat(buckets[cursorIndex + 1..])
    }

    // `hash_next`: the value of the next entry, null at the end.
    method Next() returns (value: Value)
      requires Valid() && cursorIndex < |buckets|
      modifies this`cursorIndex, this`cursorEntry, this`cursorKey
      ensures cursorIndex < |buckets|
      ensures old(Ahead()) == [] ==> value == 0 && Ahead() == []
      ensures old(Ahead()) != [] ==>
                Ahead() == old(Ahead())[1..] && old(Ahead())[0] == Entry(cursorKey, value)
    {
      hide Table, Prime;
      TableAt(hash, buckets, Limit(), contents, 0);
      ghost var ahead := Ahead();
      while cursorEntry == []
        invariant cursorIndex < |buckets| == Limit() && Ahead() == ahead
        decreases |buckets| - cursorIndex, if cursorEntry == [] then 1 else 0
      {
        if cursorIndex < Limit() - 1 {
          cursorIndex := cursorIndex + 1;
        } else {
          return 0;
        }
        assert buckets[cursorIndex..][1..] == buckets[cursorIndex + 1..];
        cursorEntry := buckets[cursorIndex];
      }
      value, cursorKey := cursorEntry[0].value, cursorEntry[0].key;
      cursorEntry := cursorEntry[1..];
    }

    // `hash_first`
    method First() returns (value: Value)
      requires Valid()
      modifies this`cursorIndex, this`cursorEntry, this`cursorKey
      ensures cursorIndex < |buckets|
      ensures Flat(buckets) == [] ==> value == 0 && Ahead() == []
      ensures Flat(buckets) != [] ==> Ahead() == Flat(buckets)[1..] && Flat(buckets)[0] == Entry(cursorKey, value)
    {
      hide Table, Prime;
      TableAt(hash, buckets, Limit(), contents, 0);
      cursorIndex := 0;
      cursorEntry := buckets[0];
      value := Next();
    }

    // `hash_value_list`: the values of the entries up to the first null.
    method ValueList() returns (list: seq<Value>)
      requires Valid()
      modifies this`cursorIndex, this`cursorEntry, this`cursorKey
      ensures list == Values(Flat(buckets))
      ensures (forall key :: key in contents ==> contents[key] != 0) ==> |list| == length
    {
      hide Table, Prime, Flat;
      EachOnce(hash, buckets, Limit(), contents);
      list := [];
      var value := First();
      while value != 0
        invariant cursorIndex < |buckets|
        invariant list + (if value == 0 then [] else [value] + Values(Ahead())) == Values(Flat(buckets))
        decreases |Ahead()|, value
      {
        list := list + [value];
        ghost var ahead := Ahead();
        value := Next();
        assert ahead != [] ==> ahead[1..] == Ahead();
      }
      if forall key :: key in contents ==> contents[key] != 0 {
        AllValues(Flat(buckets));
      }
    }
  }

  function Values(chain: Chain): seq<Value> {
    if chain == [] || chain[0].value == 0 then [] else [chain[0].value] + Values(chain[1..])
  }

  lemma {:induction false} AllValues(chain: Chain)
    requires forall e :: e in chain ==> e.value != 0
    ensures |Values(chain)| == |chain| && forall i :: 0 <= i < |chain| ==> Values(chain)[i] == chain[i].value
    decreases |chain|
  {
    if chain != [] {
      AllValues(chain[1..]);
    }
  }

  lemma Front(chain: Chain, key: Key, i: nat)
    requires Distinct(chain) && i < |chain| && chain[i].key == key
    ensures chain[0].key == key <==> i == 0
    ensures Without(chain, 0) == chain[1..] && (Without(chain, i) == [] <==> |chain| == 1)
  {
  }

  lemma Absent(chain: Chain, key: Key)
    ensures Lookup(chain, key) == None && chain != [] ==> chain[0].key != key
  {
  }

  lemma SetPlaced(hash: Key -> nat, buckets: seq<Chain>, n: nat, contents: map<Key, Value>, key: Key, value: Value)
    requires Table(hash, buckets, n, contents) && key !in contents
    ensures var buckets' := buckets[Place(hash(key), n) := [Entry(key, value)] + Bucket(hash, buckets, n, key)];
            Table(hash, buckets', n, contents[key := value])
  {
    var e, chain := Entry(key, value), Bucket(hash, buckets, n, key);
    forall k
      ensures Lookup([e] + chain, k) == if k == key then Some(value) else Lookup(chain, k)
    {
      LookupPushed(e, chain, k);
    }
    LookupPushed(e, chain, key);
    BucketChanged(hash, buckets, n, contents, key, [e] + chain, contents[key := value]);
  }

  lemma ReplacePlaced(hash: Key -> nat, buckets: seq<Chain>, n: nat, contents: map<Key, Value>, key: Key, i: nat,
                      value: Value)
    requires Table(hash, buckets, n, contents) && key in contents
    requires var chain := Bucket(hash, buckets, n, key); i < |chain| && chain[i].key == key
    ensures var buckets' := buckets[Place(hash(key), n) := Bucket(hash, buckets, n, key)[i := Entry(key, value)]];
            Table(hash, buckets', n, contents[key := value])
  {
    var chain := Bucket(hash, buckets, n, key);
    forall k
      ensures Lookup(chain[i := Entry(key, value)], k) == if k == key then Some(value) else Lookup(chain, k)
    {
      LookupReplaced(chain, i, value, k);
    }
    LookupReplaced(chain, i, value, key);
    BucketChanged(hash, buckets, n, contents, key, chain[i := Entry(key, value)], contents[key := value]);
  }

  lemma DeletePlaced(hash: Key -> nat, buckets: seq<Chain>, n: nat, contents: map<Key, Value>, key: Key, i: nat)
    requires Table(hash, buckets, n, contents) && key in contents
    requires var chain := Bucket(hash, buckets, n, key); i < |chain| && chain[i].key == key
    ensures var buckets' := buckets[Place(hash(key), n) := Without(Bucket(hash, buckets, n, key), i)];
            Table(hash, buckets', n, contents - {key})
  {
    var chain := Bucket(hash, buckets, n, key);
    forall k
      ensures Lookup(Without(chain, i), k) == if k == key then None else Lookup(chain, k)
    {
      LookupWithout(chain, i, k);
    }
    LookupWithout(chain, i, key);
    BucketChanged(hash, buckets, n, contents, key, Without(chain, i), contents - {key});
  }

  // ----- Rehashing -----

  // What can be found of the old table when the first `index` buckets and `j` entries of the next have been moved.
  function Moved(hash: Key -> nat, buckets: seq<Chain>, n: nat, index: nat, j: nat, key: Key): Option<Value>
    requires n > 0 && |buckets| == n && (index < n ==> j <= |buckets[index]|)
  {
    var at := Place(hash(key), n);
    if at < index then Lookup(buckets[at], key)
    else if at == index then Lookup(buckets[at][..j], key)
    else None
  }

  ghost predicate AllMoved(hash: Key -> nat, buckets: seq<Chain>, n: nat, index: nat, j: nat, table: seq<Chain>, m: nat)
    requires n > 0 && |buckets| == n && (index < n ==> j <= |buckets[index]|) && m > 0 && |table| == m
  {
    forall key :: Lookup(Bucket(hash, table, m, key), key) == Moved(hash, buckets, n, index, j, key)
  }

  lemma MoveOne(hash: Key -> nat, buckets: seq<Chain>, n: nat, index: nat, j: nat, table: seq<Chain>, m: nat)
    requires n > 0 && |buckets| == n && m > 0 && |table| == m && index < n && j < |buckets[index]|
    requires Placed(hash, buckets, n) && Placed(hash, table, m)
    requires AllMoved(hash, buckets, n, index, j, table, m)
    ensures var e := buckets[index][j];
            var to := Place(hash(e.key), m);
            var table' := table[to := [e] + table[to]];
            Placed(hash, table', m) && AllMoved(hash, buckets, n, index, j + 1, table', m)
  {
    var chain := buckets[index];
    var e := chain[j];
    var to := Place(hash(e.key), m);
    assert e in buckets[index];
    LookupNone(chain[..j], e.key);
    assert Moved(hash, buckets, n, index, j, e.key) == None;
    assert Lookup(Bucket(hash, table, m, e.key), e.key) == None;
    LookupPushed(e, table[to], e.key);
    var table' := table[to := [e] + table[to]];
    assert chain[..j + 1] == chain[..j] + [e];
    forall key
      ensures Lookup(Bucket(hash, table', m, key), key) == Moved(hash, buckets, n, index, j + 1, key)
    {
      LookupPushed(e, table[to], key);
      LookupConcat(chain[..j], [e], key);
      assert Lookup(Bucket(hash, table, m, key), key) == Moved(hash, buckets, n, index, j, key);
    }
  }

  lemma MovedChain(hash: Key -> nat, buckets: seq<Chain>, n: nat, index: nat, table: seq<Chain>, m: nat)
    requires n > 0 && |buckets| == n && index < n && m > 0 && |table| == m
    requires AllMoved(hash, buckets, n, index, |buckets[index]|, table, m)
    ensures AllMoved(hash, buckets, n, index + 1, 0, table, m)
  {
    hide Place, Lookup;
    forall key
      ensures Moved(hash, buckets, n, index + 1, 0, key) == Moved(hash, buckets, n, index, |buckets[index]|, key)
    {
      assert buckets[index][..|buckets[index]|] == buckets[index];
      if index + 1 < n {
        LookupEmpty(buckets[index + 1][..0], key);
      }
    }
  }

  lemma LookupEmpty(chain: Chain, key: Key)
    requires chain == []
    ensures Lookup(chain, key) == None
  {
  }

  lemma MovedAll(hash: Key -> nat, buckets: seq<Chain>, n: nat, contents: map<Key, Value>, table: seq<Chain>, m: nat)
    requires Table(hash, buckets, n, contents) && m > 0 && |table| == m && Placed(hash, table, m)
    requires AllMoved(hash, buckets, n, n, 0, table, m)
    ensures Table(hash, table, m, contents)
  {
    hide Place, Lookup, Placed;
  }

  lemma NothingMoved(hash: Key -> nat, buckets: seq<Chain>, n: nat, table: seq<Chain>, m: nat)
    requires n > 0 && |buckets| == n && m > 0 && |table| == m && Empty(table)
    ensures Placed(hash, table, m) && AllMoved(hash, buckets, n, 0, 0, table, m) && Used(table) == 0
  {
    hide Place;
    UsedNone(table);
  }

  lemma TableParts(hash: Key -> nat, buckets: seq<Chain>, n: nat, contents: map<Key, Value>)
    requires Table(hash, buckets, n, contents)
    ensures n > 0 && |buckets| == n && Placed(hash, buckets, n)
  {
  }

  // Two keys of one bucket.
  method Both() returns (h: Hash)
    ensures fresh(h) && h.Valid() && h.primeIndex == 0 && h.usedIndexes == 1
    ensures h.Index(0) == h.Index(13) == 0 && h.Index(1) == h.Index(27) == 1
    ensures h.contents == map[0 := 1, 13 := 1] && h.buckets != [] && h.buckets[0] == [Entry(13, 1), Entry(0, 1)]
  {
    hide Hash.Valid, Used, Place, Share, Word, Prime;
    h := new Hash(key => key);
    ghost var none := h.buckets;
    SmallTable();
    assert h.Index(0) == 0 && h.Index(13) == 0 && none[0] == [];
    UsedNone(none);
    assert [Entry(0, 1)] + none[0] == [Entry(0, 1)];
    var a := h.Set(0, 1);
    assert h.Index(0) == 0 && h.Index(13) == 0;
    assert h.buckets == none[0 := [Entry(0, 1)]];
    UsedUpdate(none, 0, [Entry(0, 1)]);
    assert h.usedIndexes == 1;
    assert h.contents == map[0 := 1] && |h.contents| == 1;
    var b := h.Set(13, 1);
    assert h.Index(0) == 0 && h.Index(13) == 0;
    assert h.buckets == none[0 := [Entry(13, 1)] + [Entry(0, 1)]];
    UsedUpdate(none, 0, [Entry(13, 1)] + [Entry(0, 1)]);
  }

  method OneLeft() returns (h: Hash)
    ensures fresh(h) && h.Valid() && h.primeIndex == 0 && h.usedIndexes == 0 && h.Index(0) == 0
    ensures h.contents == map[0 := 1] && h.buckets != [] && h.buckets[0] == [Entry(0, 1)]
  {
    hide Hash.Valid, Used, Place, Share, Word, Prime;
    h := Both();
    SmallTable();
    ghost var before := h.buckets;
    var c := h.Delete(13);
    assert h.Index(13) == 0;
    assert h.buckets == before[0 := before[0][1..]];
  }

  // After they have come and gone, a table with nothing in it believes that it is overloaded.
  method EmptyOverload() returns (h: Hash)
    ensures h.Valid() && h.contents == map[] && h.length == 0 && h.Overload()
  {
    hide Hash.Valid, Used, Place, Share, Word, Prime;
    h := OneLeft();
    SmallTable();
    var d := h.Delete(0);
    assert h.contents == map[];
  }

  lemma SmallTable()
    ensures Prime(0) == 13 && Share(13, 75) == 9 && Share(13, 50) == 6 && Place(0, 13) == 0 && Place(13, 13) == 0
    ensures Place(1, 13) == Place(27, 13) == 1
    ensures Word(WORD) == 0 && Word(WORD - 1) == WORD - 1
  {
  }
}
