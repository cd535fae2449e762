/**
 The arithmetic of a ring whose cursors are 64-bit words that only grow and wrap round.
 */
module Ring {

  const WORD: nat := 0x1_0000_0000_0000_0000

  // What a 64-bit cursor holds after `n` increments, and the slot that belongs to the n-th value.
  function Word(n: nat): (w: nat)
    ensures w < WORD
  {
    n % WORD
  }

  function Place(n: nat, size: nat): (i: nat)
    requires size > 0
    ensures i < size
  {
    n % size
  }

  // Bitwise and.
  function And(a: nat, b: nat): nat {
    if a == 0 || b == 0 then 0
    else (if a % 2 == 1 && b % 2 == 1 then 1 else 0) + 2 * And(a / 2, b / 2)
  }

  // `is_power_of_two`
  predicate IsPowerOfTwo(n: nat) {
    n > 0 && And(n, n - 1) == 0
  }

  function Pow2(k: nat): nat {
    if k == 0 then 1 else 2 * Pow2(k - 1)
  }

  lemma {:induction false} PowerOfTwo(n: nat) returns (k: nat)
    requires IsPowerOfTwo(n)
    ensures n == Pow2(k)
    decreases n
  {
    if n == 1 {
      k := 0;
    } else if n % 2 == 1 {
      assert n - 1 != 0 && (n - 1) / 2 == n / 2;
      AndSelf(n / 2);
      assert false;
    } else {
      assert (n - 1) % 2 == 1 && (n - 1) / 2 == n / 2 - 1;
      k := PowerOfTwo(n / 2);
      k := k + 1;
    }
  }

  lemma {:induction false} AndSelf(n: nat)
    ensures And(n, n) == n
    decreases n
  {
    if n > 0 {
      AndSelf(n / 2);
    }
  }

  lemma {:induction false} PowerIsOne(k: nat)
    ensures Pow2(k) > 0 && IsPowerOfTwo(Pow2(k))
    decreases k
  {
    if k > 0 {
      PowerIsOne(k - 1);
      var n := Pow2(k - 1);
      assert 2 * n > 0 && (2 * n - 1) % 2 == 1 && (2 * n) / 2 == n && (2 * n - 1) / 2 == n - 1;
    }
  }

  // Masking with one less than a power of two is the remainder.
  lemma {:induction false} MaskIsRemainder(c: nat, k: nat)
    ensures Pow2(k) > 0 && And(c, Pow2(k) - 1) == c % Pow2(k)
    decreases k
  {
    if k > 0 && c > 0 {
      var n := Pow2(k - 1);
      MaskIsRemainder(c / 2, k - 1);
      assert (2 * n - 1) % 2 == 1 && (2 * n - 1) / 2 == n - 1;
      HalfRemainder(c, n);
    } else if k > 0 {
      MaskIsRemainder(0, k - 1);
      RemainderIs(0, Pow2(k), 0, 0);
    }
  }

  lemma HalfRemainder(c: nat, n: nat)
    requires n > 0
    ensures c % (2 * n) == 2 * ((c / 2) % n) + c % 2
  {
    var q, r := c / 2 / n, (c / 2) % n;
    assert c / 2 == n * q + r;
    assert c == 2 * n * q + (2 * r + c % 2);
    RemainderIs(c, 2 * n, q, 2 * r + c % 2);
  }

  lemma RemainderIs(a: nat, n: nat, q: int, r: nat)
    requires n > 0 && r < n && a == n * q + r
    ensures a % n == r
  {
    var d: int := a / n - q;
    assert n * d == r - a % n;
    if d > 0 {
      AtLeast(n, d);
    } else if d < 0 {
      AtLeast(n, -d);
    }
  }

  lemma AtLeast(n: nat, d: nat)
    requires d > 0
    ensures n * d >= n
  {
  }

  // The slot of a cursor that has wrapped round is the slot of the count it stands for.
  lemma {:induction false} WordIsMultiple(k: nat)
    requires k <= 64
    ensures Pow2(k) * Pow2(64 - k) == WORD
    decreases 64 - k
  {
    if k == 64 {
      assert Pow2(64) == WORD by { PowerOf64(); }
    } else {
      WordIsMultiple(k + 1);
      assert Pow2(k + 1) == 2 * Pow2(k) && Pow2(64 - k) == 2 * Pow2(63 - k);
      assert Pow2(k) * (2 * Pow2(63 - k)) == (2 * Pow2(k)) * Pow2(63 - k);
    }
  }

  lemma PowerOf64()
    ensures Pow2(64) == WORD
  {
    assert Pow2(8) == 256;
    assert Pow2(16) == 65536;
    assert Pow2(24) == 0x100_0000;
    assert Pow2(32) == 0x1_0000_0000;
    assert Pow2(40) == 0x100_0000_0000;
    assert Pow2(48) == 0x1_0000_0000_0000;
    assert Pow2(56) == 0x100_0000_0000_0000;
  }

  // How many slots a ring may have.
  predicate Sized(size: nat) {
    1 < size && IsPowerOfTwo(size) && size < WORD
  }

  function Slot(cursor: nat, size: nat): nat
    requires size > 0
  {
    And(cursor, size - 1)
  }

  lemma SlotOfCount(n: nat, size: nat)
    requires Sized(size)
    ensures Slot(Word(n), size) == Place(n, size)
  {
    var k := PowerOfTwo(size);
    if k > 64 {
      PowersGrow(64, k);
      PowerOf64();
      assert false;
    }
    MaskIsRemainder(n % WORD, k);
    WordIsMultiple(k);
    RemainderOfRemainder(n, size, Pow2(64 - k));
  }

  lemma {:induction false} PowersGrow(j: nat, k: nat)
    requires j <= k
    ensures Pow2(j) <= Pow2(k)
    decreases k - j
  {
    if j < k {
      PowersGrow(j, k - 1);
      PowerIsOne(k - 1);
    }
  }

  lemma RemainderOfRemainder(n: nat, s: nat, t: nat)
    requires s > 0 && s * t > 0
    ensures (n % (s * t)) % s == n % s
  {
    var w := s * t;
    var q, r := n / w, n % w;
    var q', r' := r / s, r % s;
    assert n == w * q + r && r == s * q' + r';
    assert w * q == s * (t * q);
    assert n == s * (t * q + q') + r';
    RemainderIs(n, s, t * q + q', r');
  }

  // Two counts less than a whole ring apart have different slots.
  lemma SlotsDiffer(m: nat, n: nat, size: nat)
    requires 0 < size && m < n < m + size
    ensures Place(m, size) != Place(n, size)
  {
    var q, r := m / size, m % size;
    assert m == size * q + r;
    if r + (n - m) < size {
      RemainderIs(n, size, q, r + (n - m));
    } else {
      assert n == size * (q + 1) + (r + (n - m) - size);
      RemainderIs(n, size, q + 1, r + (n - m) - size);
    }
  }

  // The difference of two cursors, as words, is the difference of the counts.
  function Minus(a: nat, b: nat): nat
    requires a < WORD && b < WORD
  {
    Word(a + WORD - b)
  }

  lemma Difference(m: nat, n: nat)
    requires m <= n < m + WORD
    ensures Minus(Word(n), Word(m)) == n - m
  {
    var q, r := m / WORD, m % WORD;
    var q', r' := n / WORD, n % WORD;
    assert m == WORD * q + r && n == WORD * q' + r';
    assert r' + WORD - r == WORD * (q + 1 - q') + (n - m);
    RemainderIs(r' + WORD - r, WORD, q + 1 - q', n - m);
  }

  lemma NextCursor(n: nat)
    ensures Word(Word(n) + 1) == Word(n + 1)
  {
    var q, r := n / WORD, n % WORD;
    assert n == WORD * q + r;
    if r + 1 < WORD {
      RemainderIs(n + 1, WORD, q, r + 1);
      RemainderIs(r + 1, WORD, 0, r + 1);
    } else {
      assert n + 1 == WORD * (q + 1) + 0;
      RemainderIs(n + 1, WORD, q + 1, 0);
      RemainderIs(WORD, WORD, 1, 0);
    }
  }

  lemma WordSum(n: nat, i: nat)
    ensures Word(Word(n) + i) == Word(n + i)
  {
    var q, r := n / WORD, n % WORD;
    var q', r' := (r + i) / WORD, (r + i) % WORD;
    assert n == WORD * q + r && r + i == WORD * q' + r';
    assert n + i == WORD * (q + q') + r';
    RemainderIs(n + i, WORD, q + q', r');
  }
}
