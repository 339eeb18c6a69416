/** The Diffie-Hellman exchange that gives a child and its parent one symmetric key
    (shared secret of section 2.1.1 of RFC 2631), and the byte form AES receives. */
module KeyExchange {
  datatype DHKeyExchange = DHKeyExchange(g: nat, p: nat, halfKey: nat)

  function Pow(b: nat, e: nat): nat {
    if e == 0 then 1 else b * Pow(b, e - 1)
  }

  /** big.Int.Exp: the power modulo m, and the plain power when m is zero. */
  function Exp(x: nat, y: nat, m: nat): nat {
    if m == 0 then Pow(x, y) else Pow(x, y) % m
  }

  function NewKeyExchange(g: nat, p: nat, mySecret: nat): DHKeyExchange {
    DHKeyExchange(g, p, Exp(g, mySecret, p))
  }

  function GenerateReturn(dh: DHKeyExchange, mySecret: nat): DHKeyExchange {
    DHKeyExchange(dh.g, dh.p, Exp(dh.g, mySecret, dh.p))
  }

  function GetSymKey(dh: DHKeyExchange, mySecret: nat): nat {
    Exp(dh.halfKey, mySecret, dh.p)
  }

  /** Length of big.Int.Bytes(): the minimal big-endian form, empty for zero. */
  function ByteLen(n: nat): nat {
    if n == 0 then 0 else 1 + ByteLen(n / 256)
  }

  /** aes.NewCipher accepts 16, 24 or 32 key bytes and nothing else. */
  predicate UsableKey(key: nat) {
    ByteLen(key) in {16, 24, 32}
  }

  lemma RemainderIsUnique(x: nat, q: int, r: nat, m: nat)
    requires r < m && x == q * m + r
    ensures x % m == r
  {
    var d := x / m - q;
    assert x == (x / m) * m + x % m;
    assert d * m == r - x % m by {
      assert (x / m - q) * m == (x / m) * m - q * m;
    }
  }

  lemma MulMod(x: nat, y: nat, m: nat)
    requires m > 0
    ensures (x * y) % m == ((x % m) * y) % m
  {
    var q, r := x / m, x % m;
    var q', r' := (r * y) / m, (r * y) % m;
    calc {
      x * y;
      { assert x == q * m + r; }
      (q * m + r) * y;
      (q * m) * y + r * y;
      { assert (q * m) * y == (q * y) * m; assert r * y == q' * m + r'; }
      (q * y) * m + q' * m + r';
      (q * y + q') * m + r';
    }
    RemainderIsUnique(x * y, q * y + q', r', m);
  }

  /** A base may be reduced before it is raised to a power. */
  lemma {:induction false} PowOfResidue(x: nat, e: nat, m: nat)
    requires m > 0
    ensures Pow(x % m, e) % m == Pow(x, e) % m
  {
    if e > 0 {
      var r := x % m;
      calc {
        Pow(r, e) % m;
        (r * Pow(r, e - 1)) % m;
        { assert r * Pow(r, e - 1) == Pow(r, e - 1) * r; MulMod(Pow(r, e - 1), r, m); }
        ((Pow(r, e - 1) % m) * r) % m;
        { PowOfResidue(x, e - 1, m); }
        ((Pow(x, e - 1) % m) * r) % m;
        { MulMod(Pow(x, e - 1), r, m); }
        (Pow(x, e - 1) * r) % m;
        { assert Pow(x, e - 1) * r == r * Pow(x, e - 1); }
        ((x % m) * Pow(x, e - 1)) % m;
        { MulMod(x, Pow(x, e - 1), m); }
        (x * Pow(x, e - 1)) % m;
      }
    }
  }

  lemma {:induction false} PowAdd(b: nat, e: nat, f: nat)
    ensures Pow(b, e + f) == Pow(b, e) * Pow(b, f)
  {
    if e > 0 {
      PowAdd(b, e - 1, f);
      assert b * (Pow(b, e - 1) * Pow(b, f)) == (b * Pow(b, e - 1)) * Pow(b, f);
    }
  }

  lemma {:induction false} PowOfPow(g: nat, a: nat, b: nat)
    ensures Pow(Pow(g, a), b) == Pow(g, a * b)
  {
    if b == 0 {
      assert a * b == 0;
    } else {
      PowOfPow(g, a, b - 1);
      PowAdd(g, a, a * (b - 1));
      assert a + a * (b - 1) == a * b;
    }
  }

  lemma ExpOfExp(g: nat, a: nat, b: nat, m: nat)
    ensures Exp(Exp(g, a, m), b, m) == Exp(g, a * b, m)
  {
    PowOfPow(g, a, b);
    if m > 0 {
      PowOfResidue(Pow(g, a), b, m);
    }
  }

  /** Both ends of the exchange hold one key, whatever the generator, modulus and secrets: the generator raised to both
      secrets, modulo p unless p is zero. */
  lemma Agreement(g: nat, p: nat, a: nat, b: nat)
    ensures var request := NewKeyExchange(g, p, a);
            GetSymKey(GenerateReturn(request, b), a) == GetSymKey(request, b)
            == (if p == 0 then Pow(g, a * b) else Pow(g, a * b) % p)
    ensures var request := NewKeyExchange(g, p, a);
            GenerateReturn(request, b) == request.(halfKey := if p == 0 then Pow(g, b) else Pow(g, b) % p)
  {
    ExpOfExp(g, a, b, p);
    ExpOfExp(g, b, a, p);
    assert a * b == b * a;
  }

  lemma {:induction false} ByteLenWithin(n: nat, k: nat)
    ensures ByteLen(n) <= k <==> n < Pow(256, k)
  {
    if n == 0 {
      PowPositive(k);
    } else if k > 0 {
      ByteLenWithin(n / 256, k - 1);
    }
  }

  lemma {:induction false} PowPositive(k: nat)
    ensures Pow(256, k) > 0
  {
    if k > 0 {
      PowPositive(k - 1);
    }
  }

  /** A 256-bit modulus gives a key of at most 32 bytes, and of exactly 32 when its top byte is not zero. */
  lemma AgreedKeyBytes(dh: DHKeyExchange, secret: nat)
    requires 1 < dh.p <= Pow(256, 32)
    ensures var key := GetSymKey(dh, secret);
            key < dh.p && ByteLen(key) <= 32 && (ByteLen(key) == 32 <==> key >= Pow(256, 31))
  {
    var key := GetSymKey(dh, secret);
    ByteLenWithin(key, 32);
    ByteLenWithin(key, 31);
  }

  /** AES takes exactly the keys whose minimal form has 16, 24 or 32 bytes. */
  lemma UsableKeys(key: nat)
    ensures UsableKey(key) <==>
              || Pow(256, 15) <= key < Pow(256, 16)
              || Pow(256, 23) <= key < Pow(256, 24)
              || Pow(256, 31) <= key < Pow(256, 32)
  {
    ByteLenWithin(key, 15);
    ByteLenWithin(key, 16);
    ByteLenWithin(key, 23);
    ByteLenWithin(key, 24);
    ByteLenWithin(key, 31);
    ByteLenWithin(key, 32);
  }

  // ---- When the agreed key is zero ----

  predicate Prime(p: nat) {
    p > 1 && forall d: nat :: 1 < d < p ==> p % d != 0
  }

  /** Euclid's lemma, by division of the prime by the factor. */
  lemma {:induction false} PrimeDividesFactor(p: nat, a: nat, b: nat)
    requires Prime(p) && 0 < a < p && (a * b) % p == 0
    ensures b % p == 0
    decreases a
  {
    if a > 1 {
      var q, r := p / a, p % a;
      var m := (a * b) / p;
      assert a * b == m * p;
      calc {
        r * b;
        { assert r == p - q * a; }
        (p - q * a) * b;
        p * b - q * (a * b);
        { assert a * b == m * p; }
        p * b - q * (m * p);
        (b - q * m) * p;
      }
      RemainderIsUnique(r * b, b - q * m, 0, p);
      PrimeDividesFactor(p, r, b);
    }
  }

  lemma FactorMakesMultiple(p: nat, a: nat, b: nat)
    requires p > 0 && a % p == 0
    ensures (a * b) % p == 0
  {
    MulMod(a, b, p);
    assert (a % p) * b == 0;
  }

  lemma PrimeDividesProduct(p: nat, a: nat, b: nat)
    requires Prime(p)
    ensures (a * b) % p == 0 <==> a % p == 0 || b % p == 0
  {
    if a % p == 0 {
      FactorMakesMultiple(p, a, b);
    } else if b % p == 0 {
      FactorMakesMultiple(p, b, a);
      assert a * b == b * a;
    } else if (a * b) % p == 0 {
      MulMod(a, b, p);
      PrimeDividesFactor(p, a % p, b);
    }
  }

  lemma {:induction false} PowIsMultipleIff(p: nat, x: nat, e: nat)
    requires Prime(p)
    ensures Pow(x, e) % p == 0 <==> e > 0 && x % p == 0
  {
    if e == 0 {
      RemainderIsUnique(1, 0, 1, p);
    } else {
      PowIsMultipleIff(p, x, e - 1);
      PrimeDividesProduct(p, x, Pow(x, e - 1));
    }
  }

  /** With a prime modulus the two ends agree on the key zero, which AES refuses, exactly when both secrets are
      positive and the modulus divides the generator. */
  lemma KeyIsZeroIff(g: nat, p: nat, a: nat, b: nat)
    requires Prime(p)
    ensures GetSymKey(NewKeyExchange(g, p, a), b) == 0 <==> a > 0 && b > 0 && g % p == 0
    ensures !UsableKey(0)
  {
    ExpOfExp(g, a, b, p);
    PowIsMultipleIff(p, g, a * b);
    assert a * b > 0 <==> a > 0 && b > 0 by {
      if a > 0 && b > 0 {
        assert a * b >= a;
      }
    }
  }

  /** So two primes lead to it exactly when they are equal, which the retry loop of NewKeyExchange, comparing two
      pointers, never notices. */
  lemma EqualPrimesGiveNoKey(g: nat, p: nat, a: nat, b: nat)
    requires Prime(g) && Prime(p) && a > 0 && b > 0
    ensures GetSymKey(NewKeyExchange(g, p, a), b) == 0 <==> g == p
  {
    KeyIsZeroIff(g, p, a, b);
    if g == p {
      RemainderIsUnique(g, 1, 0, p);
    } else if g < p {
      RemainderIsUnique(g, 0, g, p);
    }
  }
}
