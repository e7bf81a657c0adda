/** Nonce bookkeeping of `crypto.rs`. The cipher itself is a parameter: every result holds for
    any secret box whose `open` undoes its `seal`. */
module Crypto {
  import opened Bytes

  const NONCE_BYTES: nat := 24
  const MAC_BYTES: nat := 16

  /** A keyed authenticated cipher: both functions take the nonce first. */
  datatype SecretBox = SecretBox(
    seal: (ByteString, ByteString) -> ByteString,
    open: (ByteString, ByteString) -> Option<ByteString>)

  /** What the model assumes of the cipher: sealing adds the MAC and opening undoes sealing. */
  ghost predicate Correct(box: SecretBox) {
    forall nonce, plain ::
      && |box.seal(nonce, plain)| == |plain| + MAC_BYTES
      && box.open(nonce, box.seal(nonce, plain)) == Some(plain)
  }

  /** The nonce after one byte-wise little-endian increment. */
  function Incremented(s: ByteString): (r: ByteString)
    ensures |r| == |s|
  {
    if s == [] then []
    else if s[0] == 255 then [0] + Incremented(s[1..])
    else [s[0] + 1] + s[1..]
  }

  /** The nonce of `width` bytes a handler holds after `uses` operations: it starts as zeros
      with the direction in the last byte. */
  function Counter(width: nat, msb: Byte, uses: nat): (s: ByteString)
    requires width > 0
    ensures |s| == width
  {
    if uses == 0 then seq(width - 1, _ => 0) + [msb]
    else Incremented(Counter(width, msb, uses - 1))
  }

  function NonceAfter(msb: Byte, uses: nat): (s: ByteString)
    ensures |s| == NONCE_BYTES
  {
    Counter(NONCE_BYTES, msb, uses)
  }

  class CryptoHandler {
    const box: SecretBox
    const nonce: array<Byte>

    ghost predicate Valid()
      reads this
    {
      nonce.Length == NONCE_BYTES
    }

    constructor (box: SecretBox, msb: Byte)
      ensures Valid() && fresh(nonce) && this.box == box
      ensures nonce[..] == NonceAfter(msb, 0)
    {
      this.box := box;
      nonce := new Byte[NONCE_BYTES](i => if i == 23 then msb else 0);
      new;
      assert nonce[..] == seq(NONCE_BYTES - 1, _ => 0) + [msb];
    }

    /** The carry loop, in place. */
    method IncrementNonce()
      requires Valid()
      modifies nonce
      ensures nonce[..] == Incremented(old(nonce[..]))
    {
      var i := 0;
      while i < nonce.Length
        invariant 0 <= i <= nonce.Length
        invariant forall k :: 0 <= k < i ==> old(nonce[..])[k] == 255 && nonce[k] == 0
        invariant forall k :: i <= k < nonce.Length ==> nonce[k] == old(nonce[..])[k]
      {
        CarryTo(old(nonce[..]), i);
        nonce[i] := if nonce[i] == 255 then 0 else nonce[i] + 1;
        if nonce[i] != 0 {
          assert nonce[..] == seq(i, _ => 0) + ([nonce[i]] + old(nonce[..])[i..][1..]);
          return;
        }
        i := i + 1;
      }
      CarryTo(old(nonce[..]), i);
      assert nonce[..] == seq(i, _ => 0) + [];
    }

    /** The nonce advances before the message is sealed with it. */
    method Encrypt(plain: ByteString) returns (cipher: ByteString)
      requires Valid()
      modifies nonce
      ensures nonce[..] == Incremented(old(nonce[..]))
      ensures cipher == box.seal(nonce[..], plain)
    {
      IncrementNonce();
      cipher := box.seal(nonce[..], plain);
    }

    /** Too short a ciphertext is refused before the nonce moves; any other one moves it. */
    method Decrypt(cipher: ByteString) returns (plain: Option<ByteString>)
      requires Valid()
      modifies nonce
      ensures |cipher| < MAC_BYTES ==> nonce[..] == old(nonce[..]) && plain == None
      ensures |cipher| >= MAC_BYTES ==>
                && nonce[..] == Incremented(old(nonce[..]))
                && plain == box.open(nonce[..], cipher)
    {
      if |cipher| < MAC_BYTES {
        return None;
      }
      IncrementNonce();
      plain := box.open(nonce[..], cipher);
    }
  }

  /** A carry that runs through `i` bytes of 255 leaves zeros behind it. */
  lemma {:induction false} CarryTo(s: ByteString, i: nat)
    requires i <= |s| && forall k :: 0 <= k < i ==> s[k] == 255
    ensures Incremented(s) == seq(i, _ => 0) + Incremented(s[i..])
  {
    if i == 0 {
      assert s[0..] == s;
    } else {
      CarryTo(s[1..], i - 1);
      assert s[1..][i - 1..] == s[i..];
      assert [0] + seq(i - 1, _ => 0) == seq(i, _ => 0);
    }
  }

  /** The carry loop counts: one increment is +1, wrapping at 256^length. */
  lemma {:induction false} IncrementCounts(s: ByteString)
    ensures LittleEndian(Incremented(s)) ==
            if LittleEndian(s) + 1 == Pow256(|s|) then 0 else LittleEndian(s) + 1
  {
    if s != [] {
      IncrementCounts(s[1..]);
      LittleEndianBound(s[1..]);
      assert Pow256(|s|) == 256 * Pow256(|s[1..]|);
      if s[0] == 255 {
        assert Incremented(s)[1..] == Incremented(s[1..]);
      } else {
        assert Incremented(s)[1..] == s[1..];
      }
    }
  }

  lemma {:induction false} LittleEndianOfZeros(n: nat, msb: Byte)
    ensures LittleEndian(seq(n, _ => 0) + [msb]) == msb * Pow256(n)
  {
    var s := seq(n, _ => 0) + [msb];
    if n == 0 {
      assert s == [msb] && s[1..] == [];
    } else {
      assert s[1..] == seq(n - 1, _ => 0) + [msb];
      LittleEndianOfZeros(n - 1, msb);
      assert 256 * (msb * Pow256(n - 1)) == msb * (256 * Pow256(n - 1));
    }
  }

  /** Counting up one at a time and wrapping at `m` is arithmetic modulo `m`. */
  lemma WrapIsModulo(x: nat, m: nat)
    requires m > 0
    ensures (x + 1) % m == if x % m + 1 == m then 0 else x % m + 1
  {
    var q, r := x / m, x % m;
    if r + 1 == m {
      assert x + 1 == (q + 1) * m;
      RemainderUnique(x + 1, m, q + 1, 0);
    } else {
      RemainderUnique(x + 1, m, q, r + 1);
    }
  }

  lemma RemainderUnique(x: nat, m: nat, q: nat, r: nat)
    requires 0 <= r < m && x == q * m + r
    ensures x % m == r
  {
    var d := x / m - q;
    assert d * m == r - x % m;
    assert d >= 1 ==> d * m >= m;
    assert d <= -1 ==> d * m + m <= 0;
  }

  /** The counter a handler holds is its start value plus the number of operations. */
  lemma {:induction false} CounterValue(width: nat, msb: Byte, uses: nat, limit: nat)
    requires width > 0 && limit == Pow256(width)
    ensures LittleEndian(Counter(width, msb, uses)) ==
            (LittleEndian(Counter(width, msb, 0)) + uses) % limit
  {
    var start := LittleEndian(Counter(width, msb, 0));
    if uses == 0 {
      LittleEndianBound(Counter(width, msb, 0));
      RemainderUnique(start, limit, 0, start);
    } else {
      CounterValue(width, msb, uses - 1, limit);
      IncrementCounts(Counter(width, msb, uses - 1));
      WrapIsModulo(start + uses - 1, limit);
    }
  }

  lemma CounterStart(width: nat, msb: Byte)
    requires width > 0
    ensures LittleEndian(Counter(width, msb, 0)) == msb * Pow256(width - 1)
  {
    LittleEndianOfZeros(width - 1, msb);
  }

  lemma CountersDistinct(width: nat, msb: Byte, uses: nat, msb': Byte, uses': nat)
    requires width > 0 && msb <= 1 && msb' <= 1
    requires 1 <= uses <= Pow256(width - 1) && 1 <= uses' <= Pow256(width - 1)
    requires (msb, uses) != (msb', uses')
    ensures Counter(width, msb, uses) != Counter(width, msb', uses')
  {
    var unit, limit := Pow256(width - 1), Pow256(width);
    CounterStart(width, msb);
    CounterStart(width, msb');
    CounterValue(width, msb, uses, limit);
    CounterValue(width, msb', uses', limit);
    var x := LittleEndian(Counter(width, msb, 0)) + uses;
    var x' := LittleEndian(Counter(width, msb', 0)) + uses';
    HalfRange(unit, msb, uses, x);
    HalfRange(unit, msb', uses', x');
    RemainderUnique(x, limit, 0, x);
    RemainderUnique(x', limit, 0, x');
  }

  lemma HalfRange(unit: nat, msb: Byte, uses: nat, x: nat)
    requires msb <= 1 && 1 <= uses <= unit && x == msb * unit + uses
    ensures if msb == 0 then 1 <= x == uses <= unit else unit < x == unit + uses <= 2 * unit
  {
  }

  /** No nonce is used twice: the two directions draw from disjoint ranges, and one direction
      never repeats, for 256^23 operations each. */
  lemma NoncesDistinct(msb: Byte, uses: nat, msb': Byte, uses': nat)
    requires msb <= 1 && msb' <= 1
    requires 1 <= uses <= Pow256(NONCE_BYTES - 1) && 1 <= uses' <= Pow256(NONCE_BYTES - 1)
    requires (msb, uses) != (msb', uses')
    ensures NonceAfter(msb, uses) != NonceAfter(msb', uses')
  {
    CountersDistinct(NONCE_BYTES, msb, uses, msb', uses');
  }

  /** The assumption on the cipher can be met. */
  lemma CorrectBoxExists()
    ensures exists box :: Correct(box)
  {
    var zeros := seq(MAC_BYTES, _ => 0);
    var box := SecretBox(
      (nonce: ByteString, plain: ByteString) => plain + zeros,
      (nonce: ByteString, cipher: ByteString) =>
        if |cipher| < MAC_BYTES then None else Some(cipher[..|cipher| - MAC_BYTES]));
    forall nonce: ByteString, plain: ByteString
      ensures |box.seal(nonce, plain)| == |plain| + MAC_BYTES
      ensures box.open(nonce, box.seal(nonce, plain)) == Some(plain)
    {
      assert (plain + zeros)[..|plain|] == plain;
    }
    assert Correct(box);
  }
}
