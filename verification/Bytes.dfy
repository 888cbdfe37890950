// Bytes, byte strings and the few sequence facts every other module needs.
module Bytes {

  type Byte = x: int | 0 <= x < 256

  /** `u16` and `u32` as mathematical integers; every wrap-around is written out where it happens. */
  const U16_SIZE := 0x1_0000
  const U32_SIZE := 0x1_0000_0000

  type U32 = x: int | 0 <= x < 0x1_0000_0000

  datatype Result<+T, +E> = Ok(value: T) | Err(error: E)

  datatype Option<+T> = None | Some(value: T)

  /** Concatenation of a list of byte strings, defined from the end: lists grow by appending. */
  function Flat<T>(parts: seq<seq<T>>): seq<T> {
    if |parts| == 0 then [] else Flat(parts[..|parts| - 1]) + parts[|parts| - 1]
  }

  lemma Assoc<T>(a: seq<T>, b: seq<T>, c: seq<T>)
    ensures (a + b) + c == a + (b + c)
  {
  }

  lemma FlatSnoc<T>(parts: seq<seq<T>>, last: seq<T>)
    ensures Flat(parts + [last]) == Flat(parts) + last
  {
    assert (parts + [last])[..|parts|] == parts;
  }

  lemma {:induction false} FlatAppend<T>(a: seq<seq<T>>, b: seq<seq<T>>)
    ensures Flat(a + b) == Flat(a) + Flat(b)
  {
    if |b| == 0 {
      assert a + b == a;
    } else {
      var front, last := b[..|b| - 1], b[|b| - 1];
      FlatAppend(a, front);
      assert a + b == (a + front) + [last];
      FlatSnoc(a + front, last);
    }
  }

  lemma FlatCons<T>(first: seq<T>, rest: seq<seq<T>>)
    ensures Flat([first] + rest) == first + Flat(rest)
  {
    FlatAppend([first], rest);
    assert [first] == [] + [first];
    FlatSnoc([], first);
  }

  /** A prefix of the list concatenates to a prefix of the bytes. */
  lemma FlatPrefix<T>(a: seq<seq<T>>, b: seq<seq<T>>)
    requires a <= b
    ensures Flat(a) <= Flat(b)
  {
    assert b == a + b[|a|..];
    FlatAppend(a, b[|a|..]);
  }

  /** `a` is obtained from `b` by deleting elements, never by reordering or repeating them. */
  ghost predicate IsSubsequence<T>(a: seq<T>, b: seq<T>) {
    if |a| == 0 then true
    else if |b| == 0 then false
    else
      || IsSubsequence(a, b[..|b| - 1])
      || (a[|a| - 1] == b[|b| - 1] && IsSubsequence(a[..|a| - 1], b[..|b| - 1]))
  }

  lemma SubsequenceSkip<T>(a: seq<T>, b: seq<T>, x: T)
    requires IsSubsequence(a, b)
    ensures IsSubsequence(a, b + [x])
  {
    assert (b + [x])[..|b|] == b;
  }

  lemma SubsequenceTake<T>(a: seq<T>, b: seq<T>, x: T)
    requires IsSubsequence(a, b)
    ensures IsSubsequence(a + [x], b + [x])
  {
    assert (a + [x])[..|a|] == a;
    assert (b + [x])[..|b|] == b;
  }

  lemma {:induction false} SubsequenceExtend<T>(a: seq<T>, b: seq<T>, c: seq<T>)
    requires IsSubsequence(a, b)
    ensures IsSubsequence(a, b + c)
  {
    if |c| == 0 {
      assert b + c == b;
    } else {
      var front, last := c[..|c| - 1], c[|c| - 1];
      SubsequenceExtend(a, b, front);
      assert b + c == (b + front) + [last];
      SubsequenceSkip(a, b + front, last);
    }
  }

  lemma {:induction false} SubsequenceOfSelf<T>(a: seq<T>)
    ensures IsSubsequence(a, a)
  {
    if |a| > 0 {
      SubsequenceOfSelf(a[..|a| - 1]);
    }
  }

  /** A prefix of a subsequence is a subsequence. */
  lemma {:induction false} SubsequencePrefix<T>(p: seq<T>, a: seq<T>, b: seq<T>)
    requires p <= a && IsSubsequence(a, b)
    ensures IsSubsequence(p, b)
    decreases |b|, |a|
  {
    if |p| < |a| && |b| > 0 {
      if IsSubsequence(a, b[..|b| - 1]) {
        SubsequencePrefix(p, a, b[..|b| - 1]);
      } else {
        SubsequencePrefix(p, a[..|a| - 1], b[..|b| - 1]);
      }
      assert b == b[..|b| - 1] + [b[|b| - 1]];
      SubsequenceSkip(p, b[..|b| - 1], b[|b| - 1]);
    } else {
      assert p == a || |a| == 0;
    }
  }

  lemma {:induction false} SubsequenceMember<T>(a: seq<T>, b: seq<T>, x: T)
    requires IsSubsequence(a, b) && x in a
    ensures x in b
    decreases |b|
  {
    if |b| > 0 {
      var front := b[..|b| - 1];
      assert b == front + [b[|b| - 1]];
      if IsSubsequence(a, front) {
        SubsequenceMember(a, front, x);
      } else if x in a[..|a| - 1] {
        SubsequenceMember(a[..|a| - 1], front, x);
      } else {
        assert a == a[..|a| - 1] + [a[|a| - 1]];
      }
    }
  }

  // ── big-endian integers ────────────────────────────────────────────────────

  function Be16(n: int): (r: seq<Byte>)
    requires 0 <= n < U16_SIZE
    ensures |r| == 2
  {
    [n / 256, n % 256]
  }

  function FromBe16(hi: Byte, lo: Byte): (r: int)
    ensures 0 <= r < U16_SIZE
  {
    hi * 256 + lo
  }

  function Be32(n: U32): (r: seq<Byte>)
    ensures |r| == 4
  {
    [n / 0x100_0000, n / 0x1_0000 % 256, n / 256 % 256, n % 256]
  }

  function FromBe32(a: Byte, b: Byte, c: Byte, d: Byte): U32 {
    a * 0x100_0000 + b * 0x1_0000 + c * 256 + d
  }

  lemma Be16RoundTrip(n: int, hi: Byte, lo: Byte)
    requires 0 <= n < U16_SIZE
    ensures FromBe16(Be16(n)[0], Be16(n)[1]) == n
    ensures Be16(FromBe16(hi, lo)) == [hi, lo]
  {
  }

  lemma Be32RoundTrip(n: U32)
    ensures var b := Be32(n); FromBe32(b[0], b[1], b[2], b[3]) == n
  {
    var q := n / 256;
    assert n == q * 256 + n % 256;
    var p := q / 256;
    assert q == p * 256 + q % 256;
    assert p == n / 0x1_0000 && p / 256 == n / 0x100_0000;
    assert p == p / 256 * 256 + p % 256;
  }

  lemma Be32Of(a: Byte, b: Byte, c: Byte, d: Byte)
    ensures Be32(FromBe32(a, b, c, d)) == [a, b, c, d]
  {
    var n := FromBe32(a, b, c, d);
    LastByte(a * 0x1_0000 + b * 256 + c, d);
    LastByte(a * 256 + b, c);
    LastByte(a, b);
    assert n / 0x1_0000 == n / 256 / 256 && n / 0x100_0000 == n / 256 / 256 / 256;
  }

  lemma LastByte(high: nat, low: Byte)
    ensures (high * 256 + low) / 256 == high && (high * 256 + low) % 256 == low
  {
  }
}
