/** Vocabulary shared by every module of the file-server model. */
module Common {

  /** File contents, request bodies and socket traffic; one `char` per byte. */
  type Bytes = string

  /** Counters in the server are unsigned 64-bit integers. */
  const U64: nat := 0x1_0000_0000_0000_0000

  /** File lengths are signed 64-bit integers. */
  const FILE_LENGTHS: nat := 0x8000_0000_0000_0000

  datatype Option<+T> = None | Some(value: T)

  function Min(a: nat, b: nat): nat {
    if a <= b then a else b
  }

  /** Number of groups of at most `d` needed to hold `n` things. */
  function CeilDiv(n: nat, d: nat): nat
    requires d > 0
  {
    if n == 0 then 0 else (n - 1) / d + 1
  }

  /** `CeilDiv(n, d)` is the unique `k` with `(k - 1) * d < n <= k * d`. */
  lemma CeilDivBounds(n: nat, d: nat)
    requires d > 0
    ensures n <= CeilDiv(n, d) * d < n + d
  {
    if n > 0 {
      var q, r := (n - 1) / d, (n - 1) % d;
      assert n - 1 == q * d + r;
      assert (q + 1) * d == q * d + d;
    }
  }

  lemma CeilDivUnique(n: nat, d: nat, k: nat)
    requires d > 0
    requires n <= k * d < n + d
    ensures k == CeilDiv(n, d)
  {
    var c := CeilDiv(n, d);
    CeilDivBounds(n, d);
    if k < c {
      MulMonotone(k + 1, c, d);
    } else if c < k {
      MulMonotone(c + 1, k, d);
    }
  }

  lemma MulMonotone(a: nat, b: nat, d: nat)
    requires a <= b
    ensures a * d <= b * d
    ensures (a + 1) * d == a * d + d
  {
    assert (b - a) * d >= 0;
    assert b * d == a * d + (b - a) * d;
  }

  function Flatten(parts: seq<Bytes>): Bytes {
    if parts == [] then [] else parts[0] + Flatten(parts[1..])
  }

  lemma {:induction false} FlattenAppend(a: seq<Bytes>, b: seq<Bytes>)
    ensures Flatten(a + b) == Flatten(a) + Flatten(b)
  {
    if a == [] {
      assert a + b == b;
    } else {
      assert (a + b)[0] == a[0] && (a + b)[1..] == a[1..] + b;
      FlattenAppend(a[1..], b);
    }
  }

  /** Taking one element out of a sequence takes one occurrence out of its multiset. */
  lemma MultisetCut<T>(s: seq<T>, i: nat)
    requires i < |s|
    ensures multiset(s[..i] + s[i + 1..]) == multiset(s) - multiset{s[i]}
    ensures s[i] in multiset(s)
  {
    assert s == s[..i] + ([s[i]] + s[i + 1..]);
  }

  lemma MultisetTail<T>(s: seq<T>)
    requires s != []
    ensures multiset(s[1..]) == multiset(s) - multiset{s[0]}
    ensures s[0] in multiset(s)
  {
    assert s == [s[0]] + s[1..];
  }

  /** Two multisets that agree once one occurrence is taken out of each are equal. */
  lemma MultisetPutBack<T>(m: multiset<T>, n: multiset<T>, x: T)
    requires x in m && x in n && m - multiset{x} == n - multiset{x}
    ensures m == n
  {
    assert m == (m - multiset{x}) + multiset{x};
    assert n == (n - multiset{x}) + multiset{x};
  }

  lemma IndexOf<T>(s: seq<T>, x: T) returns (i: nat)
    requires x in multiset(s)
    ensures i < |s| && s[i] == x
  {
    i :| 0 <= i < |s| && s[i] == x;
  }
}
