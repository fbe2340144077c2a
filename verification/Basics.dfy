/** Vocabulary shared by every module: 64-bit naturals, optional values and sequence folds. */
module Basics {

  const MAX_U64: int := 0xFFFF_FFFF_FFFF_FFFF

  /** The 64-bit unsigned integers of clocks, identifiers and counters. */
  type u64 = n: int | 0 <= n <= MAX_U64

  const MAX_U32: int := 0xFFFF_FFFF

  type u32 = n: int | 0 <= n <= MAX_U32

  datatype Option<+T> = None | Some(value: T)

  datatype Result<+T, +E> = Ok(value: T) | Err(error: E)

  /** Subtraction that stops at zero instead of wrapping. */
  function SaturatingSub(a: u64, b: u64): (d: u64)
    ensures b <= a ==> a == b + d
    ensures a < b ==> d == 0
  {
    if a < b then 0 else a - b
  }

  /** Addition that wraps, as unchecked 64-bit arithmetic does. */
  function WrappingSucc(p: u64): (s: u64)
    ensures p < MAX_U64 ==> s == p + 1
    ensures p == MAX_U64 ==> s == 0
  {
    if p == MAX_U64 then 0 else p + 1
  }

  /** The `i`-th number after `first`, wrapping around. */
  function CountFrom(first: u64, i: nat): (id: u64)
    ensures first + i <= MAX_U64 ==> id == first + i
  {
    if i == 0 then first else WrappingSucc(CountFrom(first, i - 1))
  }

  /** Concatenation of a sequence of sequences. Histories grow at the end, so it recurses there. */
  function Flatten<T>(xss: seq<seq<T>>): seq<T> {
    if |xss| == 0 then [] else Flatten(xss[..|xss| - 1]) + xss[|xss| - 1]
  }

  lemma FlattenSnoc<T>(xss: seq<seq<T>>, xs: seq<T>)
    ensures Flatten(xss + [xs]) == Flatten(xss) + xs
  {
    assert (xss + [xs])[..|xss|] == xss;
  }

  lemma {:induction false} FlattenMember<T>(xss: seq<seq<T>>, k: nat, x: T)
    requires k < |xss| && x in xss[k]
    ensures x in Flatten(xss)
    decreases |xss|
  {
    if k < |xss| - 1 {
      FlattenMember(xss[..|xss| - 1], k, x);
    }
  }

  lemma {:induction false} FlattenOrigin<T>(xss: seq<seq<T>>, x: T) returns (k: nat)
    requires x in Flatten(xss)
    ensures k < |xss| && x in xss[k]
    decreases |xss|
  {
    if x in xss[|xss| - 1] {
      k := |xss| - 1;
    } else {
      k := FlattenOrigin(xss[..|xss| - 1], x);
    }
  }

  /** Looking beyond the first part of a concatenation. */
  lemma AppendBeyond<T>(xs: seq<T>, ys: seq<T>, i: nat)
    requires i <= |ys|
    ensures (xs + ys)[..|xs| + i] == xs + ys[..i]
    ensures (xs + ys)[|xs|..] == ys
    ensures i < |ys| ==> (xs + ys)[|xs| + i] == ys[i]
  {
  }

  lemma AppendAssoc<T>(xs: seq<T>, ys: seq<T>, zs: seq<T>)
    ensures (xs + ys) + zs == xs + (ys + zs)
  {
  }
}
