/** Byte strings and the searches the streaming code is measured against. */
module Bytes {
  import opened Options

  type Byte = x: int | 0 <= x < 256

  type Bytes = seq<Byte>

  const NEWLINE: Byte := 10

  /** All chunks of a stream, put together. */
  function Concat(chunks: seq<Bytes>): Bytes {
    if chunks == [] then [] else chunks[0] + Concat(chunks[1..])
  }

  lemma {:induction false} ConcatSnoc(chunks: seq<Bytes>, c: Bytes)
    ensures Concat(chunks + [c]) == Concat(chunks) + c
  {
    if chunks == [] {
      assert chunks + [c] == [c];
      assert Concat([c]) == c + Concat([]);
    } else {
      assert (chunks + [c])[1..] == chunks[1..] + [c];
      ConcatSnoc(chunks[1..], c);
    }
  }

  /** `needle` starts at position `i` of `s`. */
  predicate OccursAt(s: Bytes, needle: Bytes, i: int) {
    0 <= i && i + |needle| <= |s| && s[i..i + |needle|] == needle
  }

  /** `s.find(needle)`, searching from position `i` on. */
  function FindFrom(s: Bytes, needle: Bytes, i: nat): (r: Option<nat>)
    decreases |s| - i
    ensures r.Some? ==> i <= r.value && OccursAt(s, needle, r.value)
    ensures forall k | i <= k && OccursAt(s, needle, k) :: r.Some? && r.value <= k
  {
    if i + |needle| > |s| then None
    else if s[i..i + |needle|] == needle then Some(i)
    else FindFrom(s, needle, i + 1)
  }

  function Find(s: Bytes, needle: Bytes): (r: Option<nat>)
    ensures r.Some? ==> OccursAt(s, needle, r.value)
    ensures forall k | OccursAt(s, needle, k) :: r.Some? && r.value <= k
  {
    FindFrom(s, needle, 0)
  }

  /** `s` without the first occurrence of `needle`, if there is one. */
  function RemoveFirst(s: Bytes, needle: Bytes): Bytes {
    match Find(s, needle)
    case None => s
    case Some(i) => Cut(s, i, |needle|)
  }

  /** `s` without the `n` bytes at position `i`. */
  function Cut(s: Bytes, i: nat, n: nat): Bytes
    requires i + n <= |s|
  {
    s[..i] + s[i + n..]
  }

  lemma CutLeft(a: Bytes, b: Bytes, i: nat, n: nat)
    requires i + n <= |a|
    ensures Cut(a + b, i, n) == Cut(a, i, n) + b
  {
    assert (a + b)[i + n..] == a[i + n..] + b;
  }

  lemma CutRight(a: Bytes, b: Bytes, i: nat, n: nat)
    requires i + n <= |b|
    ensures Cut(a + b, |a| + i, n) == a + Cut(b, i, n) == (a + b[..i]) + b[i + n..]
  {
    assert (a + b)[..|a| + i] == a + b[..i];
  }

  /** An occurrence with none before it is the one `Find` answers. */
  lemma FindIs(s: Bytes, needle: Bytes, i: nat)
    requires OccursAt(s, needle, i)
    requires forall k | 0 <= k < i :: !OccursAt(s, needle, k)
    ensures Find(s, needle) == Some(i)
  {
  }

  /** Bytes before a window do not change what occurs inside it. */
  lemma OccursShift(a: Bytes, s: Bytes, needle: Bytes, i: nat)
    ensures OccursAt(s, needle, i) <==> OccursAt(a + s, needle, |a| + i)
  {
    if i + |needle| <= |s| {
      assert s[i..i + |needle|] == (a + s)[|a| + i..|a| + i + |needle|];
    }
  }

  /** If nothing starts in the first part, the search may start after it. */
  lemma FindPast(a: Bytes, s: Bytes, needle: Bytes)
    requires forall k | 0 <= k < |a| :: !OccursAt(a + s, needle, k)
    ensures var f := Find(s, needle);
            Find(a + s, needle) == if f.None? then None else Some(|a| + f.value)
  {
    var f, g := Find(s, needle), Find(a + s, needle);
    if f.Some? {
      OccursShift(a, s, needle, f.value);
    }
    if g.Some? {
      OccursShift(a, s, needle, g.value - |a|);
    }
  }

  /** Nor does what follows a prefix. */
  lemma OccursInPrefix(s: Bytes, whole: Bytes, needle: Bytes, i: int)
    requires s <= whole && 0 <= i && i + |needle| <= |s|
    ensures OccursAt(s, needle, i) <==> OccursAt(whole, needle, i)
  {
    assert s[i..i + |needle|] == whole[i..i + |needle|];
  }

  /** A first occurrence inside a prefix is the first occurrence in the whole. */
  lemma FindInPrefix(s: Bytes, whole: Bytes, needle: Bytes)
    requires s <= whole && Find(s, needle).Some?
    ensures Find(whole, needle) == Find(s, needle)
  {
    var i := Find(s, needle).value;
    forall k | 0 <= k <= i ensures OccursAt(whole, needle, k) <==> k == i {
      OccursInPrefix(s, whole, needle, k);
    }
    FindIs(whole, needle, i);
  }
}
