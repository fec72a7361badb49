/** `_BoundedReader` of tools/container_payload.py: a stream that may be read up
    to a maximum, and fails once it proves longer. */
module BoundedReader {
  import opened Options
  import opened Bytes

  /** A byte stream read from the front. */
  class Stream {
    var rest: Bytes

    constructor (content: Bytes)
      ensures rest == content
    {
      rest := content;
    }

    /** `read(size)`, for a size that is not negative. */
    method Read(size: nat) returns (value: Bytes)
      modifies this
      ensures value == Prefix(old(rest), size) && rest == old(rest)[|value|..]
    {
      value := Prefix(rest, size);
      rest := rest[|value|..];
    }
  }

  function Prefix(s: Bytes, n: nat): Bytes {
    if n <= |s| then s[..n] else s
  }

  /** What a caller means by a size: everything if it is negative. */
  function Wanted(s: Bytes, size: int): Bytes {
    if size < 0 then s else Prefix(s, size)
  }

  class Reader {
    const stream: Stream
    const maximum: nat
    var count: nat

    constructor (stream: Stream, maximum: nat)
      ensures this.stream == stream && this.maximum == maximum && count == 0
    {
      this.stream := stream;
      this.maximum := maximum;
      count := 0;
    }

    /** The bytes counted so far fit, or exactly one too many was read. */
    predicate Valid()
      reads this
    {
      count <= maximum + 1
    }

    predicate Exceeded()
      reads this
    {
      count > maximum
    }

    /** None is the error. Up to the maximum a read is the stream's own; past it
        every read fails, and at most one byte too many is ever taken. */
    method Read(size: int) returns (value: Option<Bytes>)
      requires Valid()
      modifies this`count, stream
      ensures Valid()
      ensures var wanted := Wanted(old(stream.rest), size);
              if old(count) + |wanted| <= maximum
              then value == Some(wanted) && stream.rest == old(stream.rest)[|wanted|..]
                   && count == old(count) + |wanted|
              else value == None && Exceeded()
      ensures value.Some? ==> !Exceeded()
      ensures |stream.rest| + count == |old(stream.rest)| + old(count)
    {
      var remaining := maximum - count;
      var request := if size < 0 then remaining + 1 else if size < remaining + 1 then size else remaining + 1;
      var bytes := stream.Read(request);
      count := count + |bytes|;
      if count > maximum {
        return None;
      }
      return Some(bytes);
    }
  }

  /** A caller that reads these sizes one after another, straight from a stream. */
  function Direct(s: Bytes, sizes: seq<int>): seq<Bytes> {
    if sizes == [] then []
    else
      var value := Wanted(s, sizes[0]);
      [value] + Direct(s[|value|..], sizes[1..])
  }

  /** The same caller behind the reader: all values, or None at the first error. */
  method ReadAll(reader: Reader, sizes: seq<int>) returns (values: Option<seq<Bytes>>)
    requires reader.Valid() && !reader.Exceeded()
    modifies reader`count, reader.stream
    ensures var direct := Direct(old(reader.stream.rest), sizes);
            values == if old(reader.count) + |Concat(direct)| <= reader.maximum then Some(direct) else None
  {
    var done: seq<Bytes> := [];
    for i := 0 to |sizes|
      invariant reader.Valid() && !reader.Exceeded()
      invariant Direct(old(reader.stream.rest), sizes) == done + Direct(reader.stream.rest, sizes[i..])
      invariant reader.count == old(reader.count) + |Concat(done)|
    {
      ghost var before := reader.stream.rest;
      ghost var value := Wanted(before, sizes[i]);
      assert sizes[i..][0] == sizes[i] && sizes[i..][1..] == sizes[i + 1..];
      ghost var later := Direct(before[|value|..], sizes[i + 1..]);
      assert Direct(before, sizes[i..]) == [value] + later;
      ConcatSnoc(done, value);
      assert done + ([value] + later) == (done + [value]) + later;
      var read := reader.Read(sizes[i]);
      if read.None? {
        ConcatAppend(done + [value], later);
        return None;
      }
      done := done + [read.value];
    }
    assert done + Direct(reader.stream.rest, []) == done;
    return Some(done);
  }

  lemma {:induction false} ConcatAppend(a: seq<Bytes>, b: seq<Bytes>)
    ensures Concat(a + b) == Concat(a) + Concat(b)
  {
    if a == [] {
      assert a + b == b;
    } else {
      assert (a + b)[1..] == a[1..] + b;
      ConcatAppend(a[1..], b);
    }
  }

  lemma {:induction false} DirectIsPrefix(s: Bytes, sizes: seq<int>)
    ensures Concat(Direct(s, sizes)) <= s
    ensures (exists i | 0 <= i < |sizes| :: sizes[i] < 0) ==> Concat(Direct(s, sizes)) == s
  {
    if sizes != [] {
      var value := Wanted(s, sizes[0]);
      DirectIsPrefix(s[|value|..], sizes[1..]);
      assert s == value + s[|value|..];
    }
  }

  /** A stream within the maximum is read as if the reader were not there; one
      beyond it cannot be read to its end. */
  lemma TransparentExactly(s: Bytes, maximum: nat)
    ensures |s| <= maximum <==> forall sizes :: |Concat(Direct(s, sizes))| <= maximum
  {
    forall sizes ensures |Concat(Direct(s, sizes))| <= |s| {
      DirectIsPrefix(s, sizes);
    }
    var all: seq<int> := [-1];
    DirectIsPrefix(s, all);
    assert all[0] < 0;
  }
}
