/** `read_file_range` of remote_ssh_mcp/inspection.py: one bounded page of a
    remote file, and what a caller that follows pages to the end receives. */
module Paging {
  import opened Bytes
  import Capture

  /** A remote path as the inspector's commands meet it. `size` is what `stat`
      reports, `readable` whether `dd` can open the file, `reach` the largest
      offset that `dd` and the file system can skip to. */
  datatype Remote =
    | Absent
    | Special
    | Regular(content: Bytes, size: nat, readable: bool, reach: nat)
  {
    /** `stat -c %F`, which has a name of its own for a regular file of size 0. */
    function TypeName(): string {
      match this
      case Absent => ""
      case Special => "directory"
      case Regular(_, size, _, _) => if size == 0 then "regular empty file" else "regular file"
    }
  }

  datatype Error = InvalidRange | NotFound | InvalidType

  datatype Page = Page(data: Bytes, eof: bool)

  datatype Result = Ok(page: Page) | Err(error: Error)

  /** `file[offset:offset + n]`, clipped to the file. */
  function Window(file: Bytes, offset: nat, n: nat): Bytes {
    if offset >= |file| then []
    else if offset + n >= |file| then file[offset..]
    else file[offset..offset + n]
  }

  /** `dd bs=1 skip=offset` exits 0. */
  predicate DdSucceeds(remote: Remote, offset: nat) {
    remote.Regular? && remote.readable && offset <= remote.reach
  }

  /** The output of `dd bs=1 skip=offset count=n`. */
  function Dd(remote: Remote, offset: nat, n: nat): Bytes {
    if DdSucceeds(remote, offset) then Window(remote.content, offset, n) else []
  }

  /** `chunks` are the reads of the command's standard output, `limit` the
      configured `max_output_bytes` that both bounds the argument and cuts the
      capture, here possibly one byte short of the probe. */
  method ReadFileRange(remote: Remote, offset: int, maxBytes: int, limit: nat, chunks: seq<Bytes>)
    returns (r: Result)
    requires 0 <= offset && 0 <= maxBytes ==> Concat(chunks) == Dd(remote, offset, maxBytes + 1)
    ensures r.Err? && r.error.InvalidRange? <==> offset < 0 || maxBytes < 1 || maxBytes > limit
    ensures 0 <= offset && 1 <= maxBytes <= limit ==>
              match r
              case Ok(page) => DdSucceeds(remote, offset) && remote.size > 0
              case Err(InvalidType) => remote.Special? || (remote.Regular? && remote.size == 0)
              case Err(_) => remote.Absent? || (remote.Regular? && remote.size > 0 && !DdSucceeds(remote, offset))
    ensures r.Ok? ==>
              && r.page.data == Window(remote.content, offset, maxBytes)
              && (r.page.eof <==> |remote.content| <= offset + maxBytes)
  {
    if offset < 0 {
      return Err(InvalidRange);
    }
    if !(1 <= maxBytes <= limit) {
      return Err(InvalidRange);
    }
    if remote.Absent? {
      return Err(NotFound);
    }
    if remote.TypeName() != "regular file" {
      return Err(InvalidType);
    }
    var stdout, _ := Capture.Capture(chunks, limit);
    if !DdSucceeds(remote, offset) {
      return Err(NotFound);
    }
    var data := if maxBytes <= |stdout.raw| then stdout.raw[..maxBytes] else stdout.raw;
    return Ok(Page(data, stdout.totalBytes <= maxBytes));
  }

  type Size = n: nat | n > 0 witness 1

  /** The page a successful call returns. */
  function PageAt(file: Bytes, offset: nat, n: nat): Page {
    Page(Window(file, offset, n), |file| <= offset + n)
  }

  /** What a caller gathers who asks again from where the last page ended until
      one says eof; `sizes(k)` is the `max_bytes` of request `k`. */
  function Follow(file: Bytes, offset: nat, sizes: nat -> Size, k: nat): seq<Bytes>
    decreases |file| - offset
  {
    var page := PageAt(file, offset, sizes(k));
    [page.data] + if page.eof then [] else Follow(file, offset + |page.data|, sizes, k + 1)
  }

  /** Pages of whatever sizes put together are the rest of the file: none is
      skipped, none repeated, and the last one says so. */
  lemma {:induction false} PagesAreTheFile(file: Bytes, offset: nat, sizes: nat -> Size, k: nat)
    ensures Concat(Follow(file, offset, sizes, k)) == if offset < |file| then file[offset..] else []
    decreases |file| - offset
  {
    var page := PageAt(file, offset, sizes(k));
    WindowRest(file, offset, sizes(k));
    if page.eof {
      assert Concat([page.data]) == page.data;
    } else {
      PagesAreTheFile(file, offset + |page.data|, sizes, k + 1);
      ConcatCons(page.data, Follow(file, offset + |page.data|, sizes, k + 1));
    }
  }

  lemma WindowRest(file: Bytes, offset: nat, n: nat)
    ensures offset + n < |file| ==> Window(file, offset, n) + file[offset + n..] == file[offset..]
  {
  }

  lemma ConcatCons(page: Bytes, rest: seq<Bytes>)
    ensures Concat([page] + rest) == page + Concat(rest)
  {
    assert ([page] + rest)[1..] == rest;
  }

  /** Page `i` is as long as request `k + i` asked, but for the last, which may
      be shorter. */
  ghost predicate FullPages(pages: seq<Bytes>, sizes: nat -> Size, k: nat) {
    && |pages| > 0
    && (forall i | 0 <= i < |pages| - 1 :: |pages[i]| == sizes(k + i))
    && |pages[|pages| - 1]| <= sizes(k + |pages| - 1)
  }

  lemma FullPagesPrepend(page: Bytes, rest: seq<Bytes>, sizes: nat -> Size, k: nat)
    requires FullPages(rest, sizes, k + 1) && |page| == sizes(k)
    ensures FullPages([page] + rest, sizes, k)
  {
    var pages := [page] + rest;
    forall i | 0 <= i < |pages| - 1 ensures |pages[i]| == sizes(k + i) {
      if i > 0 {
        assert pages[i] == rest[i - 1] && sizes(k + 1 + (i - 1)) == sizes(k + i);
      }
    }
  }

  /** Requests are as few as their sizes allow. */
  lemma {:induction false} PagesAreFull(file: Bytes, offset: nat, sizes: nat -> Size, k: nat)
    ensures FullPages(Follow(file, offset, sizes, k), sizes, k)
    decreases |file| - offset
  {
    var page := PageAt(file, offset, sizes(k));
    if !page.eof {
      PagesAreFull(file, offset + |page.data|, sizes, k + 1);
      FullPagesPrepend(page.data, Follow(file, offset + |page.data|, sizes, k + 1), sizes, k);
    }
  }
}
