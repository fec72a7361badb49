/** `_remove_marker_from_file` of remote_ssh_mcp/sudo.py: a file rewritten chunk
    by chunk without its first marker. */
module MarkerRemoval {
  import opened Options
  import opened Bytes

  /** The loop's variables: what is written, what is held back, and whether the
      marker was found. */
  datatype Scan = Scan(written: Bytes, pending: Bytes, found: bool)

  /** One chunk. */
  function Step(s: Scan, marker: Bytes, chunk: Bytes): Scan {
    var pending := s.pending + chunk;
    if s.found then Scan(s.written + pending, [], true)
    else
      match Find(pending, marker)
      case Some(i) => Scan(s.written + pending[..i], pending[i + |marker|..], true)
      case None =>
        if |pending| > |marker| then
          var safe := |pending| - |marker|;
          Scan(s.written + pending[..safe], pending[safe..], false)
        else Scan(s.written, pending, false)
  }

  function ScanAll(chunks: seq<Bytes>, marker: Bytes): Scan {
    if chunks == [] then Scan([], [], false)
    else Step(ScanAll(chunks[..|chunks| - 1], marker), marker, chunks[|chunks| - 1])
  }

  /** The most bytes ever held in memory. */
  function Peak(chunks: seq<Bytes>, marker: Bytes): nat {
    if chunks == [] then 0
    else
      var before := chunks[..|chunks| - 1];
      var here := |ScanAll(before, marker).pending| + |chunks[|chunks| - 1]|;
      if Peak(before, marker) < here then here else Peak(before, marker)
  }

  method RemoveMarkerFromFile(chunks: seq<Bytes>, marker: Bytes) returns (content: Bytes, replaced: bool)
    requires Reads(chunks)
    ensures content == RemoveFirst(Concat(chunks), marker)
    ensures replaced <==> Concat(chunks) != [] && Find(Concat(chunks), marker).Some?
  {
    var written: Bytes, pending: Bytes, found := [], [], false;
    for i := 0 to |chunks|
      invariant Scan(written, pending, found) == ScanAll(chunks[..i], marker)
    {
      assert chunks[..i + 1][..i] == chunks[..i];
      hide RemoveFirst;
      written, pending, found := Feed(written, pending, found, marker, chunks[i]);
    }
    assert chunks[..|chunks|] == chunks;
    written := written + pending;
    ScanRemoves(chunks, marker);
    // The temporary file takes the place of the original only if it differs.
    return if found then written else Concat(chunks), found;
  }

  /** The body of the loop. */
  method Feed(written: Bytes, pending: Bytes, found: bool, marker: Bytes, chunk: Bytes)
    returns (written': Bytes, pending': Bytes, found': bool)
    ensures Scan(written', pending', found') == Step(Scan(written, pending, found), marker, chunk)
  {
    written', pending', found' := written, pending + chunk, found;
    if !found {
      var index := Find(pending', marker);
      if index.Some? {
        written' := written' + pending'[..index.value];
        pending' := pending'[index.value + |marker|..];
        found' := true;
      } else if |pending'| > |marker| {
        var safe := |pending'| - |marker|;
        written' := written' + pending'[..safe];
        pending' := pending'[safe..];
      }
    } else {
      written' := written' + pending';
      pending' := [];
    }
  }

  /** What the loop has established after reading `content`. */
  ghost predicate ScanOk(s: Scan, marker: Bytes, content: Bytes) {
    if s.found then
      content != [] && Find(content, marker).Some? && s.written + s.pending == RemoveFirst(content, marker)
    else
      && s.written + s.pending == content
      && (content != [] ==> Find(content, marker).None?)
      && (content == [] ==> s.written == [])
      && |s.pending| == if |content| <= |marker| then |content| else |marker|
  }

  /** More bytes after a found marker do not move it. */
  lemma RemoveFirstExtends(content: Bytes, chunk: Bytes, marker: Bytes)
    requires Find(content, marker).Some?
    ensures Find(content + chunk, marker) == Find(content, marker)
    ensures RemoveFirst(content + chunk, marker) == RemoveFirst(content, marker) + chunk
  {
    FindInPrefix(content, content + chunk, marker);
    var i := Find(content, marker).value;
    CutLeft(content, chunk, i, |marker|);
  }

  /** The held-back bytes are enough: a marker that ends in the new chunk starts
      inside them. */
  lemma NothingStartsBefore(s: Scan, marker: Bytes, content: Bytes, chunk: Bytes, k: nat)
    requires ScanOk(s, marker, content) && !s.found && k < |s.written|
    ensures !OccursAt(content + chunk, marker, k)
  {
    OccursInPrefix(content, content + chunk, marker, k);
  }

  /** Where the marker is first found in the buffer is where it first is in all
      that was read. */
  lemma FindInBuffer(s: Scan, marker: Bytes, chunk: Bytes)
    requires ScanOk(s, marker, s.written + s.pending) && !s.found
    ensures var b := Find(s.pending + chunk, marker);
            Find(s.written + (s.pending + chunk), marker) == if b.None? then None else Some(|s.written| + b.value)
  {
    assert s.written + s.pending + chunk == s.written + (s.pending + chunk);
    forall k | 0 <= k < |s.written|
      ensures !OccursAt(s.written + (s.pending + chunk), marker, k)
    {
      NothingStartsBefore(s, marker, s.written + s.pending, chunk, k);
    }
    FindPast(s.written, s.pending + chunk, marker);
  }

  /** What a step that was still searching leaves of its buffer. */
  ghost predicate Splits(written: Bytes, buffer: Bytes, marker: Bytes, t: Scan) {
    match Find(buffer, marker)
    case Some(i) => t == Scan(written + buffer[..i], buffer[i + |marker|..], true)
    case None =>
      exists safe: nat | safe <= |buffer| ::
        && t == Scan(written + buffer[..safe], buffer[safe..], false)
        && (safe + |marker| == |buffer| || (safe == 0 && written == [] && |buffer| <= |marker|))
  }

  lemma StepSearching(s: Scan, marker: Bytes, chunk: Bytes)
    requires !s.found && ScanOk(s, marker, s.written + s.pending)
    ensures Splits(s.written, s.pending + chunk, marker, Step(s, marker, chunk))
  {
    var buffer, m := s.pending + chunk, |marker|;
    if Find(buffer, marker).None? && |buffer| <= m {
      assert Step(s, marker, chunk) == Scan(s.written + buffer[..0], buffer[0..], false);
    }
  }

  lemma FoundOk(written: Bytes, buffer: Bytes, marker: Bytes, t: Scan)
    requires Find(buffer, marker).Some? && Splits(written, buffer, marker, t) && buffer != []
    requires Find(written + buffer, marker) == Some(|written| + Find(buffer, marker).value)
    ensures ScanOk(t, marker, written + buffer)
  {
    var i := Find(buffer, marker).value;
    CutRight(written, buffer, i, |marker|);
    assert t.written + t.pending == Cut(written + buffer, |written| + i, |marker|);
  }

  lemma HeldBackOk(written: Bytes, buffer: Bytes, marker: Bytes, t: Scan)
    requires Find(buffer, marker).None? && Splits(written, buffer, marker, t) && buffer != []
    requires Find(written + buffer, marker).None?
    ensures ScanOk(t, marker, written + buffer)
  {
    var safe: nat :| safe <= |buffer|
      && t == Scan(written + buffer[..safe], buffer[safe..], false)
      && (safe + |marker| == |buffer| || (safe == 0 && written == [] && |buffer| <= |marker|));
    CutRight(written, buffer, safe, 0);
  }

  lemma StillFoundOk(s: Scan, marker: Bytes, content: Bytes, chunk: Bytes)
    requires ScanOk(s, marker, content) && s.found
    ensures ScanOk(Step(s, marker, chunk), marker, content + chunk)
  {
    RemoveFirstExtends(content, chunk, marker);
    assert s.written + (s.pending + chunk) == RemoveFirst(content, marker) + chunk;
  }

  lemma SearchingOk(s: Scan, marker: Bytes, chunk: Bytes)
    requires ScanOk(s, marker, s.written + s.pending) && !s.found && chunk != []
    ensures ScanOk(Step(s, marker, chunk), marker, s.written + (s.pending + chunk))
  {
    FindInBuffer(s, marker, chunk);
    StepSearching(s, marker, chunk);
    if Find(s.pending + chunk, marker).Some? {
      FoundOk(s.written, s.pending + chunk, marker, Step(s, marker, chunk));
    } else {
      HeldBackOk(s.written, s.pending + chunk, marker, Step(s, marker, chunk));
    }
  }

  lemma StepOk(s: Scan, marker: Bytes, content: Bytes, chunk: Bytes)
    requires ScanOk(s, marker, content) && chunk != []
    ensures ScanOk(Step(s, marker, chunk), marker, content + chunk)
  {
    if s.found {
      StillFoundOk(s, marker, content, chunk);
    } else {
      assert content + chunk == s.written + (s.pending + chunk);
      SearchingOk(s, marker, chunk);
    }
  }

  /** A read never returns an empty chunk before the end. */
  predicate Reads(chunks: seq<Bytes>) {
    forall i | 0 <= i < |chunks| :: chunks[i] != []
  }

  lemma {:induction false} ScanAllOk(chunks: seq<Bytes>, marker: Bytes)
    requires Reads(chunks)
    ensures ScanOk(ScanAll(chunks, marker), marker, Concat(chunks))
  {
    if chunks != [] {
      var n := |chunks| - 1;
      ScanAllOk(chunks[..n], marker);
      StepOk(ScanAll(chunks[..n], marker), marker, Concat(chunks[..n]), chunks[n]);
      ConcatSnoc(chunks[..n], chunks[n]);
      assert chunks[..n] + [chunks[n]] == chunks;
    }
  }

  /** Whatever the chunks, the streamed file is the whole file with its first
      marker gone, even one that straddles chunks. */
  lemma ScanRemoves(chunks: seq<Bytes>, marker: Bytes)
    requires Reads(chunks)
    ensures var s := ScanAll(chunks, marker);
            && (s.found <==> Concat(chunks) != [] && Find(Concat(chunks), marker).Some?)
            && (if s.found then s.written + s.pending else Concat(chunks)) == RemoveFirst(Concat(chunks), marker)
  {
    ScanAllOk(chunks, marker);
  }

  /** Reads of at most `c` bytes. */
  ghost predicate ReadsOf(chunks: seq<Bytes>, c: nat) {
    Reads(chunks) && forall i | 0 <= i < |chunks| :: |chunks[i]| <= c
  }

  /** A marker found in this step ends inside its chunk, so at least one byte of
      the chunk goes with it. */
  lemma LeftoverIsShort(s: Scan, marker: Bytes, chunk: Bytes)
    requires ScanOk(s, marker, s.written + s.pending) && !s.found && marker != []
    requires Find(s.pending + chunk, marker).Some?
    ensures |Step(s, marker, chunk).pending| < |chunk|
  {
    var i := Find(s.pending + chunk, marker).value;
    if i + |marker| <= |s.pending| {
      assert OccursAt(s.pending, marker, i) by {
        OccursInPrefix(s.pending, s.pending + chunk, marker, i);
      }
      OccursShift(s.written, s.pending, marker, i);
      assert false;
    }
  }

  lemma {:induction false} PendingBound(chunks: seq<Bytes>, marker: Bytes, c: nat)
    requires ReadsOf(chunks, c) && marker != []
    ensures var s := ScanAll(chunks, marker);
            |s.pending| <= |marker| || (s.found && |s.pending| < c)
  {
    if chunks != [] {
      var n := |chunks| - 1;
      var s := ScanAll(chunks[..n], marker);
      PendingBound(chunks[..n], marker, c);
      ScanAllOk(chunks[..n], marker);
      if !s.found && Find(s.pending + chunks[n], marker).Some? {
        LeftoverIsShort(s, marker, chunks[n]);
      }
    }
  }

  /** What the loop holds in memory: one chunk, and a marker's length or all but
      one byte of the chunk in which the marker ended. */
  lemma {:induction false} PeakBound(chunks: seq<Bytes>, marker: Bytes, c: nat)
    requires ReadsOf(chunks, c) && marker != []
    ensures Peak(chunks, marker) <= c + |marker| || Peak(chunks, marker) <= c + (c - 1)
  {
    if chunks != [] {
      var n := |chunks| - 1;
      PeakBound(chunks[..n], marker, c);
      PendingBound(chunks[..n], marker, c);
    }
  }

  /** A marker whose last byte comes with a new chunk leaves the rest of that
      chunk in memory. */
  lemma MarkerEnds(marker: Bytes, rest: Bytes)
    requires marker != []
    ensures var m := |marker|;
            Step(Scan([], marker[..m - 1], false), marker, [marker[m - 1]] + rest).pending == rest
  {
    var m := |marker|;
    var buffer := marker[..m - 1] + ([marker[m - 1]] + rest);
    assert buffer == marker + rest;
    assert OccursAt(buffer, marker, 0) by {
      assert buffer[0..m] == marker;
    }
    assert buffer[m..] == rest;
  }

  /** The reads that bring a marker up to its last byte. */
  function AlmostMarker(marker: Bytes): (chunks: seq<Bytes>)
    requires marker != []
    ensures ReadsOf(chunks, |marker|)
  {
    if |marker| == 1 then [] else [marker[..|marker| - 1]]
  }

  lemma AlmostMarkerHeld(marker: Bytes)
    requires marker != []
    ensures ScanAll(AlmostMarker(marker), marker) == Scan([], marker[..|marker| - 1], false)
  {
    var held := marker[..|marker| - 1];
    if |marker| > 1 {
      var one: seq<Bytes> := [held];
      assert one[..0] == [];
      assert [] + held == held;
    }
  }

  lemma ScanSnoc(chunks: seq<Bytes>, marker: Bytes, chunk: Bytes)
    ensures ScanAll(chunks + [chunk], marker) == Step(ScanAll(chunks, marker), marker, chunk)
    ensures Peak(chunks + [chunk], marker) >= |ScanAll(chunks, marker).pending| + |chunk|
  {
    assert (chunks + [chunk])[..|chunks|] == chunks;
  }

  lemma ReadsSnoc(chunks: seq<Bytes>, chunk: Bytes, c: nat)
    requires ReadsOf(chunks, c) && 0 < |chunk| <= c
    ensures ReadsOf(chunks + [chunk], c)
  {
  }

  /** Reads of at most `c` bytes after which `c - 1` bytes behind the marker and
      one more chunk are held at once. */
  lemma LateMarker(marker: Bytes, c: nat) returns (chunks: seq<Bytes>)
    requires marker != [] && c >= |marker|
    ensures ReadsOf(chunks, c) && Peak(chunks, marker) >= c + (c - 1)
  {
    var rest := seq(c - 1, _ => 0);
    var ends := [marker[|marker| - 1]] + rest;
    var before := AlmostMarker(marker) + [ends];
    ReadsSnoc(AlmostMarker(marker), ends, c);
    ReadsSnoc(before, seq(c, _ => 0), c);
    AlmostMarkerHeld(marker);
    ScanSnoc(AlmostMarker(marker), marker, ends);
    MarkerEnds(marker, rest);
    ScanSnoc(before, marker, seq(c, _ => 0));
    chunks := before + [seq(c, _ => 0)];
  }

  /** One marker and one chunk bound the memory of every run exactly when a chunk
      is at most one byte longer than the marker. */
  lemma MarkerPlusChunkExactly(marker: Bytes, c: nat)
    requires marker != [] && c > 0
    ensures c <= |marker| + 1 <==>
              forall chunks | ReadsOf(chunks, c) :: Peak(chunks, marker) <= |marker| + c
  {
    if c <= |marker| + 1 {
      forall chunks | ReadsOf(chunks, c) ensures Peak(chunks, marker) <= |marker| + c {
        PeakBound(chunks, marker, c);
      }
    } else {
      var chunks := LateMarker(marker, c);
      assert Peak(chunks, marker) > |marker| + c;
    }
  }
}
