/** Bounded capture of a stream, the spool beside it, and the removal of the sudo
    marker from both (remote_ssh_mcp/commands.py, remote_ssh_mcp/sudo.py). */
module Capture {
  import opened Options
  import opened Bytes

  const RSYNC_TAIL_BYTES: nat := 65536

  datatype CapturedStream = CapturedStream(raw: Bytes, totalBytes: nat, truncated: bool)
  {
    /** What a captured stream says about the stream it was captured from. */
    predicate Describes(stream: Bytes) {
      && raw <= stream
      && totalBytes == |stream|
      && (truncated <==> |raw| < |stream|)
    }

    function RemoveOnce(value: Bytes): CapturedStream {
      match Find(raw, value)
      case None => this
      case Some(i) =>
        CapturedStream(raw[..i] + raw[i + |value|..], if totalBytes < |value| then 0 else totalBytes - |value|, truncated)
    }
  }

  /** `_capture`: one pass over the chunks that fills both the bounded buffer and
      the spool. */
  method Capture(chunks: seq<Bytes>, limit: nat) returns (stream: CapturedStream, spool: Bytes)
    ensures spool == Concat(chunks)
    ensures stream.Describes(spool)
    ensures |stream.raw| == if |spool| <= limit then |spool| else limit
  {
    var captured: Bytes, total := [], 0;
    spool := [];
    for i := 0 to |chunks|
      invariant spool == Concat(chunks[..i]) && total == |spool|
      invariant |captured| <= |spool| && captured == spool[..|captured|]
      invariant |captured| == if |spool| <= limit then |spool| else limit
    {
      var chunk := chunks[i];
      ConcatSnoc(chunks[..i], chunk);
      assert chunks[..i + 1] == chunks[..i] + [chunk];
      total := total + |chunk|;
      spool := spool + chunk;
      var remaining := limit - |captured|;
      if remaining > 0 {
        captured := captured + if remaining < |chunk| then chunk[..remaining] else chunk;
      }
    }
    assert chunks[..|chunks|] == chunks;
    stream := CapturedStream(captured, total, total > |captured|);
  }

  /** `_read_rsync_stream`: however the output is chunked, what is kept is its
      last RSYNC_TAIL_BYTES bytes. */
  method ReadTail(chunks: seq<Bytes>) returns (tail: Bytes)
    ensures var all := Concat(chunks);
            tail == if |all| <= RSYNC_TAIL_BYTES then all else all[|all| - RSYNC_TAIL_BYTES..]
  {
    tail := [];
    for i := 0 to |chunks|
      invariant var all := Concat(chunks[..i]);
                tail == if |all| <= RSYNC_TAIL_BYTES then all else all[|all| - RSYNC_TAIL_BYTES..]
    {
      ConcatSnoc(chunks[..i], chunks[i]);
      assert chunks[..i + 1] == chunks[..i] + [chunks[i]];
      tail := tail + chunks[i];
      if |tail| > RSYNC_TAIL_BYTES {
        tail := tail[|tail| - RSYNC_TAIL_BYTES..];
      }
    }
    assert chunks[..|chunks|] == chunks;
  }

  /** `SudoRunner.execute` strips only when it saw the marker in the capture, so
      what it returns always describes the spool it leaves. */
  lemma StrippedCaptureIsFaithful(stream: CapturedStream, spool: Bytes, marker: Bytes)
    requires stream.Describes(spool) && Find(stream.raw, marker).Some?
    ensures stream.RemoveOnce(marker).Describes(RemoveFirst(spool, marker))
    ensures |stream.RemoveOnce(marker).raw| == |stream.raw| - |marker|
  {
    var raw := stream.raw;
    FindInPrefix(raw, spool, marker);
    var i, n := Find(raw, marker).value, |marker|;
    assert spool == raw + spool[|raw|..];
    assert spool[i + n..] == raw[i + n..] + spool[|raw|..];
    assert RemoveFirst(spool, marker) == (raw[..i] + raw[i + n..]) + spool[|raw|..];
  }

  /** Taking the marker out of the capture and out of the spool keeps the one
      describing the other exactly when the marker lies in the captured prefix,
      or nowhere. */
  lemma StripKeepsDescription(stream: CapturedStream, spool: Bytes, marker: Bytes)
    requires stream.Describes(spool) && marker != []
    ensures var inCapture, inSpool := Find(stream.raw, marker).Some?, Find(spool, marker).Some?;
            stream.RemoveOnce(marker).Describes(RemoveFirst(spool, marker)) <==> (inSpool ==> inCapture)
  {
    if Find(stream.raw, marker).Some? {
      StrippedCaptureIsFaithful(stream, spool, marker);
    }
  }
}
