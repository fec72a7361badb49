/** `SudoRunner.execute` of remote_ssh_mcp/sudo.py, from the command's standard
    error to the result and the spool file it leaves. */
module Sudo {
  import opened Options
  import opened Bytes
  import opened Capture
  import MarkerRemoval

  /** `chunks` are the reads of the running command's standard error, `rereads`
      those of the spool when it is rewritten. None is a refusal: the marker was
      not captured, and the spool is left as it was. */
  method Execute(chunks: seq<Bytes>, limit: nat, rereads: seq<Bytes>, marker: Bytes)
    returns (stderr: Option<CapturedStream>, spool: Bytes)
    requires marker != [] && MarkerRemoval.Reads(rereads) && Concat(rereads) == Concat(chunks)
    ensures var all := Concat(chunks);
            var kept := if |all| <= limit then all else all[..limit];
            && (stderr.Some? <==> Find(kept, marker).Some?)
            && spool == if stderr.Some? then RemoveFirst(all, marker) else all
    ensures stderr.Some? ==> stderr.value.Describes(spool)
    ensures stderr.Some? ==>
              var all := Concat(chunks);
              |stderr.value.raw| == (if |all| <= limit then |all| else limit) - |marker|
  {
    var captured: CapturedStream, written: Bytes := Capture.Capture(chunks, limit);
    assert captured.raw == if |written| <= limit then written else written[..limit];
    if Find(captured.raw, marker).None? {
      return None, written;
    }
    FindInPrefix(captured.raw, written, marker);
    StrippedCaptureIsFaithful(captured, written, marker);
    var replaced;
    spool, replaced := MarkerRemoval.RemoveMarkerFromFile(rereads, marker);
    stderr := Some(captured.RemoveOnce(marker));
  }
}
