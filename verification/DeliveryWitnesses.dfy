/** Runs of transfers, from their start, that do what they are for: the bytes of
    the source end up at the destination. They are possible in both directions,
    at a free path and, with `overwrite`, over what can be replaced. */
module DeliveryWitnesses {
  import opened Options
  import opened PartialNames
  import opened TransferWorld
  import opened PublicationOutcomes
  import opened TransferWitnesses
  import R = TransferRecords

  /** One transfer "a" is copying, and what it copied is on disk. */
  lemma Copied(cfg: Config, ends: Endpoints, overwrite: bool, c: Content, before: Option<Node>)
    returns (ws: seq<World>, es: seq<Event>)
    requires cfg.maxTransfers > 0 && ends.Valid()
    ensures IsRun(cfg, ws, es)
    ensures var w := ws[|es|];
            && w.ops.Keys == {"a"} && Lookup(w.nodes, ResourceKey(ends)) == before
            && w.managers == map[0 := Open] && w.calls == map[] && w.claimed == {ResourceKey(ends)}
            && var op := w.ops["a"];
               && op.ends == ends && op.overwrite == overwrite && op.rec.key == ResourceKey(ends) && op.rec.reserved
               && op.rec.state.Verifying? && op.at == (if ends.direction.Download? then HashSource else HashPartial)
               && !op.cancelRequested && op.partialHash.None? && op.scriptOk.None? && !op.rsyncAlive
               && (ends.direction.Upload? ==> op.sourceHash == Some(cfg.digest(c)))
               && PartialOf(cfg, w, op) == Some(c)
  {
    var key := ResourceKey(ends);
    ws, es := OneManager(cfg);
    ws, es := Extend(cfg, ws, es, Elsewhere(key, before), ws[|es|].(nodes := SetNode(map[], key, before)));
    var kept;
    ws, es, kept := Begins(cfg, ws, es, "a", ends, overwrite);
    if ends.direction.Download? {
      ws, es := DownloadCopies(cfg, ws, es, "a");
    } else {
      ws, es := UploadCopies(cfg, ws, es, "a", cfg.digest(c));
    }
    var copying := ws[|es|].ops["a"];
    ws, es := Writes(cfg, ws, es, "a", c);
    assert Sharing(cfg, map["a" := copying], "a", PartialName(cfg.token, ends)) == {};
    assert ws[|es|].ops == map["a" := copying];
    ws, es := CopyVerifies(cfg, ws, es, "a", c);
  }

  /** A download that may go to its destination: nothing is there, or it overwrites
      a plain file. It COMPLETES, its bytes are at the destination in place of what
      was there before the last step, and its partial is gone. */
  lemma DownloadRun(cfg: Config, ends: Endpoints, overwrite: bool, c: Content, before: Option<Node>)
    returns (ws: seq<World>, es: seq<Event>)
    requires cfg.maxTransfers > 0 && ends.Valid() && ends.direction.Download?
    requires Replaceable(overwrite, before, None)
    ensures IsRun(cfg, ws, es) && |es| > 0 && Lookup(ws[|es| - 1].nodes, ResourceKey(ends)) == before
    ensures var w := ws[|es|];
            && "a" in w.ops && w.ops["a"].ends == ends && w.ops["a"].overwrite == overwrite
            && w.ops["a"].rec.state.Completed? && w.ops["a"].sourceHash == Some(cfg.digest(c))
            && Lookup(w.nodes, ResourceKey(ends)) == Some(File(c)) && PartialOf(cfg, w, w.ops["a"]) == None
  {
    hide ResourceKey, PartialName, Moved;
    ws, es := Copied(cfg, ends, overwrite, c, before);
    ws, es := DownloadVerifies(cfg, ws, es, "a", c);
    var w := ws[|es|];
    DownloadExactly(cfg, w, "a", None, true, true);
    ws, es := Extend(cfg, ws, es, Body("a", DownloadChecked(None, true, true)),
                     Moved(cfg, w, "a", DownloadChecked(None, true, true)).value);
  }

  /** An upload whose destination gives way: it COMPLETES, and its bytes are at the
      destination in place of what was there before the script ran. */
  lemma UploadRun(cfg: Config, ends: Endpoints, overwrite: bool, c: Content, before: Option<Node>)
    returns (ws: seq<World>, es: seq<Event>)
    requires cfg.maxTransfers > 0 && ends.Valid() && ends.direction.Upload?
    requires Lands(overwrite, before)
    ensures IsRun(cfg, ws, es) && |es| > 1 && Lookup(ws[|es| - 2].nodes, ResourceKey(ends)) == before
    ensures var w := ws[|es|];
            && "a" in w.ops && w.ops["a"].ends == ends && w.ops["a"].overwrite == overwrite
            && w.ops["a"].rec.state.Completed? && w.ops["a"].sourceHash == Some(cfg.digest(c))
            && Lookup(w.nodes, ResourceKey(ends)) == Some(File(c))
  {
    hide ResourceKey, PartialName, Moved;
    ws, es := Copied(cfg, ends, overwrite, c, before);
    ws, es := UploadVerifies(cfg, ws, es, "a", c);
    var w := ws[|es|];
    ScriptExactly(cfg, w, "a", true, true);
    var ran := Moved(cfg, w, "a", ScriptRan(true, true)).value;
    ws, es := Extend(cfg, ws, es, Body("a", ScriptRan(true, true)), ran);
    ReturnExactly(cfg, ran, "a");
    ws, es := Extend(cfg, ws, es, Body("a", ScriptReturned), Moved(cfg, ran, "a", ScriptReturned).value);
  }
}
