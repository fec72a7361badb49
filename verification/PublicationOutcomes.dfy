/** How a transfer ends, event by event and in both directions: exactly when a
    publication succeeds, what is at the destination then, and which state each
    end of a task leads to (remote_ssh_mcp/transfers.py). */
module PublicationOutcomes {
  import opened Options
  import opened PartialNames
  import opened TransferWorld
  import opened TransferInvariant
  import opened TransferRuns
  import opened Publication
  import R = TransferRecords

  /** What there is at the destination of an operation. */
  function Destination(w: World, op: Operation): Option<Node> {
    Lookup(w.nodes, op.rec.key)
  }

  /** The same transfer, with the same source. */
  predicate SameTransfer(a: Operation, b: Operation) {
    && b.ends == a.ends && b.overwrite == a.overwrite && b.rec.key == a.rec.key
    && b.sourceHash == a.sourceHash && b.cancelRequested == a.cancelRequested
  }

  /** A body event as its effect. */
  lemma MovedBy(cfg: Config, w: World, id: string, b: BodyEvent)
    ensures Moved(cfg, w, id, b).Some?
            <==> id in w.ops && BodyEffect(cfg, w.ops[id], b, PartialOf(cfg, w, w.ops[id]), Destination(w, w.ops[id])).Some?
    ensures Moved(cfg, w, id, b).Some? ==>
              var op, w' := w.ops[id], Moved(cfg, w, id, b).value;
              var f := BodyEffect(cfg, op, b, PartialOf(cfg, w, op), Destination(w, op)).value;
              && id in w'.ops && PartialOf(cfg, w', op) == f.partial && Destination(w', op) == f.node
              && w'.ops[id].rec.state == (if f.state.Some? then f.state.value else f.op.rec.state)
              && w'.ops[id] == f.op.(rec := w'.ops[id].rec) && w'.ops[id].rec.key == f.op.rec.key
  {
    hide BodyEffect, PartialName;
  }

  // Uploads.

  /** The publication script has somewhere to put the partial: with `overwrite`
      anything but a directory gives way to it; without, only a free path does,
      though a directory takes the link inside. */
  predicate Accepts(overwrite: bool, node: Option<Node>) {
    match node
    case None => true
    case Some(File(_)) => overwrite
    case Some(Directory) => !overwrite
    case Some(LinkToDirectory) => true
    case Some(OtherLink) => overwrite
  }

  /** What is accepted ends up at the destination itself. */
  predicate Lands(overwrite: bool, node: Option<Node>) {
    Accepts(overwrite, node) && (overwrite || node.None?)
  }

  lemma ScriptEffect(cfg: Config, op: Operation, acts: bool, reports: bool, partial: Option<Content>, node: Option<Node>)
    requires op.at.Publishing? && op.scriptOk.None?
    ensures var f := BodyEffect(cfg, op, ScriptRan(acts, reports), partial, node);
            var runs := acts && partial.Some?;
            && f.Some? && f.value.state.None? && SameTransfer(op, f.value.op)
            && f.value.op.rec == op.rec && f.value.op.at == op.at
            && f.value.op.scriptOk == Some(runs && reports && Accepts(op.overwrite, node))
            && f.value.node == (if runs && Lands(op.overwrite, node) then Some(File(partial.value)) else node)
            && (f.value.partial.Some? <==> partial.Some? && !(acts && (Accepts(op.overwrite, node) || !op.overwrite)))
  {
    var b := ScriptRan(acts, reports);
    assert BodyEffect(cfg, op, b, partial, node) == ChildActs(cfg, op, b, partial, node);
    hide BodyEffect, RunScript, Accepts;
    if acts && partial.Some? {
      assert ChildActs(cfg, op, b, partial, node) == Some(RunScript(op, partial.value, node, reports));
      RunScriptEffect(op, partial.value, node, reports);
      hide ChildActs;
    }
  }

  lemma RunScriptEffect(op: Operation, c: Content, node: Option<Node>, reports: bool)
    ensures var f := RunScript(op, c, node, reports);
            && f.state.None? && SameTransfer(op, f.op) && f.op.rec == op.rec && f.op.at == op.at
            && f.op.scriptOk == Some(reports && Accepts(op.overwrite, node))
            && f.node == (if Lands(op.overwrite, node) then Some(File(c)) else node)
            && (f.partial.Some? <==> !Accepts(op.overwrite, node) && op.overwrite)
  {
    var f := RunScript(op, c, node, reports);
    if Lands(op.overwrite, node) {
      assert f == Effect(op.(scriptOk := Some(reports), published := Some(c)), None, None, Some(File(c)));
    } else if Accepts(op.overwrite, node) {
      assert f == Effect(op.(scriptOk := Some(reports), linkedInside := true), None, None, node);
    } else if op.overwrite {
      assert f == Effect(op.(scriptOk := Some(false)), None, Some(c), node);
    } else {
      assert f == Effect(op.(scriptOk := Some(false)), None, None, node);
    }
    hide RunScript;
  }

  /** The publication script succeeds exactly if it gets to act, on a partial that
      is there, finds a destination that accepts it, and its status arrives. What
      lands is then at the destination; nothing else changes there. */
  lemma ScriptExactly(cfg: Config, w: World, id: string, acts: bool, reports: bool)
    ensures Moved(cfg, w, id, ScriptRan(acts, reports)).Some?
            <==> id in w.ops && w.ops[id].at.Publishing? && w.ops[id].scriptOk.None?
    ensures Moved(cfg, w, id, ScriptRan(acts, reports)).Some? ==>
              var op, w' := w.ops[id], Moved(cfg, w, id, ScriptRan(acts, reports)).value;
              var partial, node := PartialOf(cfg, w, op), Destination(w, op);
              && id in w'.ops && SameTransfer(op, w'.ops[id]) && w'.ops[id].at.Publishing? && w'.ops[id].rec.state == op.rec.state
              && w'.ops[id].scriptOk == Some(acts && partial.Some? && Accepts(op.overwrite, node) && reports)
              && Destination(w', op)
                 == (if acts && partial.Some? && Lands(op.overwrite, node) then Some(File(partial.value)) else node)
  {
    var b := ScriptRan(acts, reports);
    MovedBy(cfg, w, id, b);
    hide Moved, PartialOf, Accepts, Lands;
    if id in w.ops {
      var op := w.ops[id];
      if op.at.Publishing? && op.scriptOk.None? {
        ScriptEffect(cfg, op, acts, reports, PartialOf(cfg, w, op), Destination(w, op));
        hide BodyEffect;
      }
    }
  }

  /** The comparison of an upload's hashes decides whether it goes on to publish
      or fails. */
  lemma UploadCheckExactly(cfg: Config, w: World, id: string)
    ensures Moved(cfg, w, id, UploadChecked).Some?
            <==> id in w.ops && w.ops[id].at.HashPartial? && w.ops[id].ends.direction.Upload? && !w.ops[id].cancelRequested
                 && w.ops[id].partialHash.Some? && w.ops[id].sourceHash.Some?
    ensures Moved(cfg, w, id, UploadChecked).Some? ==>
              var op, w' := w.ops[id], Moved(cfg, w, id, UploadChecked).value;
              && id in w'.ops && Destination(w', op) == Destination(w, op) && PartialOf(cfg, w', op) == PartialOf(cfg, w, op)
              && (op.partialHash == op.sourceHash ==> w'.ops[id] == op.(at := Publishing))
              && (op.partialHash != op.sourceHash ==> w'.ops[id].at.Done? && w'.ops[id].rec.state.Failed?)
  {
    MovedBy(cfg, w, id, UploadChecked);
    if id in w.ops {
      CheckEffect(cfg, w.ops[id], PartialOf(cfg, w, w.ops[id]), Destination(w, w.ops[id]));
      if w.ops[id].partialHash == w.ops[id].sourceHash {
        QuietMove(cfg, w, id, UploadChecked);
      }
    }
    hide Moved, BodyEffect, PartialOf;
  }

  /** An event that leaves the state leaves the whole record. */
  lemma QuietMove(cfg: Config, w: World, id: string, b: BodyEvent)
    requires id in w.ops
    requires var f := BodyEffect(cfg, w.ops[id], b, PartialOf(cfg, w, w.ops[id]), Destination(w, w.ops[id]));
             f.Some? ==> f.value.state.None?
    ensures Moved(cfg, w, id, b).Some? ==>
              Moved(cfg, w, id, b).value.ops[id]
              == BodyEffect(cfg, w.ops[id], b, PartialOf(cfg, w, w.ops[id]), Destination(w, w.ops[id])).value.op
  {
    hide BodyEffect, PartialName;
  }

  lemma CheckEffect(cfg: Config, op: Operation, partial: Option<Content>, node: Option<Node>)
    ensures var f := BodyEffect(cfg, op, UploadChecked, partial, node);
            && (f.Some? <==> op.at.HashPartial? && op.ends.direction.Upload? && !op.cancelRequested
                             && op.partialHash.Some? && op.sourceHash.Some?)
            && (f.Some? && op.partialHash == op.sourceHash ==> f.value == Effect(op.(at := Publishing), None, partial, node))
            && (f.Some? && op.partialHash != op.sourceHash ==> f.value == Effect(op.(at := Done), Some(R.Failed), partial, node))
  {
  }

  /** The script's status is the upload's fate. */
  lemma ReturnExactly(cfg: Config, w: World, id: string)
    ensures Moved(cfg, w, id, ScriptReturned).Some?
            <==> id in w.ops && w.ops[id].at.Publishing? && w.ops[id].scriptOk.Some? && !w.ops[id].cancelRequested
    ensures Moved(cfg, w, id, ScriptReturned).Some? ==>
              var op, w' := w.ops[id], Moved(cfg, w, id, ScriptReturned).value;
              && id in w'.ops && SameTransfer(op, w'.ops[id])
              && w'.ops[id].at.Done? && Destination(w', op) == Destination(w, op)
              && w'.ops[id].rec.state == (if op.scriptOk.value then R.Completed else R.Failed)
  {
    MovedBy(cfg, w, id, ScriptReturned);
    if id in w.ops {
      ReturnEffect(cfg, w.ops[id], PartialOf(cfg, w, w.ops[id]), Destination(w, w.ops[id]));
    }
    hide Moved, BodyEffect, PartialOf;
  }

  lemma ReturnEffect(cfg: Config, op: Operation, partial: Option<Content>, node: Option<Node>)
    ensures var f := BodyEffect(cfg, op, ScriptReturned, partial, node);
            && (f.Some? <==> op.at.Publishing? && op.scriptOk.Some? && !op.cancelRequested)
            && (f.Some? ==> f.value == Effect(op.(at := Done), Some(if op.scriptOk.value then R.Completed else R.Failed), partial, node))
  {
  }

  // Downloads.

  /** A download may be put at its destination: with `overwrite` in place of
      nothing or of a plain file, without only at a free path, and never over
      what appeared there after it was looked at, unless that can be replaced. */
  predicate Replaceable(overwrite: bool, node: Option<Node>, raced: Option<Node>) {
    match node
    case None => if overwrite then raced != Some(Directory) else raced.None?
    case Some(File(_)) => overwrite
    case Some(_) => false
  }

  lemma DownloadEffect(op: Operation, c: Content, node: Option<Node>, raced: Option<Node>, ioOk: bool, unlinkOk: bool)
    ensures var f := PublishDownload(op, c, node, raced, ioOk, unlinkOk);
            var lands := ioOk && Replaceable(op.overwrite, node, raced);
            && f.op.at.Done? && SameTransfer(op, f.op)
            && f.state == Some(if lands && (op.overwrite || unlinkOk) then R.Completed else R.Failed)
            && f.node == (if lands then Some(File(c)) else if node.None? then raced else node)
            && f.partial == (if lands && (op.overwrite || unlinkOk) then None else Some(c))
  {
  }

  lemma CompareEffect(cfg: Config, op: Operation, b: BodyEvent, partial: Option<Content>, node: Option<Node>)
    requires b.DownloadChecked?
    ensures var f := BodyEffect(cfg, op, b, partial, node);
            && (f.Some? <==> op.at.HashPartial? && op.ends.direction.Download? && !op.cancelRequested
                             && op.partialHash.Some? && op.sourceHash.Some? && partial.Some?)
            && (f.Some? && op.partialHash != op.sourceHash ==> f.value == Effect(op.(at := Done), Some(R.Failed), partial, node))
            && (f.Some? && op.partialHash == op.sourceHash ==>
                  f.value == PublishDownload(op, partial.value, node, b.raced, b.ioOk, b.unlinkOk))
  {
    hide PublishDownload;
  }

  /** A download ends COMPLETED exactly if its hashes agree, its destination may be
      replaced, and the system calls succeed; its bytes are then at the destination
      and its partial is gone. They are there too if only the last `unlink` failed.
      Otherwise the partial is kept and nothing is put at the destination. */
  lemma DownloadExactly(cfg: Config, w: World, id: string, raced: Option<Node>, ioOk: bool, unlinkOk: bool)
    ensures Moved(cfg, w, id, DownloadChecked(raced, ioOk, unlinkOk)).Some?
            <==> id in w.ops && w.ops[id].at.HashPartial? && w.ops[id].ends.direction.Download? && !w.ops[id].cancelRequested
                 && w.ops[id].partialHash.Some? && w.ops[id].sourceHash.Some? && PartialOf(cfg, w, w.ops[id]).Some?
    ensures Moved(cfg, w, id, DownloadChecked(raced, ioOk, unlinkOk)).Some? ==>
              var op, w' := w.ops[id], Moved(cfg, w, id, DownloadChecked(raced, ioOk, unlinkOk)).value;
              var partial, node := PartialOf(cfg, w, op), Destination(w, op);
              var equal := op.partialHash == op.sourceHash;
              var lands := equal && ioOk && Replaceable(op.overwrite, node, raced);
              && id in w'.ops && SameTransfer(op, w'.ops[id]) && w'.ops[id].at.Done?
              && w'.ops[id].rec.state == (if lands && (op.overwrite || unlinkOk) then R.Completed else R.Failed)
              && (lands ==> Destination(w', op) == Some(File(partial.value)))
              && (!lands ==> Destination(w', op) == (if equal && node.None? then raced else node))
              && PartialOf(cfg, w', op) == (if lands && (op.overwrite || unlinkOk) then None else partial)
  {
    var b := DownloadChecked(raced, ioOk, unlinkOk);
    MovedBy(cfg, w, id, b);
    hide Moved, PartialOf, Replaceable;
    if id in w.ops {
      var op := w.ops[id];
      var partial, node := PartialOf(cfg, w, op), Destination(w, op);
      CompareEffect(cfg, op, b, partial, node);
      if partial.Some? {
        DownloadEffect(op, partial.value, node, raced, ioOk, unlinkOk);
        assert Moved(cfg, w, id, b).Some? && op.partialHash == op.sourceHash ==>
            SameTransfer(op, Moved(cfg, w, id, b).value.ops[id]);
      }
      hide SameTransfer;
    }
    hide BodyEffect, PublishDownload;
  }

  // Cancellations and failures.

  /** Cancelling while rsync runs does not end the task: it first kills rsync. */
  predicate KillsRsync(op: Operation) {
    op.at.Copying? && op.rsyncAlive
  }

  lemma CancelEffect(op: Operation, partial: Option<Content>, node: Option<Node>)
    ensures var f := Cancel(op, partial, node);
            && (f.Some? <==> op.cancelRequested && !op.at.Done?)
            && (f.Some? ==>
                  && f.value.partial == partial && f.value.node == node && f.value.op.rec == op.rec
                  && f.value.op.scriptOk == op.scriptOk
                  && f.value.op.at == (if KillsRsync(op) then Terminating else Done)
                  && f.value.op.rsyncAlive == op.rsyncAlive
                  && f.value.op.cancelRequested == !KillsRsync(op)
                  && f.value.state == (if op.at.Created? || KillsRsync(op) then None else Some(R.Cancelled)))
  {
    if op.at.Created? {
      assert Cancel(op, partial, node).Some? ==> Cancel(op, partial, node) == Some(Effect(op.(at := Done), None, partial, node));
    } else if KillsRsync(op) {
      assert Cancel(op, partial, node).Some? ==>
          Cancel(op, partial, node) == Some(Effect(op.(at := Terminating, cancelRequested := false), None, partial, node));
    } else {
      var again := op.at.Terminating? && op.rsyncAlive;
      assert Cancel(op, partial, node).Some? ==>
          Cancel(op, partial, node) == Some(Effect(op.(at := Done, recancelled := again), Some(R.Cancelled), partial, node));
    }
    assert Cancel(op, partial, node).Some? <==> op.cancelRequested && !op.at.Done?;
    hide Cancel;
  }

  /** A requested cancellation reaches a task wherever it waits, and leaves every
      file alone. It ends the operation CANCELLED, but for two points: before the
      first statement the task is over with no state set, and while rsync runs the
      task goes on to kill it, and may be cancelled again. */
  lemma CancellationExactly(cfg: Config, w: World, id: string)
    ensures Moved(cfg, w, id, CancelDelivered).Some? <==> id in w.ops && w.ops[id].cancelRequested && !w.ops[id].at.Done?
    ensures Moved(cfg, w, id, CancelDelivered).Some? ==>
              var op, w' := w.ops[id], Moved(cfg, w, id, CancelDelivered).value;
              && id in w'.ops && PartialOf(cfg, w', op) == PartialOf(cfg, w, op) && Destination(w', op) == Destination(w, op)
              && w'.ops[id].at == (if KillsRsync(op) then Terminating else Done)
              && w'.ops[id].cancelRequested == !KillsRsync(op)
              && w'.ops[id].rsyncAlive == op.rsyncAlive
              && w'.ops[id].rec.state == (if op.at.Created? || KillsRsync(op) then op.rec.state else R.Cancelled)
  {
    MovedBy(cfg, w, id, CancelDelivered);
    if id in w.ops {
      CancelEffect(w.ops[id], PartialOf(cfg, w, w.ops[id]), Destination(w, w.ops[id]));
    }
    hide Moved, Cancel, PartialOf;
  }

  lemma EndEffects(cfg: Config, op: Operation, partial: Option<Content>, node: Option<Node>)
    ensures var f := BodyEffect(cfg, op, Raised, partial, node);
            && (f.Some? <==> !op.cancelRequested && !op.at.Created? && !op.at.Done? && !op.at.Terminating? && !KillsRsync(op))
            && (f.Some? ==> f.value == Effect(op.(at := Done), Some(R.Failed), partial, node))
    ensures var f := BodyEffect(cfg, op, Terminated, partial, node);
            && (f.Some? <==> !op.cancelRequested && op.at.Terminating? && !op.rsyncAlive)
            && (f.Some? ==> f.value == Effect(op.(at := Done), Some(R.Cancelled), partial, node))
  {
  }

  /** An error at any point of the body ends the operation FAILED, and the end of a
      killed rsync ends it CANCELLED; neither touches a file, so the partial is
      there for a later attempt. */
  lemma ErrorsExactly(cfg: Config, w: World, id: string, b: BodyEvent)
    requires b.Raised? || b.Terminated?
    ensures Moved(cfg, w, id, b).Some?
            <==> && id in w.ops && !w.ops[id].cancelRequested
                 && (if b.Raised?
                     then !w.ops[id].at.Created? && !w.ops[id].at.Done? && !w.ops[id].at.Terminating? && !KillsRsync(w.ops[id])
                     else w.ops[id].at.Terminating? && !w.ops[id].rsyncAlive)
    ensures Moved(cfg, w, id, b).Some? ==>
              var op, w' := w.ops[id], Moved(cfg, w, id, b).value;
              && id in w'.ops && PartialOf(cfg, w', op) == PartialOf(cfg, w, op) && Destination(w', op) == Destination(w, op)
              && w'.ops[id].at.Done? && w'.ops[id].rec.state == (if b.Raised? then R.Failed else R.Cancelled)
  {
    MovedBy(cfg, w, id, b);
    if id in w.ops {
      EndEffects(cfg, w.ops[id], PartialOf(cfg, w, w.ops[id]), Destination(w, w.ops[id]));
    }
    hide Moved, BodyEffect, PartialOf;
  }

  // The copy and the partial.

  lemma CopyEffects(cfg: Config, op: Operation, ok: bool, partial: Option<Content>, node: Option<Node>)
    ensures var f := BodyEffect(cfg, op, RsyncExited(ok), partial, node);
            && (f.Some? <==> op.rsyncAlive)
            && (f.Some? ==> f.value == Effect(op.(rsyncAlive := false, rsyncOk := ok), None, partial, node))
    ensures var f := BodyEffect(cfg, op, Copied, partial, node);
            && (f.Some? <==> !op.cancelRequested && op.at.Copying? && !op.rsyncAlive && op.rsyncOk
                             && (op.ends.direction.Download? ==> partial.Some?))
            && (f.Some? ==> f.value.state == Some(R.Verifying) && f.value.partial == partial && f.value.node == node
                            && f.value.op == op.(at := if op.ends.direction.Download? then HashSource else HashPartial))
  {
  }

  /** A transfer goes on to verify exactly once its rsync is gone with exit status 0
      and, for a download, has left a partial. */
  lemma CopyExactly(cfg: Config, w: World, id: string, ok: bool)
    ensures Moved(cfg, w, id, RsyncExited(ok)).Some? <==> id in w.ops && w.ops[id].rsyncAlive
    ensures Moved(cfg, w, id, RsyncExited(ok)).Some? ==>
              var op, op' := w.ops[id], Moved(cfg, w, id, RsyncExited(ok)).value.ops[id];
              !op'.rsyncAlive && op'.rsyncOk == ok && op'.at == op.at && op'.rec.state == op.rec.state
    ensures Moved(cfg, w, id, Copied).Some?
            <==> id in w.ops && !w.ops[id].cancelRequested && w.ops[id].at.Copying? && !w.ops[id].rsyncAlive && w.ops[id].rsyncOk
                 && (w.ops[id].ends.direction.Download? ==> PartialOf(cfg, w, w.ops[id]).Some?)
    ensures Moved(cfg, w, id, Copied).Some? ==> Moved(cfg, w, id, Copied).value.ops[id].rec.state.Verifying?
  {
    MovedBy(cfg, w, id, RsyncExited(ok));
    MovedBy(cfg, w, id, Copied);
    if id in w.ops {
      CopyEffects(cfg, w.ops[id], ok, PartialOf(cfg, w, w.ops[id]), Destination(w, w.ops[id]));
    }
    hide Moved, BodyEffect, PartialOf;
  }

  /** What an event of an operation, other than a publication, leaves of its partial:
      what its rsync wrote last, or nothing if it was found too long. */
  function PartialAfter(op: Operation, b: BodyEvent, partial: Option<Content>): Option<Content> {
    match b
    case RsyncWrote(c) => Some(c)
    case Stated(trim) => if trim && op.ends.direction.Download? then None else partial
    case Prepared(trim) => if trim then None else partial
    case _ => partial
  }

  lemma ChildPartial(cfg: Config, op: Operation, b: BodyEvent, partial: Option<Content>, node: Option<Node>)
    requires !b.ScriptRan? && ChildActs(cfg, op, b, partial, node).Some?
    ensures ChildActs(cfg, op, b, partial, node).value.partial == PartialAfter(op, b, partial)
  {
  }

  lemma PreparationPartial(op: Operation, b: BodyEvent, partial: Option<Content>, node: Option<Node>)
    requires Prepare(op, b, partial, node).Some?
    ensures Prepare(op, b, partial, node).value.partial == PartialAfter(op, b, partial)
  {
  }

  lemma ConcludePartial(op: Operation, b: BodyEvent, partial: Option<Content>, node: Option<Node>)
    requires !b.DownloadChecked? && Conclude(op, b, partial, node).Some?
    ensures Conclude(op, b, partial, node).value.partial == PartialAfter(op, b, partial)
  {
  }

  lemma EffectPartial(cfg: Config, op: Operation, b: BodyEvent, partial: Option<Content>, node: Option<Node>)
    requires !b.ScriptRan? && !b.DownloadChecked? && BodyEffect(cfg, op, b, partial, node).Some?
    ensures BodyEffect(cfg, op, b, partial, node).value.partial == PartialAfter(op, b, partial)
  {
    hide ChildActs, Cancel, Prepare, Conclude;
    if b.RsyncWrote? || b.RsyncExited? || b.PartialHashed? {
      ChildPartial(cfg, op, b, partial, node);
    } else if b.CancelDelivered? {
      CancelEffect(op, partial, node);
    } else if Prepare(op, b, partial, node).Some? {
      PreparationPartial(op, b, partial, node);
    } else {
      ConcludePartial(op, b, partial, node);
    }
  }

  /** What rsync can resume from survives everything but a publication, and a check
      that finds it longer than the source. */
  lemma PartialKept(cfg: Config, w: World, id: string, b: BodyEvent)
    requires Moved(cfg, w, id, b).Some? && !b.ScriptRan? && !b.DownloadChecked?
    ensures id in w.ops && PartialOf(cfg, Moved(cfg, w, id, b).value, w.ops[id]) == PartialAfter(w.ops[id], b, PartialOf(cfg, w, w.ops[id]))
  {
    MovedBy(cfg, w, id, b);
    EffectPartial(cfg, w.ops[id], b, PartialOf(cfg, w, w.ops[id]), Destination(w, w.ops[id]));
    hide Moved, BodyEffect, PartialOf;
  }

  // Over runs.

  lemma OthersKeepScript(cfg: Config, w: World, id: string, b: BodyEvent, i: string)
    requires Moved(cfg, w, id, b).Some? && i in w.ops && i != id
    ensures i in Moved(cfg, w, id, b).value.ops && Moved(cfg, w, id, b).value.ops[i].scriptOk == w.ops[i].scriptOk
  {
    hide BodyEffect;
  }

  lemma ChildKeepsScript(cfg: Config, op: Operation, b: BodyEvent, partial: Option<Content>, node: Option<Node>)
    requires op.scriptOk.Some? && ChildActs(cfg, op, b, partial, node).Some?
    ensures ChildActs(cfg, op, b, partial, node).value.op.scriptOk == op.scriptOk
  {
    var f := ChildActs(cfg, op, b, partial, node).value;
    hide RunScript;
    assert f.op.scriptOk == op.scriptOk;
    hide ChildActs;
  }

  lemma PrepareKeepsScript(op: Operation, b: BodyEvent, partial: Option<Content>, node: Option<Node>)
    requires Prepare(op, b, partial, node).Some?
    ensures Prepare(op, b, partial, node).value.op.scriptOk == op.scriptOk
  {
    if b.SourceHashed? {
      HashKeepsScript(op, b, partial, node);
    } else if b.Spawned? {
      SpawnKeepsScript(op, b, partial, node);
    } else {
      PointKeepsScript(op, b, partial, node);
    }
    hide Prepare;
  }

  lemma HashKeepsScript(op: Operation, b: BodyEvent, partial: Option<Content>, node: Option<Node>)
    requires b.SourceHashed? && Prepare(op, b, partial, node).Some?
    ensures Prepare(op, b, partial, node).value.op.scriptOk == op.scriptOk
  {
  }

  lemma SpawnKeepsScript(op: Operation, b: BodyEvent, partial: Option<Content>, node: Option<Node>)
    requires b.Spawned? && Prepare(op, b, partial, node).Some?
    ensures Prepare(op, b, partial, node).value.op.scriptOk == op.scriptOk
  {
  }

  lemma PointKeepsScript(op: Operation, b: BodyEvent, partial: Option<Content>, node: Option<Node>)
    requires !b.SourceHashed? && !b.Spawned? && Prepare(op, b, partial, node).Some?
    ensures Prepare(op, b, partial, node).value.op.scriptOk == op.scriptOk
  {
    var f := Prepare(op, b, partial, node).value;
    if b.Begin? {
      assert f.op == op.(at := StatSource);
    } else if b.Stated? {
      var next := if op.ends.direction.Download? then FreeSpace else if op.overwrite then PreparePartial else CheckDestination;
      assert f.op == op.(at := next);
    } else if b.SpaceFound? {
      assert f.op == op.(at := ReadyMaster);
    } else if b.DestinationAbsent? {
      assert f.op == op.(at := PreparePartial);
    } else {
      assert f.op == op.(at := HashSource);
    }
    hide Prepare;
  }

  lemma CompareKeepsScript(op: Operation, b: BodyEvent, partial: Option<Content>, node: Option<Node>)
    requires b.DownloadChecked? && Conclude(op, b, partial, node).Some?
    ensures Conclude(op, b, partial, node).value.op.scriptOk == op.scriptOk
  {
    PublishKeepsScript(op, partial.value, node, b.raced, b.ioOk, b.unlinkOk);
    hide PublishDownload;
  }

  lemma CopiedKeepsScript(op: Operation, b: BodyEvent, partial: Option<Content>, node: Option<Node>)
    requires (b.Copied? || b.UploadChecked?) && Conclude(op, b, partial, node).Some?
    ensures Conclude(op, b, partial, node).value.op.scriptOk == op.scriptOk
  {
    if b.Copied? {
      var at := if op.ends.direction.Download? then HashSource else HashPartial;
      assert Conclude(op, b, partial, node) == Some(Effect(op.(at := at), Some(R.Verifying), partial, node));
    } else if op.partialHash != op.sourceHash {
      assert Conclude(op, b, partial, node) == Some(Effect(op.(at := Done), Some(R.Failed), partial, node));
    } else {
      assert Conclude(op, b, partial, node) == Some(Effect(op.(at := Publishing), None, partial, node));
    }
    hide Conclude;
  }

  lemma EndKeepsScript(op: Operation, b: BodyEvent, partial: Option<Content>, node: Option<Node>)
    requires !b.DownloadChecked? && !b.Copied? && !b.UploadChecked? && Conclude(op, b, partial, node).Some?
    ensures Conclude(op, b, partial, node).value.op.scriptOk == op.scriptOk
  {
    assert Conclude(op, b, partial, node).value.op == op.(at := Done);
    hide Conclude;
  }

  lemma ConcludeKeepsScript(op: Operation, b: BodyEvent, partial: Option<Content>, node: Option<Node>)
    requires Conclude(op, b, partial, node).Some?
    ensures Conclude(op, b, partial, node).value.op.scriptOk == op.scriptOk
  {
    hide Conclude;
    if b.DownloadChecked? {
      CompareKeepsScript(op, b, partial, node);
    } else if b.Copied? || b.UploadChecked? {
      CopiedKeepsScript(op, b, partial, node);
    } else {
      EndKeepsScript(op, b, partial, node);
    }
  }

  lemma PublishKeepsScript(op: Operation, c: Content, node: Option<Node>, raced: Option<Node>, ioOk: bool, unlinkOk: bool)
    ensures PublishDownload(op, c, node, raced, ioOk, unlinkOk).op.scriptOk == op.scriptOk
  {
  }

  lemma EffectKeepsScript(cfg: Config, op: Operation, b: BodyEvent, partial: Option<Content>, node: Option<Node>)
    requires op.scriptOk.Some? && BodyEffect(cfg, op, b, partial, node).Some?
    ensures BodyEffect(cfg, op, b, partial, node).value.op.scriptOk == op.scriptOk
  {
    hide ChildActs, Cancel, Prepare, Conclude;
    if b.RsyncWrote? || b.RsyncExited? || b.PartialHashed? || b.ScriptRan? {
      ChildKeepsScript(cfg, op, b, partial, node);
    } else if b.CancelDelivered? {
      CancelEffect(op, partial, node);
    } else if Prepare(op, b, partial, node).Some? {
      PrepareKeepsScript(op, b, partial, node);
    } else {
      ConcludeKeepsScript(op, b, partial, node);
    }
  }

  /** The script runs once. */
  lemma ScriptStays(cfg: Config, w: World, e: Event, id: string)
    requires Inv(cfg, w) && Next(cfg, w, e).Some? && id in w.ops && w.ops[id].scriptOk.Some?
    ensures id in Next(cfg, w, e).value.ops && Next(cfg, w, e).value.ops[id].scriptOk == w.ops[id].scriptOk
  {
    if e.Body? {
      assert Next(cfg, w, e) == Moved(cfg, w, e.id, e.b);
      hide Next, Inv;
      if e.id == id {
        MovedBy(cfg, w, id, e.b);
        EffectKeepsScript(cfg, w.ops[id], e.b, PartialOf(cfg, w, w.ops[id]), Destination(w, w.ops[id]));
      } else {
        OthersKeepScript(cfg, w, e.id, e.b, id);
      }
      hide Moved, BodyEffect, PartialOf;
    } else {
      QuietNext(cfg, w, e);
      hide Next, Inv;
    }
  }

  lemma {:induction false} ScriptStaysRun(cfg: Config, ws: seq<World>, es: seq<Event>, i: nat, j: nat, id: string)
    requires IsRun(cfg, ws, es) && i <= j < |ws| && id in ws[i].ops && ws[i].ops[id].scriptOk.Some?
    ensures id in ws[j].ops && ws[j].ops[id].scriptOk == ws[i].ops[id].scriptOk
  {
    if i < j {
      ScriptStaysRun(cfg, ws, es, i, j - 1, id);
      RunInv(cfg, ws, es, j - 1);
      RunStep(cfg, ws, es, j - 1);
      hide Inv, Next, Named;
      ScriptStays(cfg, ws[j - 1], es[j - 1], id);
    }
  }

  /** In every run: an upload whose publication script ran at step `i` and whose
      task took note at step `j` ends COMPLETED exactly if the script acted on its
      partial, found a destination that accepts it, and its status arrived, and
      FAILED otherwise; what lands was at the destination right after the script. */
  lemma UploadEndsExactly(cfg: Config, ws: seq<World>, es: seq<Event>, i: nat, j: nat, id: string, acts: bool, reports: bool)
    requires IsRun(cfg, ws, es) && i < j < |es|
    requires es[i] == Body(id, ScriptRan(acts, reports)) && es[j] == Body(id, ScriptReturned)
    ensures id in ws[i].ops && id in ws[j + 1].ops
    ensures var op := ws[i].ops[id];
            var partial, node := PartialOf(cfg, ws[i], op), Destination(ws[i], op);
            && ws[j + 1].ops[id].rec.state
               == (if acts && partial.Some? && Accepts(op.overwrite, node) && reports then R.Completed else R.Failed)
            && Destination(ws[i + 1], op)
               == (if acts && partial.Some? && Lands(op.overwrite, node) then Some(File(partial.value)) else node)
  {
    RunStep(cfg, ws, es, i);
    RunStep(cfg, ws, es, j);
    assert Next(cfg, ws[i], es[i]) == Moved(cfg, ws[i], id, ScriptRan(acts, reports));
    assert Next(cfg, ws[j], es[j]) == Moved(cfg, ws[j], id, ScriptReturned);
    hide Next, Moved, Accepts, Lands, PartialOf;
    ScriptExactly(cfg, ws[i], id, acts, reports);
    ReturnExactly(cfg, ws[j], id);
    ScriptStaysRun(cfg, ws, es, i + 1, j, id);
  }
}
