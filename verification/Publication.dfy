/** What a transfer puts at its destination (remote_ssh_mcp/transfers.py). */
module Publication {
  import opened Options
  import opened PartialNames
  import opened TransferWorld
  import opened TransferInvariant
  import opened TransferSteps
  import opened TransferRuns
  import R = TransferRecords

  /** The partial on disk has the hash that was taken of it. */
  predicate HashStands(cfg: Config, op: Operation, partial: Option<Content>) {
    op.partialHash.Some? && !op.tainted ==> partial.Some? && op.partialHash.value == cfg.digest(partial.value)
  }

  /** Something was put at the destination: bytes with the source's hash, or a
      link inside a directory found there. */
  predicate Delivered(cfg: Config, op: Operation) {
    && op.sourceHash.Some?
    && (op.published.Some? <==> !op.linkedInside)
    && (op.published.Some? && !op.tainted ==> op.sourceHash.value == cfg.digest(op.published.value))
  }

  /** How far publication has got, for an operation in state `s` whose partial
      file holds `partial`. */
  predicate PublicationFits(cfg: Config, op: Operation, s: R.State, partial: Option<Content>) {
    && (op.linkedInside ==> op.ends.direction.Upload? && !op.overwrite)
    && (op.at.HashPartial? ==> HashStands(cfg, op, partial))
    && (op.at.Publishing? ==> op.sourceHash.Some? && op.partialHash == op.sourceHash)
    && (op.at.Publishing? && op.scriptOk.None? ==> HashStands(cfg, op, partial))
    && (op.at.Publishing? && op.scriptOk == Some(true) ==> Delivered(cfg, op))
    && (s.Completed? ==> Delivered(cfg, op))
    && (op.published.Some? ==> s.Final() || op.at.Publishing?)
    && (op.linkedInside ==> s.Final() || op.at.Publishing?)
    && (op.at.Publishing? && op.scriptOk.None? ==> op.published.None? && !op.linkedInside)
    && (op.partialHash.Some? ==> op.at.HashPartial? || op.at.Publishing? || op.at.Done?)
    && (op.scriptOk.Some? ==> op.at.Publishing? || op.at.Done?)
    && (op.ends.direction.Download? && s.Cancelled? ==> op.published.None? && !op.linkedInside)
  }

  /** The effect keeps its own operation's publication in order. */
  predicate EffectPublishes(cfg: Config, op: Operation, f: Effect) {
    PublicationFits(cfg, f.op, if f.state.Some? then f.state.value else op.rec.state, f.partial)
  }

  lemma PreparePublishes(cfg: Config, op: Operation, b: BodyEvent, partial: Option<Content>, node: Option<Node>)
    requires TaskFits(op, op.rec.state) && PublicationFits(cfg, op, op.rec.state, partial)
    requires Prepare(op, b, partial, node).Some?
    ensures EffectPublishes(cfg, op, Prepare(op, b, partial, node).value)
  {
  }

  lemma DownloadPublishes(cfg: Config, op: Operation, content: Content, node: Option<Node>, raced: Option<Node>, ioOk: bool, unlinkOk: bool)
    requires TaskFits(op, op.rec.state) && PublicationFits(cfg, op, op.rec.state, Some(content))
    requires op.at.HashPartial? && op.ends.direction.Download?
    requires op.partialHash.Some? && op.partialHash == op.sourceHash
    ensures EffectPublishes(cfg, op, PublishDownload(op, content, node, raced, ioOk, unlinkOk))
  {
  }

  lemma ConcludePublishes(cfg: Config, op: Operation, b: BodyEvent, partial: Option<Content>, node: Option<Node>)
    requires TaskFits(op, op.rec.state) && PublicationFits(cfg, op, op.rec.state, partial)
    requires Conclude(op, b, partial, node).Some?
    ensures EffectPublishes(cfg, op, Conclude(op, b, partial, node).value)
  {
    if b.DownloadChecked? {
      if op.partialHash == op.sourceHash {
        DownloadPublishes(cfg, op, partial.value, node, b.raced, b.ioOk, b.unlinkOk);
      }
    }
  }

  lemma ScriptPublishes(cfg: Config, op: Operation, content: Content, node: Option<Node>, reports: bool)
    requires TaskFits(op, op.rec.state) && PublicationFits(cfg, op, op.rec.state, Some(content))
    requires op.at.Publishing? && op.scriptOk.None?
    ensures EffectPublishes(cfg, op, RunScript(op, content, node, reports))
  {
  }

  lemma ChildActsPublish(cfg: Config, op: Operation, b: BodyEvent, partial: Option<Content>, node: Option<Node>)
    requires TaskFits(op, op.rec.state) && PublicationFits(cfg, op, op.rec.state, partial)
    requires ChildActs(cfg, op, b, partial, node).Some?
    ensures EffectPublishes(cfg, op, ChildActs(cfg, op, b, partial, node).value)
  {
    if b.ScriptRan? {
      if b.acts && partial.Some? {
        ScriptPublishes(cfg, op, partial.value, node, b.reports);
      }
    }
  }

  lemma CancelPublishes(cfg: Config, op: Operation, partial: Option<Content>, node: Option<Node>)
    requires TaskFits(op, op.rec.state) && PublicationFits(cfg, op, op.rec.state, partial)
    requires Cancel(op, partial, node).Some?
    ensures EffectPublishes(cfg, op, Cancel(op, partial, node).value)
  {
  }

  lemma BodyPublishes(cfg: Config, op: Operation, b: BodyEvent, partial: Option<Content>, node: Option<Node>)
    requires TaskFits(op, op.rec.state) && PublicationFits(cfg, op, op.rec.state, partial)
    requires BodyEffect(cfg, op, b, partial, node).Some?
    ensures EffectPublishes(cfg, op, BodyEffect(cfg, op, b, partial, node).value)
  {
    if b.RsyncWrote? || b.RsyncExited? || b.PartialHashed? || b.ScriptRan? {
      ChildActsPublish(cfg, op, b, partial, node);
    } else if b.CancelDelivered? {
      CancelPublishes(cfg, op, partial, node);
    } else if Prepare(op, b, partial, node).Some? {
      PreparePublishes(cfg, op, b, partial, node);
    } else {
      ConcludePublishes(cfg, op, b, partial, node);
    }
  }

  ghost predicate PublicationOk(cfg: Config, w: World) {
    forall id | id in w.ops :: PublicationFits(cfg, w.ops[id], w.ops[id].rec.state, PartialOf(cfg, w, w.ops[id]))
  }

  /** The digest tells all these operations' names apart. */
  ghost predicate NoCollision(cfg: Config, w: World) {
    forall i, j | i in w.ops && j in w.ops :: DigestSeparates(cfg.token, w.ops[i].ends, w.ops[j].ends)
  }

  /** A tainted operation shares its partial with one whose rsync was left
      running when it was cancelled twice. */
  ghost predicate TaintExplained(cfg: Config, w: World) {
    forall i | i in w.ops && w.ops[i].tainted :: exists j :: Culprit(cfg, w, i, j)
  }

  lemma OnlyUnfinishedTouchPartials(cfg: Config, op: Operation, b: BodyEvent, partial: Option<Content>, node: Option<Node>)
    requires TaskFits(op, op.rec.state) && BodyEffect(cfg, op, b, partial, node).Some? && !b.RsyncWrote?
    ensures BodyEffect(cfg, op, b, partial, node).value.partial == partial || !op.rec.state.Final()
  {
  }

  /** Another operation after its partial was overwritten by a stranger, or
      was left alone, or after it was finished. */
  lemma OtherFits(cfg: Config, op: Operation, op': Operation, partial: Option<Content>, partial': Option<Content>)
    requires OperationOk(op) && PublicationFits(cfg, op, op.rec.state, partial)
    requires op' == op || op' == op.(tainted := true)
    requires partial' == partial || op.rec.state.Final() || op'.tainted
    ensures PublicationFits(cfg, op', op'.rec.state, partial')
  {
  }

  /** What settling an effect of `id` leaves of another operation and its
      partial. */
  lemma SettleOthers(cfg: Config, w: World, id: string, b: BodyEvent, f: Effect, i: string)
    requires id in w.ops && i in w.ops && i != id
    ensures var w', op, p := Settle(cfg, w, id, b, f), w.ops[i], PartialName(cfg.token, w.ops[id].ends);
            && i in w'.ops && (w'.ops[i] == op || w'.ops[i] == op.(tainted := true))
            && (PartialName(cfg.token, op.ends) != p ==> PartialOf(cfg, w', op) == PartialOf(cfg, w, op))
            && (PartialName(cfg.token, op.ends) == p ==> PartialOf(cfg, w', op) == f.partial)
            && (PartialName(cfg.token, op.ends) == p && b.RsyncWrote? && !op.rec.state.Final() ==> w'.ops[i].tainted)
  {
    var p := PartialName(cfg.token, w.ops[id].ends);
    var tainted := if b.RsyncWrote? then Sharing(cfg, w.ops, id, p) else {};
    assert Settle(cfg, w, id, b, f).ops[i] == Taint(w.ops, tainted)[i];
    hide PartialName;
  }

  /** A body event of `id`, seen by another operation. */
  lemma OthersPublish(cfg: Config, w: World, id: string, b: BodyEvent, f: Effect, i: string)
    requires Inv(cfg, w) && Named(w) && NoCollision(cfg, w) && PublicationOk(cfg, w)
    requires id in w.ops && i in w.ops && i != id
    requires !b.RsyncWrote? ==> f.partial == PartialOf(cfg, w, w.ops[id]) || Unfinished(w, id)
    ensures var w' := Settle(cfg, w, id, b, f);
            PublicationFits(cfg, w'.ops[i], w'.ops[i].rec.state, PartialOf(cfg, w', w'.ops[i]))
  {
    assert OperationOk(w.ops[i]);
    hide Inv, Named, NoCollision, Settle, PublicationFits, OperationOk, DigestSeparates, PartialName;
    if Unfinished(w, i) && Unfinished(w, id) {
      Separated(cfg, w, i, id);
      PartialsDiffer(cfg, w, i, id);
    }
    SettleOthers(cfg, w, id, b, f, i);
    var w' := Settle(cfg, w, id, b, f);
    OtherFits(cfg, w.ops[i], w'.ops[i], PartialOf(cfg, w, w.ops[i]), PartialOf(cfg, w', w.ops[i]));
  }

  /** A body event of `id`, seen by its own operation. */
  lemma OwnPublishes(cfg: Config, w: World, id: string, b: BodyEvent, f: Effect)
    requires id in w.ops && EffectPublishes(cfg, w.ops[id], f) && EffectFits(w.ops[id], f)
    ensures var w' := Settle(cfg, w, id, b, f);
            PublicationFits(cfg, w'.ops[id], w'.ops[id].rec.state, PartialOf(cfg, w', w'.ops[id]))
  {
    var w' := Settle(cfg, w, id, b, f);
    assert PartialOf(cfg, w', w.ops[id]) == f.partial;
  }

  lemma SettleKeepsPublication(cfg: Config, w: World, id: string, b: BodyEvent, f: Effect)
    requires Inv(cfg, w) && Named(w) && NoCollision(cfg, w) && PublicationOk(cfg, w)
    requires id in w.ops && EffectPublishes(cfg, w.ops[id], f) && EffectFits(w.ops[id], f)
    requires !b.RsyncWrote? ==> f.partial == PartialOf(cfg, w, w.ops[id]) || Unfinished(w, id)
    ensures PublicationOk(cfg, Settle(cfg, w, id, b, f))
  {
    var w' := Settle(cfg, w, id, b, f);
    forall i | i in w'.ops
      ensures PublicationFits(cfg, w'.ops[i], w'.ops[i].rec.state, PartialOf(cfg, w', w'.ops[i]))
    {
      if i != id {
        OthersPublish(cfg, w, id, b, f, i);
      } else {
        OwnPublishes(cfg, w, id, b, f);
      }
    }
  }

  lemma BodyKeepsPublication(cfg: Config, w: World, id: string, b: BodyEvent)
    requires Inv(cfg, w) && Named(w) && NoCollision(cfg, w) && PublicationOk(cfg, w)
    requires Moved(cfg, w, id, b).Some?
    ensures PublicationOk(cfg, Moved(cfg, w, id, b).value)
  {
    var op := w.ops[id];
    var partial, node := PartialOf(cfg, w, op), Lookup(w.nodes, op.rec.key);
    assert OperationOk(op);
    BodyPublishes(cfg, op, b, partial, node);
    EffectOk(cfg, op, b, partial, node);
    if !b.RsyncWrote? {
      OnlyUnfinishedTouchPartials(cfg, op, b, partial, node);
    }
    SettleKeepsPublication(cfg, w, id, b, BodyEffect(cfg, op, b, partial, node).value);
  }

  /** Other events leave files alone and at most ask an operation to stop, or
      finish one whose task is over. */
  predicate Quiet(a: Operation, b: Operation) {
    || b == a
    || b == a.(cancelRequested := true)
    || (a.at.Done? && !a.rec.state.Final() && b == a.(rec := b.rec) && b.rec.state.Cancelled?)
  }

  lemma FallbackIsQuiet(w: World, id: string)
    requires id in w.ops && OperationOk(w.ops[id]) && w.ops[id].at.Done? && !w.ops[id].rec.state.Final()
    ensures Quiet(w.ops[id], SetState(w, id, R.Cancelled).ops[id])
  {
  }

  ghost predicate QuietStep(w: World, w': World) {
    w'.partials == w.partials && forall i | i in w.ops :: i in w'.ops && Quiet(w.ops[i], w'.ops[i])
  }

  lemma FinishCancelIsQuiet(w: World, call: nat)
    requires Operations(w) && CancelFinished(w, call).Some?
    ensures QuietStep(w, CancelFinished(w, call).value)
  {
    if !w.ops[w.calls[call]].rec.state.Final() {
      FallbackIsQuiet(w, w.calls[call]);
    }
  }

  lemma FinishCloseOneIsQuiet(w: World, m: ManagerId, id: string)
    requires Operations(w) && CloseFinishedOne(w, m, id).Some?
    ensures QuietStep(w, CloseFinishedOne(w, m, id).value)
  {
    FallbackIsQuiet(w, id);
  }

  lemma StartIsQuiet(cfg: Config, w: World, m: ManagerId, id: string, ends: Endpoints, overwrite: bool)
    requires Started(cfg, w, m, id, ends, overwrite).Some?
    ensures QuietStep(w, Started(cfg, w, m, id, ends, overwrite).value)
  {
  }

  lemma QuietEvents(cfg: Config, w: World, e: Event)
    requires Operations(w) && Next(cfg, w, e).Some? && !e.Body?
    ensures QuietStep(w, Next(cfg, w, e).value)
  {
    match e {
      case FinishCancel(call) => FinishCancelIsQuiet(w, call);
      case FinishCloseOne(m, id) => FinishCloseOneIsQuiet(w, m, id);
      case Start(m, id, ends, overwrite) => StartIsQuiet(cfg, w, m, id, ends, overwrite);
      case _ =>
    }
  }

  lemma QuietFits(cfg: Config, op: Operation, op': Operation, partial: Option<Content>)
    requires OperationOk(op) && PublicationFits(cfg, op, op.rec.state, partial) && Quiet(op, op')
    ensures PublicationFits(cfg, op', op'.rec.state, partial) && op'.ends == op.ends
  {
  }

  lemma QuietKeepsPublication(cfg: Config, w: World, w': World)
    requires Operations(w) && PublicationOk(cfg, w) && QuietStep(w, w') && QuietOps(w, w')
    ensures PublicationOk(cfg, w')
  {
    forall i | i in w'.ops
      ensures PublicationFits(cfg, w'.ops[i], w'.ops[i].rec.state, PartialOf(cfg, w', w'.ops[i]))
    {
      if i in w.ops {
        QuietFits(cfg, w.ops[i], w'.ops[i], PartialOf(cfg, w, w.ops[i]));
      }
    }
  }

  /** An operation nothing has happened to yet. */
  predicate Untouched(op: Operation) {
    && op.at.Created? && op.rec.state.Pending? && !op.tainted && op.published.None? && !op.linkedInside
    && op.partialHash.None? && op.scriptOk.None? && op.sourceHash.None?
  }

  lemma StartUntouched(cfg: Config, w: World, m: ManagerId, id: string, ends: Endpoints, overwrite: bool)
    requires Started(cfg, w, m, id, ends, overwrite).Some?
    ensures var w' := Started(cfg, w, m, id, ends, overwrite).value;
            w'.ops.Keys <= w.ops.Keys + {id} && (id in w'.ops && id !in w.ops ==> Untouched(w'.ops[id]))
  {
  }

  ghost predicate QuietOps(w: World, w': World) {
    forall i | i in w'.ops :: if i in w.ops then Quiet(w.ops[i], w'.ops[i]) else Untouched(w'.ops[i])
  }

  /** What any event but a body's does to operations, old and new. */
  lemma QuietNext(cfg: Config, w: World, e: Event)
    requires Operations(w) && Next(cfg, w, e).Some? && !e.Body?
    ensures QuietStep(w, Next(cfg, w, e).value) && QuietOps(w, Next(cfg, w, e).value)
  {
    assert e.Start? ==> Next(cfg, w, e) == Started(cfg, w, e.m, e.id, e.ends, e.overwrite);
    QuietEvents(cfg, w, e);
    hide Next, Started, Operations, Quiet, Untouched;
    if e.Start? {
      StartUntouched(cfg, w, e.m, e.id, e.ends, e.overwrite);
    } else {
      OnlyStartAdds(cfg, w, e);
    }
  }

  lemma StepKeepsPublication(cfg: Config, w: World, e: Event)
    requires Inv(cfg, w) && Named(w) && NoCollision(cfg, w) && PublicationOk(cfg, w)
    requires Next(cfg, w, e).Some?
    ensures PublicationOk(cfg, Next(cfg, w, e).value)
  {
    if e.Body? {
      BodyKeepsPublication(cfg, w, e.id, e.b);
    } else {
      QuietNext(cfg, w, e);
      hide Next, Named, NoCollision;
      QuietKeepsPublication(cfg, w, Next(cfg, w, e).value);
    }
  }

  ghost predicate Culprit(cfg: Config, w: World, i: string, j: string) {
    && i in w.ops && j in w.ops && j != i && w.ops[j].recancelled
    && PartialName(cfg.token, w.ops[j].ends) == PartialName(cfg.token, w.ops[i].ends)
  }

  lemma CulpritStays(cfg: Config, w: World, w': World, i: string, j: string)
    requires Culprit(cfg, w, i, j) && AllEvolve(w, w')
    ensures Culprit(cfg, w', i, j)
  {
    assert Evolves(w.ops[i], w'.ops[i]) && Evolves(w.ops[j], w'.ops[j]);
  }

  lemma PlaceTaints(w: World, id: string, p: PartialFile, f: Effect, tainted: set<string>, i: string)
    requires id in w.ops && i in w.ops && EffectFits(w.ops[id], f)
    requires !w.ops[i].tainted && Place(w, id, p, f, tainted).ops[i].tainted
    ensures i in tainted
  {
  }

  /** A new taint comes from a write by an rsync whose operation is over. */
  lemma BodyTaints(cfg: Config, w: World, id: string, b: BodyEvent, i: string)
    requires Inv(cfg, w) && Named(w) && NoCollision(cfg, w) && Moved(cfg, w, id, b).Some?
    requires i in w.ops && !w.ops[i].tainted && Moved(cfg, w, id, b).value.ops[i].tainted
    ensures Culprit(cfg, w, i, id)
  {
    assert id in w.ops && Operations(w);
    hide Inv, Named, NoCollision, Moved, Settle, EffectFits, DigestSeparates, PartialName;
    var f := BodyFits(cfg, w, id, b);
    SettleTaints(cfg, w, id, b, f, i);
    WriterAlive(cfg, w, id, b);
    LeftAlive(w, id);
    hide Operations;
    if Unfinished(w, id) {
      Separated(cfg, w, i, id);
      PartialsDiffer(cfg, w, i, id);
    }
  }

  lemma SettleTaints(cfg: Config, w: World, id: string, b: BodyEvent, f: Effect, i: string)
    requires id in w.ops && i in w.ops && EffectFits(w.ops[id], f)
    requires !w.ops[i].tainted && Settle(cfg, w, id, b, f).ops[i].tainted
    ensures b.RsyncWrote? && i != id && Unfinished(w, i)
    ensures PartialName(cfg.token, w.ops[i].ends) == PartialName(cfg.token, w.ops[id].ends)
  {
    var p := PartialName(cfg.token, w.ops[id].ends);
    PlaceTaints(w, id, p, f, if b.RsyncWrote? then Sharing(cfg, w.ops, id, p) else {}, i);
  }

  /** Only a second cancellation leaves an rsync to a finished operation. */
  lemma LeftAlive(w: World, id: string)
    requires Operations(w) && id in w.ops && w.ops[id].rsyncAlive
    ensures Unfinished(w, id) || w.ops[id].recancelled
  {
    assert OperationOk(w.ops[id]);
  }

  lemma Separated(cfg: Config, w: World, i: string, j: string)
    requires NoCollision(cfg, w) && i in w.ops && j in w.ops
    ensures DigestSeparates(cfg.token, w.ops[i].ends, w.ops[j].ends)
  {
  }

  lemma WriterAlive(cfg: Config, w: World, id: string, b: BodyEvent)
    requires Moved(cfg, w, id, b).Some? && b.RsyncWrote?
    ensures w.ops[id].rsyncAlive
  {
    hide Settle;
  }

  lemma TaintSource(cfg: Config, w: World, e: Event, i: string)
    requires Inv(cfg, w) && Named(w) && NoCollision(cfg, w) && TaintExplained(cfg, w)
    requires Next(cfg, w, e).Some? && i in Next(cfg, w, e).value.ops && Next(cfg, w, e).value.ops[i].tainted
    ensures i in w.ops && exists j :: Culprit(cfg, w, i, j)
  {
    if e.Body? {
      assert Next(cfg, w, e) == Moved(cfg, w, e.id, e.b);
      hide Inv, Named, NoCollision, Next, Moved;
      if !w.ops[i].tainted {
        BodyTaints(cfg, w, e.id, e.b, i);
      }
    } else {
      QuietNext(cfg, w, e);
      hide Inv, Named, NoCollision, Next;
    }
  }

  lemma TaintStep(cfg: Config, w: World, e: Event)
    requires Inv(cfg, w) && Named(w) && NoCollision(cfg, w) && TaintExplained(cfg, w)
    requires Next(cfg, w, e).Some?
    ensures TaintExplained(cfg, Next(cfg, w, e).value)
  {
    var w' := Next(cfg, w, e).value;
    StepKeeps(cfg, w, e);
    forall i | i in w'.ops && w'.ops[i].tainted
      ensures exists j :: Culprit(cfg, w', i, j)
    {
      TaintSource(cfg, w, e, i);
      var j :| Culprit(cfg, w, i, j);
      CulpritStays(cfg, w, w', i, j);
    }
  }
}
