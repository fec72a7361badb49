/** The main results about what transfers publish, over every run. */
module PublicationRuns {
  import opened Options
  import opened PartialNames
  import opened TransferWorld
  import opened TransferInvariant
  import opened TransferRuns
  import opened Publication
  import R = TransferRecords

  lemma NoCollisionBefore(cfg: Config, w: World, w': World)
    requires AllEvolve(w, w') && NoCollision(cfg, w')
    ensures NoCollision(cfg, w)
  {
    forall i, j | i in w.ops && j in w.ops ensures DigestSeparates(cfg.token, w.ops[i].ends, w.ops[j].ends) {
      assert Evolves(w.ops[i], w'.ops[i]) && Evolves(w.ops[j], w'.ops[j]);
      assert DigestSeparates(cfg.token, w'.ops[i].ends, w'.ops[j].ends);
    }
  }

  lemma {:induction false} RunPublication(cfg: Config, ws: seq<World>, es: seq<Event>, k: nat)
    requires IsRun(cfg, ws, es) && k < |ws| && NoCollision(cfg, ws[k])
    ensures PublicationOk(cfg, ws[k]) && TaintExplained(cfg, ws[k])
  {
    if k > 0 {
      RunEvolves(cfg, ws, es, k - 1, k);
      NoCollisionBefore(cfg, ws[k - 1], ws[k]);
      RunPublication(cfg, ws, es, k - 1);
      RunInv(cfg, ws, es, k - 1);
      RunStep(cfg, ws, es, k - 1);
      StepKeepsPublication(cfg, ws[k - 1], es[k - 1]);
      TaintStep(cfg, ws[k - 1], es[k - 1]);
    }
  }

  /** COMPLETED means delivered: unless `ln` found a directory, the bytes put at
      the destination hash to what the source hashed to. The one exception is
      an rsync that a second cancellation left running on the same partial. */
  lemma CompletedMeansDelivered(cfg: Config, ws: seq<World>, es: seq<Event>, k: nat, id: string)
    requires IsRun(cfg, ws, es) && k < |ws| && NoCollision(cfg, ws[k])
    requires id in ws[k].ops && ws[k].ops[id].rec.state.Completed?
    ensures var op := ws[k].ops[id];
            && (op.linkedInside ==> op.ends.direction.Upload? && !op.overwrite)
            && (op.published.Some? <==> !op.linkedInside)
            && (op.published.Some? ==>
                  || op.sourceHash == Some(cfg.digest(op.published.value))
                  || exists j :: Culprit(cfg, ws[k], id, j))
  {
    RunPublication(cfg, ws, es, k);
    var op := ws[k].ops[id];
    assert PublicationFits(cfg, op, op.rec.state, PartialOf(cfg, ws[k], op));
    if op.tainted {
      assert exists j :: Culprit(cfg, ws[k], id, j);
    }
  }

  /** What a body event may do to destinations: only its own, never a directory,
      and nothing that was there before unless the operation overwrites. */
  predicate RespectsDestinations(w: World, id: string, w': World)
    requires id in w.ops
  {
    var key := w.ops[id].rec.key;
    && (forall k | k in w.nodes && k != key :: k in w'.nodes && w'.nodes[k] == w.nodes[k])
    && (key in w.nodes && (!w.ops[id].overwrite || w.nodes[key].Directory?) ==>
          key in w'.nodes && w'.nodes[key] == w.nodes[key])
  }

  predicate EffectRespects(op: Operation, node: Option<Node>, f: Effect) {
    && (node.Some? && (!op.overwrite || node.value.Directory?) ==> f.node == node)
    && (f.op.published != op.published ==> f.op.published.Some? && f.node == Some(File(f.op.published.value)))
    && (op.ends.direction.Download? && f.node != node ==> f.state == Some(R.Completed) || f.state == Some(R.Failed))
  }

  lemma BodyRespects(cfg: Config, op: Operation, b: BodyEvent, partial: Option<Content>, node: Option<Node>)
    requires TaskFits(op, op.rec.state) && BodyEffect(cfg, op, b, partial, node).Some?
    ensures EffectRespects(op, node, BodyEffect(cfg, op, b, partial, node).value)
  {
    hide ChildActs, Cancel, Prepare, Conclude, EffectRespects;
    if b.RsyncWrote? || b.RsyncExited? || b.PartialHashed? || b.ScriptRan? {
      ChildRespects(cfg, op, b, partial, node);
    } else if b.CancelDelivered? {
      CancelRespects(op, partial, node);
    } else if Prepare(op, b, partial, node).Some? {
      PrepareRespects(op, b, partial, node);
    } else {
      ConcludeRespects(op, b, partial, node);
    }
  }

  lemma ChildRespects(cfg: Config, op: Operation, b: BodyEvent, partial: Option<Content>, node: Option<Node>)
    requires TaskFits(op, op.rec.state) && ChildActs(cfg, op, b, partial, node).Some?
    ensures EffectRespects(op, node, ChildActs(cfg, op, b, partial, node).value)
  {
  }

  lemma CancelRespects(op: Operation, partial: Option<Content>, node: Option<Node>)
    requires Cancel(op, partial, node).Some?
    ensures EffectRespects(op, node, Cancel(op, partial, node).value)
  {
    hide Cancel;
    CancelLeaves(op, partial, node);
  }

  /** A cancellation that ends an operation ends it with rsync alive only while
      that is being killed. */
  lemma CancelEnds(op: Operation, partial: Option<Content>, node: Option<Node>)
    requires Cancel(op, partial, node).Some? && Cancel(op, partial, node).value.state.Some? && TaskFits(op, op.rec.state)
    ensures op.rsyncAlive ==> op.at.Terminating?
  {
  }

  lemma CancelLeaves(op: Operation, partial: Option<Content>, node: Option<Node>)
    requires Cancel(op, partial, node).Some?
    ensures var f := Cancel(op, partial, node).value;
            f.node == node && f.op.published == op.published && f.op.rsyncAlive == op.rsyncAlive
  {
    if op.at.Created? {
      assert Cancel(op, partial, node) == Some(Effect(op.(at := Done), None, partial, node));
    } else if op.at.Copying? && op.rsyncAlive {
      assert Cancel(op, partial, node)
          == Some(Effect(op.(at := Terminating, cancelRequested := false), None, partial, node));
    } else {
      var again := op.at.Terminating? && op.rsyncAlive;
      assert Cancel(op, partial, node) == Some(Effect(op.(at := Done, recancelled := again), Some(R.Cancelled), partial, node));
    }
    hide Cancel;
  }

  lemma PrepareRespects(op: Operation, b: BodyEvent, partial: Option<Content>, node: Option<Node>)
    requires Prepare(op, b, partial, node).Some?
    ensures EffectRespects(op, node, Prepare(op, b, partial, node).value)
  {
    var f := Prepare(op, b, partial, node).value;
    assert f.node == node && f.op.published == op.published;
    hide Prepare;
  }

  lemma ConcludeRespects(op: Operation, b: BodyEvent, partial: Option<Content>, node: Option<Node>)
    requires TaskFits(op, op.rec.state) && Conclude(op, b, partial, node).Some?
    ensures EffectRespects(op, node, Conclude(op, b, partial, node).value)
  {
    if b.DownloadChecked? {
      PublishRespects(op, partial.value, node, b.raced, b.ioOk, b.unlinkOk);
      hide PublishDownload;
    }
  }

  lemma PublishRespects(op: Operation, content: Content, node: Option<Node>, raced: Option<Node>, ioOk: bool, unlinkOk: bool)
    ensures EffectRespects(op, node, PublishDownload(op, content, node, raced, ioOk, unlinkOk))
  {
  }

  /** What a body event did to the destinations. */
  predicate StepRespects(w: World, id: string, w': World)
    requires id in w.ops
  {
    && RespectsDestinations(w, id, w')
    && id in w'.ops
    && (w'.ops[id].published != w.ops[id].published ==>
          && w'.ops[id].published.Some?
          && Lookup(w'.nodes, w.ops[id].rec.key) == Some(File(w'.ops[id].published.value)))
    && (w.ops[id].ends.direction.Download? && w'.nodes != w.nodes ==>
          w'.ops[id].rec.state.Completed? || w'.ops[id].rec.state.Failed?)
  }

  lemma PlaceRespects(w: World, id: string, p: PartialFile, f: Effect, tainted: set<string>)
    requires id in w.ops && EffectRespects(w.ops[id], Lookup(w.nodes, w.ops[id].rec.key), f)
    ensures StepRespects(w, id, Place(w, id, p, f, tainted))
  {
    var w' := Place(w, id, p, f, tainted);
    if f.node == Lookup(w.nodes, w.ops[id].rec.key) {
      assert w'.nodes == w.nodes;
    }
  }

  lemma MovedRespects(cfg: Config, w: World, id: string, b: BodyEvent)
    requires Operations(w) && Moved(cfg, w, id, b).Some?
    ensures StepRespects(w, id, Moved(cfg, w, id, b).value)
  {
    var op := w.ops[id];
    var partial, node := PartialOf(cfg, w, op), Lookup(w.nodes, op.rec.key);
    assert OperationOk(op);
    BodyRespects(cfg, op, b, partial, node);
    var p := PartialName(cfg.token, op.ends);
    PlaceRespects(w, id, p, BodyEffect(cfg, op, b, partial, node).value, if b.RsyncWrote? then Sharing(cfg, w.ops, id, p) else {});
  }

  lemma OthersLeaveNodes(cfg: Config, w: World, e: Event)
    requires Next(cfg, w, e).Some? && !e.Body? && !e.Elsewhere?
    ensures Next(cfg, w, e).value.nodes == w.nodes
  {
  }

  /** Without `overwrite` no transfer ever replaces anything, in either
      direction, even what appeared while it was copying; with it, only its own
      destination, and never a directory. */
  lemma NothingIsReplaced(cfg: Config, ws: seq<World>, es: seq<Event>, i: nat)
    requires IsRun(cfg, ws, es) && i < |es| && !es[i].Elsewhere?
    ensures es[i].Body? ==> es[i].id in ws[i].ops && RespectsDestinations(ws[i], es[i].id, ws[i + 1])
    ensures !es[i].Body? ==> ws[i + 1].nodes == ws[i].nodes
  {
    RunInv(cfg, ws, es, i);
    RunStep(cfg, ws, es, i);
    if es[i].Body? {
      MovedRespects(cfg, ws[i], es[i].id, es[i].b);
    } else {
      OthersLeaveNodes(cfg, ws[i], es[i]);
    }
  }

  /** What an operation counts as published was at its destination when it was
      put there. */
  lemma PublishedAtDestination(cfg: Config, ws: seq<World>, es: seq<Event>, i: nat, id: string, b: BodyEvent)
    requires IsRun(cfg, ws, es) && i < |es| && es[i] == Body(id, b)
    requires id in ws[i].ops && id in ws[i + 1].ops && ws[i + 1].ops[id].published != ws[i].ops[id].published
    ensures ws[i + 1].ops[id].published.Some?
    ensures Lookup(ws[i + 1].nodes, ws[i].ops[id].rec.key) == Some(File(ws[i + 1].ops[id].published.value))
  {
    RunInv(cfg, ws, es, i);
    RunStep(cfg, ws, es, i);
    MovedRespects(cfg, ws[i], id, b);
  }

  lemma OthersKeepPublished(cfg: Config, w: World, id: string, b: BodyEvent, i: string)
    requires Moved(cfg, w, id, b).Some? && i != id && i in Moved(cfg, w, id, b).value.ops
    ensures i in w.ops && Moved(cfg, w, id, b).value.ops[i].published == w.ops[i].published
  {
    hide BodyEffect;
  }

  /** Only an operation's own task publishes for it. */
  lemma PublishedElsewhere(cfg: Config, w: World, e: Event, id: string)
    requires Inv(cfg, w) && Next(cfg, w, e).Some? && !(e.Body? && e.id == id)
    requires id in Next(cfg, w, e).value.ops && Next(cfg, w, e).value.ops[id].published.Some?
    ensures id in w.ops && w.ops[id].published == Next(cfg, w, e).value.ops[id].published
  {
    if e.Body? {
      assert Next(cfg, w, e) == Moved(cfg, w, e.id, e.b);
      hide Next, Moved, Inv;
      OthersKeepPublished(cfg, w, e.id, e.b, id);
    } else {
      QuietNext(cfg, w, e);
      hide Next, Inv;
    }
  }

  /** Step `i` changed what `id` counts as published. */
  predicate Publishes(ws: seq<World>, es: seq<Event>, i: nat, id: string)
    requires i < |es| && |ws| == |es| + 1
  {
    && es[i].Body? && es[i].id == id
    && id in ws[i].ops && id in ws[i + 1].ops && ws[i + 1].ops[id].published != ws[i].ops[id].published
  }

  /** Unless it did, `id` had published the same before it. */
  lemma PublishedBefore(cfg: Config, ws: seq<World>, es: seq<Event>, i: nat, id: string)
    requires IsRun(cfg, ws, es) && i < |es| && id in ws[i + 1].ops && ws[i + 1].ops[id].published.Some?
    requires !Publishes(ws, es, i, id)
    ensures id in ws[i].ops && ws[i].ops[id].published == ws[i + 1].ops[id].published
  {
    hide Inv, Next, Named;
    RunInv(cfg, ws, es, i);
    RunStep(cfg, ws, es, i);
    if es[i].Body? && es[i].id == id {
      OwnStep(cfg, ws[i], es[i]);
    } else {
      PublishedElsewhere(cfg, ws[i], es[i], id);
    }
  }

  lemma OwnStep(cfg: Config, w: World, e: Event)
    requires Next(cfg, w, e).Some? && e.Body?
    ensures e.id in w.ops
  {
    hide Moved;
    assert Next(cfg, w, e) == Moved(cfg, w, e.id, e.b);
    MovedFrom(cfg, w, e.id, e.b);
  }

  lemma MovedFrom(cfg: Config, w: World, id: string, b: BodyEvent)
    requires Moved(cfg, w, id, b).Some?
    ensures id in w.ops
  {
    hide BodyEffect, Settle;
  }

  lemma KeyStays(cfg: Config, ws: seq<World>, es: seq<Event>, i: nat, id: string)
    requires IsRun(cfg, ws, es) && i < |es|
    ensures id in ws[i].ops ==> id in ws[i + 1].ops && ws[i + 1].ops[id].rec.key == ws[i].ops[id].rec.key
  {
    RunEvolves(cfg, ws, es, i, i + 1);
    assert id in ws[i].ops ==> Evolves(ws[i].ops[id], ws[i + 1].ops[id]);
  }

  /** The step at which an operation put what it counts as published at its
      destination. */
  lemma {:induction false} PublishedWhen(cfg: Config, ws: seq<World>, es: seq<Event>, k: nat, id: string) returns (i: nat)
    requires IsRun(cfg, ws, es) && k < |ws| && id in ws[k].ops && ws[k].ops[id].published.Some?
    ensures i < k && es[i].Body? && es[i].id == id
    ensures Lookup(ws[i + 1].nodes, ws[k].ops[id].rec.key) == Some(File(ws[k].ops[id].published.value))
  {
    hide Follows;
    KeyStays(cfg, ws, es, k - 1, id);
    if Publishes(ws, es, k - 1, id) {
      i := k - 1;
      PublishedAtDestination(cfg, ws, es, k - 1, id, es[k - 1].b);
    } else {
      PublishedBefore(cfg, ws, es, k - 1, id);
      i := PublishedWhen(cfg, ws, es, k - 1, id);
    }
  }

  /** The promise in one piece: a transfer that COMPLETED without landing inside a
      directory had, at an earlier step of its own, bytes at its destination that
      hash to what its source hashed to; or an operation cancelled twice shares
      its partial. */
  lemma CompletedWasAtDestination(cfg: Config, ws: seq<World>, es: seq<Event>, k: nat, id: string)
    returns (i: nat, c: Content)
    requires IsRun(cfg, ws, es) && k < |ws| && NoCollision(cfg, ws[k])
    requires id in ws[k].ops && ws[k].ops[id].rec.state.Completed? && !ws[k].ops[id].linkedInside
    ensures i < k && es[i].Body? && es[i].id == id
    ensures Lookup(ws[i + 1].nodes, ResourceKey(ws[k].ops[id].ends)) == Some(File(c))
    ensures ws[k].ops[id].sourceHash == Some(cfg.digest(c)) || exists j :: Culprit(cfg, ws[k], id, j)
  {
    CompletedMeansDelivered(cfg, ws, es, k, id);
    i := PublishedWhen(cfg, ws, es, k, id);
    c := ws[k].ops[id].published.value;
    RunInv(cfg, ws, es, k);
  }

  /** A download whose step changed a destination is over, and not cancelled. */
  lemma DownloadTouchesLast(cfg: Config, ws: seq<World>, es: seq<Event>, i: nat, id: string, b: BodyEvent)
    requires IsRun(cfg, ws, es) && i < |es| && es[i] == Body(id, b)
    requires id in ws[i].ops && ws[i].ops[id].ends.direction.Download? && ws[i + 1].nodes != ws[i].nodes
    ensures id in ws[i + 1].ops && (ws[i + 1].ops[id].rec.state.Completed? || ws[i + 1].ops[id].rec.state.Failed?)
  {
    RunInv(cfg, ws, es, i);
    RunStep(cfg, ws, es, i);
    MovedRespects(cfg, ws[i], id, b);
  }

  /** A cancelled download never touched any destination, at any step. */
  lemma CancelledDownloadTouchedNothing(cfg: Config, ws: seq<World>, es: seq<Event>, i: nat, k: nat, id: string, b: BodyEvent)
    requires IsRun(cfg, ws, es) && i < k < |ws| && es[i] == Body(id, b) && id in ws[i].ops
    requires id in ws[k].ops && ws[k].ops[id].rec.state.Cancelled? && ws[k].ops[id].ends.direction.Download?
    ensures ws[i + 1].nodes == ws[i].nodes
  {
    RunEvolves(cfg, ws, es, i, k);
    assert Evolves(ws[i].ops[id], ws[k].ops[id]);
    if ws[i + 1].nodes != ws[i].nodes {
      DownloadTouchesLast(cfg, ws, es, i, id, b);
      FinalIsAbsorbing(cfg, ws, es, i + 1, k, id);
    }
  }

  /** The publication script of an upload that must not overwrite lands inside
      a directory exactly when it finds one, or a link to one, in its way. */
  lemma LinkedInsideExactly(cfg: Config, w: World, id: string, acts: bool, reports: bool)
    requires Moved(cfg, w, id, ScriptRan(acts, reports)).Some?
    ensures var op, op' := w.ops[id], Moved(cfg, w, id, ScriptRan(acts, reports)).value.ops[id];
            var enters := acts && PartialOf(cfg, w, op).Some? && EntersDirectory(op, Lookup(w.nodes, op.rec.key));
            op'.linkedInside <==> op.linkedInside || enters
  {
    var op := w.ops[id];
    var partial, node := PartialOf(cfg, w, op), Lookup(w.nodes, op.rec.key);
    ScriptEnters(cfg, op, acts, reports, partial, node);
    MovedLinks(cfg, w, id, ScriptRan(acts, reports));
    hide Moved, BodyEffect;
  }

  lemma MovedLinks(cfg: Config, w: World, id: string, b: BodyEvent)
    requires Moved(cfg, w, id, b).Some?
    ensures id in w.ops && id in Moved(cfg, w, id, b).value.ops
    ensures var op, op' := w.ops[id], Moved(cfg, w, id, b).value.ops[id];
            var f := BodyEffect(cfg, op, b, PartialOf(cfg, w, op), Lookup(w.nodes, op.rec.key));
            f.Some? && op'.linkedInside == f.value.op.linkedInside
  {
    hide BodyEffect;
  }

  lemma ScriptEnters(cfg: Config, op: Operation, acts: bool, reports: bool, partial: Option<Content>, node: Option<Node>)
    requires BodyEffect(cfg, op, ScriptRan(acts, reports), partial, node).Some?
    ensures BodyEffect(cfg, op, ScriptRan(acts, reports), partial, node).value.op.linkedInside
            <==> op.linkedInside || (acts && partial.Some? && EntersDirectory(op, node))
  {
    var f := BodyEffect(cfg, op, ScriptRan(acts, reports), partial, node);
    assert f == ChildActs(cfg, op, ScriptRan(acts, reports), partial, node);
    hide BodyEffect;
    if acts && partial.Some? {
      assert f == Some(RunScript(op, partial.value, node, reports));
      hide ChildActs;
    }
  }

  predicate EntersDirectory(op: Operation, node: Option<Node>) {
    !op.overwrite && (node == Some(Directory) || node == Some(LinkToDirectory))
  }

  /** An operation ends with its rsync still running exactly when it is
      cancelled again while it is killing it. */
  lemma RsyncOutlivesExactly(cfg: Config, op: Operation, b: BodyEvent, partial: Option<Content>, node: Option<Node>)
    requires OperationOk(op) && BodyEffect(cfg, op, b, partial, node).Some?
    requires BodyEffect(cfg, op, b, partial, node).value.state.Some?
    requires BodyEffect(cfg, op, b, partial, node).value.state.value.Final()
    ensures var leaves := b.CancelDelivered? && op.at.Terminating? && op.rsyncAlive;
            BodyEffect(cfg, op, b, partial, node).value.op.rsyncAlive <==> leaves
  {
    if b.CancelDelivered? {
      assert BodyEffect(cfg, op, b, partial, node) == Cancel(op, partial, node);
      hide BodyEffect;
      CancelLeaves(op, partial, node);
      CancelEnds(op, partial, node);
      hide Cancel;
    } else {
      EffectOk(cfg, op, b, partial, node);
    }
  }
}
