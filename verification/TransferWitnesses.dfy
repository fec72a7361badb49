/** Runs of transfers, from their start, that end in what PublicationRuns makes
    an exception of. They are possible for every configuration, destination and
    content. */
module TransferWitnesses {
  import opened Options
  import opened PartialNames
  import opened TransferWorld
  import R = TransferRecords

  lemma Extend(cfg: Config, ws: seq<World>, es: seq<Event>, e: Event, w: World)
    returns (ws': seq<World>, es': seq<Event>)
    requires IsRun(cfg, ws, es) && Next(cfg, ws[|es|], e) == Some(w)
    ensures IsRun(cfg, ws', es') && ws' == ws + [w] && es' == es + [e] && ws'[|es'|] == w
  {
    hide Next;
    ws', es' := ws + [w], es + [e];
    forall i | 0 <= i < |es'| ensures Follows(cfg, ws', es', i) {
      if i < |es| {
        assert Follows(cfg, ws, es, i);
      }
    }
  }

  function WithOp(w: World, id: string, op: Operation): World {
    w.(ops := w.ops[id := op])
  }

  lemma WithOpTwice(w: World, id: string, a: Operation, b: Operation)
    ensures WithOp(WithOp(w, id, a), id, b) == WithOp(w, id, b)
  {
    assert w.ops[id := a][id := b] == w.ops[id := b];
  }

  lemma PutBack<K, V>(m: map<K, V>, k: K)
    ensures Lookup(m, k).Some? ==> m[k := Lookup(m, k).value] == m
    ensures Lookup(m, k).None? ==> m - {k} == m
  {
  }

  /** One body event, as an effect on its own operation, its partial and its
      destination. */
  lemma Acts(cfg: Config, ws: seq<World>, es: seq<Event>, id: string, b: BodyEvent, f: Effect)
    returns (ws': seq<World>, es': seq<Event>)
    requires IsRun(cfg, ws, es) && id in ws[|es|].ops && f.state.None? && !b.RsyncWrote?
    requires var w := ws[|es|];
             && f.partial == PartialOf(cfg, w, w.ops[id]) && f.node == Lookup(w.nodes, w.ops[id].rec.key)
             && BodyEffect(cfg, w.ops[id], b, f.partial, f.node) == Some(f)
    ensures IsRun(cfg, ws', es') && ws'[|es'|] == WithOp(ws[|es|], id, f.op)
  {
    hide BodyEffect;
    var w := ws[|es|];
    PutBack(w.partials, PartialName(cfg.token, w.ops[id].ends));
    PutBack(w.nodes, w.ops[id].rec.key);
    assert Taint(w.ops, {}) == w.ops;
    ws', es' := Extend(cfg, ws, es, Body(id, b), WithOp(w, id, f.op));
  }

  /** One that also moves the operation to another state. */
  lemma Enters(cfg: Config, ws: seq<World>, es: seq<Event>, id: string, b: BodyEvent, f: Effect)
    returns (ws': seq<World>, es': seq<Event>)
    requires IsRun(cfg, ws, es) && id in ws[|es|].ops && f.state.Some? && !b.RsyncWrote?
    requires var w := ws[|es|];
             && f.partial == PartialOf(cfg, w, w.ops[id]) && f.node == Lookup(w.nodes, w.ops[id].rec.key)
             && BodyEffect(cfg, w.ops[id], b, f.partial, f.node) == Some(f)
    ensures IsRun(cfg, ws', es')
    ensures var w := ws[|es|];
            var r := R.SetState(f.op.rec, w.claimed, f.state.value, w.clock);
            ws'[|es'|] == WithOp(w, id, f.op.(rec := r.0)).(claimed := r.1)
  {
    hide BodyEffect;
    var w := ws[|es|];
    var r := R.SetState(f.op.rec, w.claimed, f.state.value, w.clock);
    PutBack(w.partials, PartialName(cfg.token, w.ops[id].ends));
    PutBack(w.nodes, w.ops[id].rec.key);
    assert Taint(w.ops, {}) == w.ops;
    ws', es' := Extend(cfg, ws, es, Body(id, b), WithOp(w, id, f.op.(rec := r.0)).(claimed := r.1));
  }

  /** One that moves it to Running or Verifying. */
  lemma Advances(cfg: Config, ws: seq<World>, es: seq<Event>, id: string, b: BodyEvent, f: Effect, op: Operation)
    returns (ws': seq<World>, es': seq<Event>)
    requires IsRun(cfg, ws, es) && id in ws[|es|].ops && f.state.Some? && !f.state.value.Final() && !b.RsyncWrote?
    requires var w := ws[|es|];
             && f.partial == PartialOf(cfg, w, w.ops[id]) && f.node == Lookup(w.nodes, w.ops[id].rec.key)
             && BodyEffect(cfg, w.ops[id], b, f.partial, f.node) == Some(f)
             && op == f.op.(rec := R.SetState(f.op.rec, w.claimed, f.state.value, w.clock).0)
    ensures IsRun(cfg, ws', es') && ws'[|es'|] == WithOp(ws[|es|], id, op)
  {
    hide BodyEffect;
    ws', es' := Enters(cfg, ws, es, id, b, f);
    assert ws'[|es'|].claimed == ws[|es|].claimed;
  }

  /** A transfer of manager 0, registered while nothing else is going on. */
  lemma Begins(cfg: Config, ws: seq<World>, es: seq<Event>, id: string, ends: Endpoints, overwrite: bool)
    returns (ws': seq<World>, es': seq<Event>, kept: set<string>)
    requires IsRun(cfg, ws, es) && cfg.maxTransfers > 0 && ends.Valid()
    requires var w := ws[|es|];
             && 0 in w.managers && w.managers[0].Open? && id !in w.ops && w.claimed == {}
             && forall i | i in w.ops :: w.ops[i].rec.state.Final()
    ensures IsRun(cfg, ws', es')
    ensures var w, key := ws[|es|], ResourceKey(ends);
            ws'[|es'|] == WithOp(w, id, NewOperation(0, ends, overwrite, R.NewRecord(key).(reserved := true)))
                          .(registered := kept + {id}, claimed := {key})
  {
    var w := ws[|es|];
    var key := ResourceKey(ends);
    var r := R.Register(Records(w, 0), w.claimed, false, cfg.maxTransfers, cfg.ttl, w.clock, id, R.NewRecord(key));
    assert R.ActiveIds(R.Pruned(Records(w, 0), w.clock, cfg.ttl)) == {};
    kept := set i | i in w.registered && i in w.ops && (w.ops[i].manager == 0 ==> i in r.records);
    ws', es' := Extend(cfg, ws, es, Start(0, id, ends, overwrite), Started(cfg, w, 0, id, ends, overwrite).value);
  }

  /** An operation while its rsync copies. */
  function Copying(cfg: Config, op: Operation, clock: nat): Operation {
    op.(at := TransferWorld.Copying, rsyncAlive := true, rec := op.rec.(state := R.Running, startedAt := Some(clock)))
  }

  predicate Fresh(op: Operation) {
    op == NewOperation(op.manager, op.ends, op.overwrite, R.NewRecord(op.rec.key).(reserved := true))
  }

  /** What the steps of these runs do, one by one. */
  lemma BeginsBody(cfg: Config, op: Operation, partial: Option<Content>, node: Option<Node>)
    requires op.at.Created? && !op.cancelRequested
    ensures BodyEffect(cfg, op, Begin, partial, node) == Some(Effect(op.(at := StatSource), Some(R.Running), partial, node))
  {
  }

  lemma DownloadPrepares(cfg: Config, op: Operation, partial: Option<Content>, node: Option<Node>)
    requires op.ends.direction.Download? && !op.cancelRequested
    ensures op.at.StatSource? ==>
              BodyEffect(cfg, op, Stated(false), partial, node) == Some(Effect(op.(at := FreeSpace), None, partial, node))
    ensures op.at.FreeSpace? ==>
              BodyEffect(cfg, op, SpaceFound, partial, node) == Some(Effect(op.(at := ReadyMaster), None, partial, node))
  {
  }

  lemma UploadPrepares(cfg: Config, op: Operation, partial: Option<Content>, node: Option<Node>)
    requires op.ends.direction.Upload? && !op.cancelRequested
    ensures op.at.StatSource? ==>
              BodyEffect(cfg, op, Stated(false), partial, node)
              == Some(Effect(op.(at := if op.overwrite then PreparePartial else CheckDestination), None, partial, node))
    ensures op.at.CheckDestination? ==>
              BodyEffect(cfg, op, DestinationAbsent, partial, node) == Some(Effect(op.(at := PreparePartial), None, partial, node))
    ensures op.at.PreparePartial? ==>
              BodyEffect(cfg, op, Prepared(false), partial, node) == Some(Effect(op.(at := HashSource), None, partial, node))
  {
  }

  lemma Hashes(cfg: Config, op: Operation, hash: string, partial: Option<Content>, node: Option<Node>)
    requires op.at.HashSource? && !op.cancelRequested
    ensures BodyEffect(cfg, op, SourceHashed(hash), partial, node)
            == Some(Effect(op.(sourceHash := Some(hash), at := if op.ends.direction.Download? then HashPartial else ReadyMaster),
                           None, partial, node))
  {
  }

  lemma Spawns(cfg: Config, op: Operation, partial: Option<Content>, node: Option<Node>)
    requires op.at.ReadyMaster? && !op.cancelRequested
    ensures BodyEffect(cfg, op, Spawned, partial, node)
            == Some(Effect(op.(at := TransferWorld.Copying, rsyncAlive := true, rsyncOk := false), None, partial, node))
  {
  }

  lemma CopyEnds(cfg: Config, op: Operation, c: Content, node: Option<Node>)
    requires op.at.Copying? && !op.cancelRequested
    ensures op.rsyncAlive ==>
              BodyEffect(cfg, op, RsyncExited(true), Some(c), node)
              == Some(Effect(op.(rsyncAlive := false, rsyncOk := true), None, Some(c), node))
    ensures !op.rsyncAlive && op.rsyncOk ==>
              BodyEffect(cfg, op, Copied, Some(c), node)
              == Some(Effect(op.(at := if op.ends.direction.Download? then HashSource else HashPartial),
                             Some(R.Verifying), Some(c), node))
  {
  }

  lemma Compares(cfg: Config, op: Operation, c: Content, node: Option<Node>)
    requires op.at.HashPartial? && !op.cancelRequested
    ensures op.partialHash.None? ==>
              BodyEffect(cfg, op, PartialHashed, Some(c), node)
              == Some(Effect(op.(partialHash := Some(cfg.digest(c))), None, Some(c), node))
    ensures op.ends.direction.Upload? && op.sourceHash.Some? && op.partialHash == op.sourceHash ==>
              BodyEffect(cfg, op, UploadChecked, Some(c), node)
              == Some(Effect(op.(at := Publishing), None, Some(c), node))
  {
  }

  lemma Cancels(cfg: Config, op: Operation, partial: Option<Content>, node: Option<Node>)
    requires op.cancelRequested && op.rsyncAlive
    ensures op.at.Copying? ==>
              BodyEffect(cfg, op, CancelDelivered, partial, node)
              == Some(Effect(op.(at := Terminating, cancelRequested := false), None, partial, node))
    ensures op.at.Terminating? ==>
              BodyEffect(cfg, op, CancelDelivered, partial, node)
              == Some(Effect(op.(at := Done, recancelled := true), Some(R.Cancelled), partial, node))
  {
  }

  lemma DownloadCopies(cfg: Config, ws: seq<World>, es: seq<Event>, id: string)
    returns (ws': seq<World>, es': seq<Event>)
    requires IsRun(cfg, ws, es) && id in ws[|es|].ops
    requires Fresh(ws[|es|].ops[id]) && ws[|es|].ops[id].ends.direction.Download?
    ensures IsRun(cfg, ws', es')
    ensures ws'[|es'|] == WithOp(ws[|es|], id, Copying(cfg, ws[|es|].ops[id], ws[|es|].clock))
  {
    var w := ws[|es|];
    var op := w.ops[id];
    var partial, node := PartialOf(cfg, w, op), Lookup(w.nodes, op.rec.key);
    hide BodyEffect;
    BeginsBody(cfg, op, partial, node);
    var run := op.(rec := op.rec.(state := R.Running, startedAt := Some(w.clock)), at := StatSource);
    ws', es' := Advances(cfg, ws, es, id, Begin, Effect(op.(at := StatSource), Some(R.Running), partial, node), run);
    DownloadPrepares(cfg, run, partial, node);
    DownloadPrepares(cfg, run.(at := FreeSpace), partial, node);
    Spawns(cfg, run.(at := ReadyMaster), partial, node);
    ws', es' := Acts(cfg, ws', es', id, Stated(false), Effect(run.(at := FreeSpace), None, partial, node));
    WithOpTwice(w, id, run, run.(at := FreeSpace));
    ws', es' := Acts(cfg, ws', es', id, SpaceFound, Effect(run.(at := ReadyMaster), None, partial, node));
    WithOpTwice(w, id, run.(at := FreeSpace), run.(at := ReadyMaster));
    ws', es' := Acts(cfg, ws', es', id, Spawned,
                     Effect(run.(at := TransferWorld.Copying, rsyncAlive := true), None, partial, node));
    WithOpTwice(w, id, run.(at := ReadyMaster), Copying(cfg, op, w.clock));
    assert ws'[|es'|] == WithOp(w, id, Copying(cfg, op, w.clock));
  }

  /** `cancel` on a transfer in progress, and the error raised in its task. */
  lemma CancelReaches(cfg: Config, ws: seq<World>, es: seq<Event>, id: string, call: nat)
    returns (ws': seq<World>, es': seq<Event>)
    requires IsRun(cfg, ws, es)
    requires var w := ws[|es|];
             && id in w.ops && id in w.registered && w.ops[id].manager == 0 && !w.ops[id].rec.state.Final()
             && !w.ops[id].at.Done? && call !in w.calls && call !in w.reports
    ensures IsRun(cfg, ws', es')
    ensures var w := ws[|es|];
            ws'[|es'|] == WithOp(w, id, w.ops[id].(cancelRequested := true)).(calls := w.calls[call := id])
  {
    var w := ws[|es|];
    assert RequestCancel(w.ops, {id}) == w.ops[id := w.ops[id].(cancelRequested := true)];
    ws', es' := Extend(cfg, ws, es, BeginCancel(call, 0, id),
                       WithOp(w, id, w.ops[id].(cancelRequested := true)).(calls := w.calls[call := id]));
  }

  /** A copying transfer after it was cancelled twice. */
  function Abandoned(op: Operation, clock: nat): Operation {
    op.(at := Done, cancelRequested := true, recancelled := true,
        rec := op.rec.(state := R.Cancelled, finishedAt := Some(clock), reserved := false))
  }

  predicate Cancellable(w: World, id: string) {
    && id in w.ops && id in w.registered && w.ops[id].manager == 0
    && w.ops[id].rsyncAlive && !w.ops[id].cancelRequested && w.ops[id].rec.state.Running? && w.ops[id].rec.reserved
  }

  lemma CancelledOnce(cfg: Config, ws: seq<World>, es: seq<Event>, id: string, call: nat)
    returns (ws': seq<World>, es': seq<Event>)
    requires IsRun(cfg, ws, es) && Cancellable(ws[|es|], id) && ws[|es|].ops[id].at.Copying?
    requires call !in ws[|es|].calls && call !in ws[|es|].reports
    ensures IsRun(cfg, ws', es')
    ensures var w := ws[|es|];
            ws'[|es'|] == WithOp(w, id, w.ops[id].(at := Terminating)).(calls := w.calls[call := id])
  {
    hide BodyEffect;
    var w := ws[|es|];
    var op := w.ops[id];
    var partial, node := PartialOf(cfg, w, op), Lookup(w.nodes, op.rec.key);
    Cancels(cfg, op.(cancelRequested := true), partial, node);
    ws', es' := CancelReaches(cfg, ws, es, id, call);
    ws', es' := Acts(cfg, ws', es', id, CancelDelivered, Effect(op.(at := Terminating), None, partial, node));
    WithOpTwice(w, id, op.(cancelRequested := true), op.(at := Terminating));
  }

  /** Cancelled again while its rsync is being killed, a transfer is finalised
      with that rsync running. */
  lemma CancelledAgain(cfg: Config, ws: seq<World>, es: seq<Event>, id: string, call: nat)
    returns (ws': seq<World>, es': seq<Event>)
    requires IsRun(cfg, ws, es) && Cancellable(ws[|es|], id) && ws[|es|].ops[id].at.Terminating?
    requires ws[|es|].ops[id].rec.startedAt.Some? && call !in ws[|es|].calls && call !in ws[|es|].reports
    ensures IsRun(cfg, ws', es')
    ensures var w := ws[|es|];
            ws'[|es'|] == WithOp(w, id, Abandoned(w.ops[id], w.clock))
                          .(claimed := w.claimed - {w.ops[id].rec.key}, calls := w.calls[call := id])
  {
    hide BodyEffect;
    var w := ws[|es|];
    var op := w.ops[id];
    var partial, node := PartialOf(cfg, w, op), Lookup(w.nodes, op.rec.key);
    var asked := op.(cancelRequested := true);
    Cancels(cfg, asked, partial, node);
    ws', es' := CancelReaches(cfg, ws, es, id, call);
    ws', es' := Enters(cfg, ws', es', id, CancelDelivered,
                       Effect(asked.(at := Done, recancelled := true), Some(R.Cancelled), partial, node));
    WithOpTwice(w, id, asked, Abandoned(op, w.clock));
  }

  /** The worlds of manager 0 alone. */
  lemma OneManager(cfg: Config) returns (ws: seq<World>, es: seq<Event>)
    ensures IsRun(cfg, ws, es) && ws[|es|] == INITIAL.(managers := map[0 := Open])
  {
    ws, es := [INITIAL], [];
    ws, es := Extend(cfg, ws, es, NewManager(0), INITIAL.(managers := map[0 := Open]));
  }

  /** A write by the rsync of `id`. */
  lemma Writes(cfg: Config, ws: seq<World>, es: seq<Event>, id: string, c: Content)
    returns (ws': seq<World>, es': seq<Event>)
    requires IsRun(cfg, ws, es) && id in ws[|es|].ops && ws[|es|].ops[id].rsyncAlive
    ensures IsRun(cfg, ws', es')
    ensures var w := ws[|es|];
            var p := PartialName(cfg.token, w.ops[id].ends);
            ws'[|es'|] == w.(ops := Taint(w.ops, Sharing(cfg, w.ops, id, p)), partials := w.partials[p := c])
  {
    var w := ws[|es|];
    var p := PartialName(cfg.token, w.ops[id].ends);
    PutBack(w.nodes, w.ops[id].rec.key);
    var ops := Taint(w.ops, Sharing(cfg, w.ops, id, p));
    assert ops[id := w.ops[id]] == ops;
    ws', es' := Extend(cfg, ws, es, Body(id, RsyncWrote(c)), w.(ops := ops, partials := w.partials[p := c]));
  }

  /** rsync ends well and the task goes on to verify. */
  lemma CopyVerifies(cfg: Config, ws: seq<World>, es: seq<Event>, id: string, c: Content)
    returns (ws': seq<World>, es': seq<Event>)
    requires IsRun(cfg, ws, es) && id in ws[|es|].ops
    requires var w := ws[|es|]; var op := w.ops[id];
             && op.at.Copying? && op.rsyncAlive && !op.cancelRequested && op.rec.state.Running?
             && PartialOf(cfg, w, op) == Some(c)
    ensures IsRun(cfg, ws', es') && ws'[|es'|] == WithOp(ws[|es|], id, CopiedOp(ws[|es|].ops[id]))
  {
    hide BodyEffect;
    var w := ws[|es|];
    var op := w.ops[id];
    var node := Lookup(w.nodes, op.rec.key);
    var exited := op.(rsyncAlive := false, rsyncOk := true);
    CopyEnds(cfg, op, c, node);
    CopyEnds(cfg, exited, c, node);
    ws', es' := Acts(cfg, ws, es, id, RsyncExited(true), Effect(exited, None, Some(c), node));
    var at := if op.ends.direction.Download? then HashSource else HashPartial;
    ws', es' := Advances(cfg, ws', es', id, Copied, Effect(exited.(at := at), Some(R.Verifying), Some(c), node), CopiedOp(op));
    WithOpTwice(w, id, exited, CopiedOp(op));
  }

  function CopiedOp(op: Operation): Operation {
    op.(at := if op.ends.direction.Download? then HashSource else HashPartial,
        rsyncAlive := false, rsyncOk := true, rec := op.rec.(state := R.Verifying))
  }

  lemma DownloadVerifies(cfg: Config, ws: seq<World>, es: seq<Event>, id: string, c: Content)
    returns (ws': seq<World>, es': seq<Event>)
    requires IsRun(cfg, ws, es) && id in ws[|es|].ops
    requires var w := ws[|es|]; var op := w.ops[id];
             && op.at.HashSource? && op.ends.direction.Download? && !op.cancelRequested
             && op.partialHash.None? && PartialOf(cfg, w, op) == Some(c)
    ensures IsRun(cfg, ws', es')
    ensures var h := Some(cfg.digest(c));
            ws'[|es'|] == WithOp(ws[|es|], id, ws[|es|].ops[id].(at := HashPartial, sourceHash := h, partialHash := h))
  {
    hide BodyEffect;
    var w := ws[|es|];
    var op, h := w.ops[id], Some(cfg.digest(c));
    var node := Lookup(w.nodes, op.rec.key);
    var hashed := op.(at := HashPartial, sourceHash := h);
    Hashes(cfg, op, cfg.digest(c), Some(c), node);
    Compares(cfg, hashed, c, node);
    ws', es' := Acts(cfg, ws, es, id, SourceHashed(cfg.digest(c)), Effect(hashed, None, Some(c), node));
    ws', es' := Acts(cfg, ws', es', id, PartialHashed, Effect(hashed.(partialHash := h), None, Some(c), node));
    WithOpTwice(w, id, hashed, hashed.(partialHash := h));
  }

  /** The first half of LeftoverRun: a download cancelled twice, and the same
      download started again. */
  lemma StartedAgain(cfg: Config, ends: Endpoints) returns (ws: seq<World>, es: seq<Event>, left: Operation)
    requires cfg.maxTransfers > 0 && ends.Valid() && ends.direction.Download?
    ensures IsRun(cfg, ws, es)
    ensures var w := ws[|es|];
            && left.ends == ends && left.rec.key == ResourceKey(ends) && left.rsyncAlive && left.recancelled && left.rec.state.Cancelled?
            && w.ops == map["a" := left,
                            "b" := Copying(cfg, NewOperation(0, ends, false, R.NewRecord(left.rec.key).(reserved := true)), w.clock)]
            && w.partials == map[] && w.nodes == map[]
  {
    var key := ResourceKey(ends);
    var kept;
    ws, es := OneManager(cfg);
    ws, es, kept := Begins(cfg, ws, es, "a", ends, false);
    ws, es := DownloadCopies(cfg, ws, es, "a");
    ws, es := CancelledOnce(cfg, ws, es, "a", 0);
    ws, es := CancelledAgain(cfg, ws, es, "a", 1);
    left := ws[|es|].ops["a"];
    assert ws[|es|].claimed == {};
    ws, es, kept := Begins(cfg, ws, es, "b", ends, false);
    ws, es := DownloadCopies(cfg, ws, es, "b");
  }

  /** For any two contents there is a run in which the source hashed to that of
      `good`, the transfer COMPLETED, and its destination holds `bad`: written by
      the rsync that an earlier transfer, cancelled twice, left behind. */
  lemma LeftoverRun(cfg: Config, ends: Endpoints, good: Content, bad: Content)
    returns (ws: seq<World>, es: seq<Event>)
    requires cfg.maxTransfers > 0 && ends.Valid() && ends.direction.Download?
    ensures IsRun(cfg, ws, es)
    ensures var w := ws[|es|];
            && "b" in w.ops && w.ops["b"].ends == ends && w.ops["b"].rec.state.Completed?
            && w.ops["b"].sourceHash == Some(cfg.digest(good))
            && Lookup(w.nodes, ResourceKey(ends)) == Some(File(bad))
    ensures var w := ws[|es|];
            "a" in w.ops && w.ops["a"].rec.state.Cancelled? && w.ops["a"].recancelled && w.ops["a"].rsyncAlive
  {
    hide ResourceKey;
    var left: Operation;
    ws, es, left := StartedAgain(cfg, ends);
    var p := PartialName(cfg.token, ends);
    var copying := ws[|es|].ops["b"];
    hide PartialName;
    ws, es := Writes(cfg, ws, es, "b", good);
    assert Sharing(cfg, map["a" := left, "b" := copying], "b", p) == {};
    assert ws[|es|].ops == map["a" := left, "b" := copying];
    ws, es := CopyVerifies(cfg, ws, es, "b", good);
    ws, es := DownloadVerifies(cfg, ws, es, "b", good);
    ws, es := StrangerWrites(cfg, ws, es, left, ws[|es|].ops["b"], bad);
    ws, es := Publishes(cfg, ws, es, "b", bad);
  }

  /** The rsync left by "a" writes to the partial of "b". */
  lemma StrangerWrites(cfg: Config, ws: seq<World>, es: seq<Event>, left: Operation, op: Operation, bad: Content)
    returns (ws': seq<World>, es': seq<Event>)
    requires IsRun(cfg, ws, es) && ws[|es|].ops == map["a" := left, "b" := op]
    requires left.rsyncAlive && left.ends == op.ends && !op.rec.state.Final()
    ensures IsRun(cfg, ws', es') && ws'[|es'|].nodes == ws[|es|].nodes
    ensures ws'[|es'|].ops == map["a" := left, "b" := op.(tainted := true)]
    ensures PartialOf(cfg, ws'[|es'|], op) == Some(bad)
  {
    hide PartialName;
    ws', es' := Writes(cfg, ws, es, "a", bad);
    assert Sharing(cfg, map["a" := left, "b" := op], "a", PartialName(cfg.token, op.ends)) == {"b"};
  }

  lemma Publishes(cfg: Config, ws: seq<World>, es: seq<Event>, id: string, c: Content)
    returns (ws': seq<World>, es': seq<Event>)
    requires IsRun(cfg, ws, es) && id in ws[|es|].ops
    requires var w := ws[|es|]; var op := w.ops[id];
             && op.at.HashPartial? && op.ends.direction.Download? && !op.cancelRequested
             && op.sourceHash.Some? && op.partialHash == op.sourceHash
             && PartialOf(cfg, w, op) == Some(c)
             && (op.rec.key in w.nodes ==> op.overwrite && w.nodes[op.rec.key].File?)
    ensures IsRun(cfg, ws', es') && |es'| == |es| + 1 && ws'[|es|] == ws[|es|]
    ensures var w, w' := ws[|es|], ws'[|es'|];
            && w'.ops.Keys == w.ops.Keys && (forall i | i in w.ops && i != id :: w'.ops[i] == w.ops[i])
            && w'.ops[id].rec.state.Completed? && w'.ops[id].sourceHash == w.ops[id].sourceHash
            && w'.ops[id].ends == w.ops[id].ends
            && Lookup(w'.nodes, w.ops[id].rec.key) == Some(File(c))
  {
    var w := ws[|es|];
    hide PartialName;
    assert Taint(w.ops, {}) == w.ops;
    ws', es' := Extend(cfg, ws, es, Body(id, DownloadChecked(None, true, true)),
                       Moved(cfg, w, id, DownloadChecked(None, true, true)).value);
  }

  lemma UploadCopies(cfg: Config, ws: seq<World>, es: seq<Event>, id: string, hash: string)
    returns (ws': seq<World>, es': seq<Event>)
    requires IsRun(cfg, ws, es) && id in ws[|es|].ops
    requires Fresh(ws[|es|].ops[id]) && ws[|es|].ops[id].ends.direction.Upload?
    ensures IsRun(cfg, ws', es')
    ensures ws'[|es'|] == WithOp(ws[|es|], id, Copying(cfg, ws[|es|].ops[id], ws[|es|].clock).(sourceHash := Some(hash)))
  {
    var w := ws[|es|];
    var op := w.ops[id];
    var partial, node := PartialOf(cfg, w, op), Lookup(w.nodes, op.rec.key);
    hide BodyEffect;
    BeginsBody(cfg, op, partial, node);
    var run := op.(rec := op.rec.(state := R.Running, startedAt := Some(w.clock)), at := StatSource);
    ws', es' := Advances(cfg, ws, es, id, Begin, Effect(op.(at := StatSource), Some(R.Running), partial, node), run);
    UploadPrepares(cfg, run, partial, node);
    UploadPrepares(cfg, run.(at := CheckDestination), partial, node);
    UploadPrepares(cfg, run.(at := PreparePartial), partial, node);
    Hashes(cfg, run.(at := HashSource), hash, partial, node);
    if op.overwrite {
      ws', es' := Acts(cfg, ws', es', id, Stated(false), Effect(run.(at := PreparePartial), None, partial, node));
      WithOpTwice(w, id, run, run.(at := PreparePartial));
    } else {
      ws', es' := Acts(cfg, ws', es', id, Stated(false), Effect(run.(at := CheckDestination), None, partial, node));
      WithOpTwice(w, id, run, run.(at := CheckDestination));
      ws', es' := Acts(cfg, ws', es', id, DestinationAbsent, Effect(run.(at := PreparePartial), None, partial, node));
      WithOpTwice(w, id, run.(at := CheckDestination), run.(at := PreparePartial));
    }
    ws', es' := Acts(cfg, ws', es', id, Prepared(false), Effect(run.(at := HashSource), None, partial, node));
    WithOpTwice(w, id, run.(at := PreparePartial), run.(at := HashSource));
    var hashed := run.(at := ReadyMaster, sourceHash := Some(hash));
    Spawns(cfg, hashed, partial, node);
    ws', es' := Acts(cfg, ws', es', id, SourceHashed(hash), Effect(hashed, None, partial, node));
    WithOpTwice(w, id, run.(at := HashSource), hashed);
    ws', es' := Acts(cfg, ws', es', id, Spawned,
                     Effect(hashed.(at := TransferWorld.Copying, rsyncAlive := true), None, partial, node));
    WithOpTwice(w, id, hashed, Copying(cfg, op, w.clock).(sourceHash := Some(hash)));
    assert ws'[|es'|] == WithOp(w, id, Copying(cfg, op, w.clock).(sourceHash := Some(hash)));
  }

  lemma UploadVerifies(cfg: Config, ws: seq<World>, es: seq<Event>, id: string, c: Content)
    returns (ws': seq<World>, es': seq<Event>)
    requires IsRun(cfg, ws, es) && id in ws[|es|].ops
    requires var w := ws[|es|]; var op := w.ops[id];
             && op.at.HashPartial? && op.ends.direction.Upload? && !op.cancelRequested
             && op.sourceHash == Some(cfg.digest(c)) && op.partialHash.None? && PartialOf(cfg, w, op) == Some(c)
    ensures IsRun(cfg, ws', es')
    ensures ws'[|es'|] == WithOp(ws[|es|], id, ws[|es|].ops[id].(at := Publishing, partialHash := Some(cfg.digest(c))))
  {
    hide BodyEffect;
    var w := ws[|es|];
    var op := w.ops[id];
    var node := Lookup(w.nodes, op.rec.key);
    var verified := op.(partialHash := Some(cfg.digest(c)));
    Compares(cfg, op, c, node);
    Compares(cfg, verified, c, node);
    ws', es' := Acts(cfg, ws, es, id, PartialHashed, Effect(verified, None, Some(c), node));
    ws', es' := Acts(cfg, ws', es', id, UploadChecked, Effect(verified.(at := Publishing), None, Some(c), node));
    WithOpTwice(w, id, verified, verified.(at := Publishing));
  }

  /** A directory that appears at the destination while an upload copies: the
      upload, which must not overwrite, COMPLETES, and the destination is still
      that directory. */
  lemma DirectoryRun(cfg: Config, ends: Endpoints, c: Content) returns (ws: seq<World>, es: seq<Event>)
    requires cfg.maxTransfers > 0 && ends.Valid() && ends.direction.Upload?
    ensures IsRun(cfg, ws, es)
    ensures var w := ws[|es|];
            && "a" in w.ops && w.ops["a"].ends == ends && !w.ops["a"].overwrite && w.ops["a"].rec.state.Completed?
            && Lookup(w.nodes, ResourceKey(ends)) == Some(Directory)
  {
    var key := ResourceKey(ends);
    var kept;
    ws, es := OneManager(cfg);
    ws, es, kept := Begins(cfg, ws, es, "a", ends, false);
    ws, es := UploadCopies(cfg, ws, es, "a", cfg.digest(c));
    var copying := ws[|es|].ops["a"];
    ws, es := Writes(cfg, ws, es, "a", c);
    assert Sharing(cfg, map["a" := copying], "a", PartialName(cfg.token, ends)) == {};
    assert ws[|es|].ops == map["a" := copying];
    ws, es := Extend(cfg, ws, es, Elsewhere(key, Some(Directory)), ws[|es|].(nodes := map[key := Directory]));
    ws, es := CopyVerifies(cfg, ws, es, "a", c);
    ws, es := UploadVerifies(cfg, ws, es, "a", c);
    ws, es := LinksInside(cfg, ws, es, "a", c);
  }

  lemma LinksInside(cfg: Config, ws: seq<World>, es: seq<Event>, id: string, c: Content)
    returns (ws': seq<World>, es': seq<Event>)
    requires IsRun(cfg, ws, es) && id in ws[|es|].ops
    requires var w := ws[|es|]; var op := w.ops[id];
             && op.at.Publishing? && op.scriptOk.None? && !op.overwrite && !op.cancelRequested
             && PartialOf(cfg, w, op) == Some(c) && Lookup(w.nodes, op.rec.key) == Some(Directory)
    ensures IsRun(cfg, ws', es')
    ensures var w, w' := ws[|es|], ws'[|es'|];
            && w'.nodes == w.nodes && id in w'.ops && w'.ops[id].rec.state.Completed?
            && w'.ops[id].ends == w.ops[id].ends && w'.ops[id].overwrite == w.ops[id].overwrite
  {
    var op := ws[|es|].ops[id];
    ws', es' := ScriptLinks(cfg, ws, es, id, c);
    ws', es' := Enters(cfg, ws', es', id, ScriptReturned,
                       Effect(op.(scriptOk := Some(true), linkedInside := true, at := Done), Some(R.Completed), None, Some(Directory)));
  }

  lemma ScriptLinks(cfg: Config, ws: seq<World>, es: seq<Event>, id: string, c: Content)
    returns (ws': seq<World>, es': seq<Event>)
    requires IsRun(cfg, ws, es) && id in ws[|es|].ops
    requires var w := ws[|es|]; var op := w.ops[id];
             && op.at.Publishing? && op.scriptOk.None? && !op.overwrite && !op.cancelRequested
             && PartialOf(cfg, w, op) == Some(c) && Lookup(w.nodes, op.rec.key) == Some(Directory)
    ensures IsRun(cfg, ws', es')
    ensures var w := ws[|es|];
            ws'[|es'|] == WithOp(w, id, w.ops[id].(scriptOk := Some(true), linkedInside := true))
                          .(partials := w.partials - {PartialName(cfg.token, w.ops[id].ends)})
  {
    hide PartialName;
    var w := ws[|es|];
    var op := w.ops[id];
    var p := PartialName(cfg.token, op.ends);
    assert Taint(w.ops, {}) == w.ops;
    PutBack(w.nodes, op.rec.key);
    ws', es' := Extend(cfg, ws, es, Body(id, ScriptRan(true, true)),
                       WithOp(w, id, op.(scriptOk := Some(true), linkedInside := true)).(partials := w.partials - {p}));
  }
}
