/** What holds in every reachable state of TransferWorld: exact claim
    accounting, exclusive destinations, bounded concurrency. */
module TransferInvariant {
  import opened Options
  import opened PartialNames
  import opened TransferWorld
  import R = TransferRecords

  /** A task at this point leaves its operation in such a state; its rsync
      lives only while the task copies, kills it, or was cut off killing it. */
  predicate TaskFits(op: Operation, s: R.State) {
    && (match op.at
        case Created => s.Pending?
        case FreeSpace => s.Running? && op.ends.direction.Download?
        case CheckDestination => s.Running? && op.ends.direction.Upload?
        case PreparePartial => s.Running? && op.ends.direction.Upload?
        case HashSource => s == (if op.ends.direction.Download? then R.Verifying else R.Running)
        case HashPartial => s.Verifying?
        case Publishing => s.Verifying? && op.ends.direction.Upload?
        case Done => s.Final() || s.Pending?
        case _ => s.Running?)
    && (op.rsyncAlive ==> op.at.Copying? || op.at.Terminating? || (op.at.Done? && op.recancelled))
    && (op.recancelled ==> op.at.Done? && s.Cancelled?)
  }

  predicate RecordFits(r: R.Record) {
    && (r.reserved <==> !r.state.Final())
    && (r.finishedAt.Some? <==> r.state.Final())
  }

  predicate OperationOk(op: Operation) {
    RecordFits(op.rec) && TaskFits(op, op.rec.state)
  }

  /** A cancellation has been asked for: the task will raise at its next step,
      is killing rsync, or has ended without setting a state; or it is over. */
  predicate Doomed(op: Operation) {
    op.rec.state.Cancelled? || (!op.rec.state.Final() && (op.cancelRequested || op.at.Terminating? || op.at.Done?))
  }

  /** How one operation may change in a step: same transfer, never backwards,
      nothing after a final state, no claim taken twice, and a cancellation
      once asked for is never undone. */
  predicate Evolves(a: Operation, b: Operation) {
    && b.manager == a.manager && b.ends == a.ends && b.overwrite == a.overwrite
    && b.rec.key == a.rec.key
    && a.rec.state.Rank() <= b.rec.state.Rank()
    && (a.rec.state.Final() ==> b.rec == a.rec)
    && (b.rec.reserved ==> a.rec.reserved)
    && (a.at.Done? ==> b.at.Done?)
    && (a.recancelled ==> b.recancelled)
    && (Doomed(a) ==> Doomed(b))
  }

  ghost predicate AllEvolve(w: World, w': World) {
    && w.ops.Keys <= w'.ops.Keys
    && forall id | id in w.ops :: Evolves(w.ops[id], w'.ops[id])
  }

  function ActiveOf(w: World, m: ManagerId): set<string> {
    set id | id in w.ops && w.ops[id].manager == m && !w.ops[id].rec.state.Final()
  }

  ghost predicate Operations(w: World) {
    forall id | id in w.ops :: OperationOk(w.ops[id]) && w.ops[id].manager in w.managers
  }

  /** An operation holds its claim exactly as long as it is unfinished, and an
      unfinished operation is in its manager's dictionary. */
  ghost predicate Registered(w: World) {
    && w.registered <= w.ops.Keys
    && forall id | id in w.ops && w.ops[id].rec.reserved :: id in w.registered
  }

  function HeldKeys(w: World): set<string> {
    set id | id in w.ops && w.ops[id].rec.reserved :: w.ops[id].rec.key
  }

  ghost predicate ClaimsExact(w: World) {
    w.claimed == HeldKeys(w)
  }

  ghost predicate Exclusive(w: World) {
    forall i, j | i in w.ops && j in w.ops && i != j && w.ops[i].rec.reserved && w.ops[j].rec.reserved ::
      w.ops[i].rec.key != w.ops[j].rec.key
  }

  ghost predicate Bounded(cfg: Config, w: World) {
    forall m | m in w.managers :: |ActiveOf(w, m)| <= cfg.maxTransfers
  }

  /** A suspended `cancel` waits for an operation that can only end cancelled; a
      finished one answered with a final state. */
  ghost predicate Cancels(w: World) {
    && (forall c | c in w.calls :: w.calls[c] in w.ops && Doomed(w.ops[w.calls[c]]))
    && (forall c | c in w.reports :: w.reports[c].Final())
  }

  /** A closing manager waits for everything unfinished; a closed one has
      nothing unfinished. */
  ghost predicate Closings(w: World) {
    && (forall m | m in w.managers && w.managers[m].Closing? :: ActiveOf(w, m) <= w.managers[m].waiting)
    && (forall m | m in w.managers && w.managers[m].Closed? :: ActiveOf(w, m) == {})
  }

  predicate AllDoomed(w: World, ids: set<string>) {
    forall id | id in ids :: id in w.ops && Doomed(w.ops[id])
  }

  /** Whatever a closing manager waits for can only end cancelled. */
  ghost predicate Waits(w: World) {
    forall m | m in w.managers && w.managers[m].Closing? :: AllDoomed(w, w.managers[m].waiting)
  }

  ghost predicate Inv(cfg: Config, w: World) {
    && Operations(w)
    && Registered(w)
    && ClaimsExact(w)
    && Exclusive(w)
    && Bounded(cfg, w)
    && Cancels(w)
    && Closings(w)
    && Waits(w)
  }

  predicate SameAccount(a: Operation, b: Operation) {
    && b.manager == a.manager
    && b.rec.key == a.rec.key
    && b.rec.reserved == a.rec.reserved
    && b.rec.state.Final() == a.rec.state.Final()
  }

  /** `w'` has the operations of `w` with the same claims. */
  ghost predicate SameAccounts(w: World, w': World) {
    && w'.ops.Keys == w.ops.Keys
    && w'.managers.Keys == w.managers.Keys
    && forall id | id in w.ops :: SameAccount(w.ops[id], w'.ops[id])
  }

  /** Steps that move tasks without finishing anything. */
  lemma MovingKeeps(cfg: Config, w: World, w': World)
    requires Inv(cfg, w)
    requires SameAccounts(w, w')
    requires Operations(w')
    requires w'.claimed == w.claimed
    requires w'.registered <= w.registered
    requires forall id | id in w.registered && w.ops[id].rec.reserved :: id in w'.registered
    ensures Registered(w') && ClaimsExact(w') && Exclusive(w') && Bounded(cfg, w')
    ensures forall m :: ActiveOf(w', m) == ActiveOf(w, m)
  {
    hide OperationOk, Cancels, Closings, Waits;
    forall m ensures ActiveOf(w', m) == ActiveOf(w, m) {
      SameActive(w, w', m);
    }
    SameClaims(w, w');
    hide SameAccounts, Operations, ClaimsExact, Exclusive;
  }

  lemma SameActive(w: World, w': World, m: ManagerId)
    requires SameAccounts(w, w')
    ensures ActiveOf(w', m) == ActiveOf(w, m)
  {
  }

  lemma SameClaims(w: World, w': World)
    requires Registered(w) && ClaimsExact(w) && Exclusive(w) && SameAccounts(w, w') && w'.claimed == w.claimed
    requires w'.registered <= w.registered
    requires forall id | id in w.registered && w.ops[id].rec.reserved :: id in w'.registered
    ensures Registered(w') && ClaimsExact(w') && Exclusive(w')
  {
    assert HeldKeys(w') == HeldKeys(w);
  }

  /** `w'` is `w` with operation `id` finished and its claim given back. */
  ghost predicate Finishes(w: World, id: string, w': World) {
    && id in w.ops && !w.ops[id].rec.state.Final()
    && w'.ops.Keys == w.ops.Keys
    && (forall i | i in w.ops && i != id :: w'.ops[i] == w.ops[i])
    && OperationOk(w'.ops[id])
    && w'.ops[id].rec.state.Final()
    && Evolves(w.ops[id], w'.ops[id])
    && w'.claimed == w.claimed - {w.ops[id].rec.key}
    && w'.registered == w.registered
    && w'.managers == w.managers
  }

  lemma FinishingReleases(w: World, id: string, w': World)
    requires Operations(w) && Exclusive(w) && ClaimsExact(w) && Finishes(w, id, w')
    ensures ClaimsExact(w') && Exclusive(w')
  {
    hide TaskFits, Evolves;
    var k := w.ops[id].rec.key;
    forall x
      ensures x in HeldKeys(w') <==> x in HeldKeys(w) && x != k
    {
      if x in HeldKeys(w) && x != k {
        var i :| i in w.ops && w.ops[i].rec.reserved && w.ops[i].rec.key == x;
        assert w'.ops[i].rec.key == x;
      }
    }
  }

  lemma FinishingShrinks(w: World, id: string, w': World, m: ManagerId)
    requires Finishes(w, id, w')
    ensures ActiveOf(w', m) == ActiveOf(w, m) - {id}
    ensures |ActiveOf(w', m)| <= |ActiveOf(w, m)|
  {
    assert ActiveOf(w', m) == ActiveOf(w, m) - {id};
    SubsetSize(ActiveOf(w', m), ActiveOf(w, m));
  }

  lemma FinishingBounds(cfg: Config, w: World, id: string, w': World)
    requires Bounded(cfg, w) && Closings(w) && Finishes(w, id, w')
    ensures Bounded(cfg, w') && Closings(w')
  {
    forall m {
      FinishingShrinks(w, id, w', m);
    }
  }

  /** Finishing one operation releases exactly its own key. */
  lemma FinishingKeeps(cfg: Config, w: World, id: string, w': World)
    requires Inv(cfg, w) && Finishes(w, id, w')
    requires w'.calls.Items <= w.calls.Items && forall c | c in w'.reports :: w'.reports[c].Final()
    ensures Inv(cfg, w') && AllEvolve(w, w')
  {
    hide ClaimsExact, Exclusive, Bounded, Closings, Cancels, Waits;
    FinishingReleases(w, id, w');
    FinishingBounds(cfg, w, id, w');
    FinishingRest(w, id, w');
    WaitsKeep(w, w');
  }

  lemma FinishingRest(w: World, id: string, w': World)
    requires Operations(w) && Registered(w) && Finishes(w, id, w')
    ensures Operations(w') && Registered(w') && AllEvolve(w, w')
  {
    hide TaskFits;
  }

  /** What is waited for stays so while managers and waits are as they were. */
  lemma WaitsKeep(w: World, w': World)
    requires Cancels(w) && Waits(w) && AllEvolve(w, w')
    requires w'.calls.Items <= w.calls.Items && forall c | c in w'.reports :: w'.reports[c].Final()
    requires w'.managers == w.managers
    ensures Cancels(w') && Waits(w')
  {
    forall c | c in w'.calls ensures w'.calls[c] in w'.ops && Doomed(w'.ops[w'.calls[c]]) {
      assert (c, w'.calls[c]) in w.calls.Items;
    }
    forall m | m in w'.managers && w'.managers[m].Closing? ensures AllDoomed(w', w'.managers[m].waiting) {
      assert AllDoomed(w, w.managers[m].waiting);
    }
  }

  lemma SubsetSize<T>(a: set<T>, b: set<T>)
    requires a <= b
    ensures |a| <= |b|
  {
    if a != {} {
      var x :| x in a;
      SubsetSize(a - {x}, b - {x});
    }
  }

  /** A body event leaves who the operation is alone, and any state it sets is
      further on and suits the point it leaves the task at. */
  predicate EffectFits(op: Operation, f: Effect) {
    && f.op.ends == op.ends && f.op.manager == op.manager && f.op.overwrite == op.overwrite && f.op.rec == op.rec
    && (op.at.Done? ==> f.op.at.Done?)
    && f.op.tainted == op.tainted && (op.recancelled ==> f.op.recancelled)
    && (Doomed(op) ==> if f.state.Some? then f.state.value.Cancelled? else Doomed(f.op))
    && TaskFits(f.op, if f.state.Some? then f.state.value else op.rec.state)
    && (f.state.Some? ==> !op.rec.state.Final() && op.rec.state.Rank() < f.state.value.Rank())
  }

  lemma PrepareOk(op: Operation, b: BodyEvent, partial: Option<Content>, node: Option<Node>)
    requires TaskFits(op, op.rec.state) && !op.cancelRequested
    requires Prepare(op, b, partial, node).Some?
    ensures EffectFits(op, Prepare(op, b, partial, node).value)
  {
  }

  lemma PublishOk(op: Operation, content: Content, node: Option<Node>, raced: Option<Node>, ioOk: bool, unlinkOk: bool)
    requires TaskFits(op, op.rec.state) && op.at.HashPartial? && !op.cancelRequested
    ensures EffectFits(op, PublishDownload(op, content, node, raced, ioOk, unlinkOk))
  {
  }

  lemma ConcludeOk(op: Operation, b: BodyEvent, partial: Option<Content>, node: Option<Node>)
    requires TaskFits(op, op.rec.state) && !op.cancelRequested
    requires Conclude(op, b, partial, node).Some?
    ensures EffectFits(op, Conclude(op, b, partial, node).value)
  {
    if b.DownloadChecked? {
      if op.partialHash == op.sourceHash {
        PublishOk(op, partial.value, node, b.raced, b.ioOk, b.unlinkOk);
      }
    }
  }

  lemma ScriptOk(op: Operation, content: Content, node: Option<Node>, reports: bool)
    requires TaskFits(op, op.rec.state) && op.at.Publishing?
    ensures EffectFits(op, RunScript(op, content, node, reports))
    ensures RunScript(op, content, node, reports).state.None?
  {
    ReportFits(op, Some(reports), Some(content), op.linkedInside, RunScript(op, content, node, reports));
    ReportFits(op, Some(false), op.published, op.linkedInside, RunScript(op, content, node, reports));
    ReportFits(op, Some(reports), op.published, true, RunScript(op, content, node, reports));
    hide EffectFits, TaskFits;
  }

  lemma ReportFits(op: Operation, report: Option<bool>, published: Option<Content>, inside: bool, f: Effect)
    requires TaskFits(op, op.rec.state) && op.at.Publishing?
    requires f.op == op.(scriptOk := report, published := published, linkedInside := inside) ==> f.state.None?
    ensures f.op == op.(scriptOk := report, published := published, linkedInside := inside) ==> EffectFits(op, f)
  {
  }

  lemma ChildActsOk(cfg: Config, op: Operation, b: BodyEvent, partial: Option<Content>, node: Option<Node>)
    requires TaskFits(op, op.rec.state)
    requires ChildActs(cfg, op, b, partial, node).Some?
    ensures EffectFits(op, ChildActs(cfg, op, b, partial, node).value)
    ensures ChildActs(cfg, op, b, partial, node).value.state.None?
  {
    if b.ScriptRan? {
      if b.acts && partial.Some? {
        ScriptOk(op, partial.value, node, b.reports);
      }
    }
  }

  lemma CancelOk(op: Operation, partial: Option<Content>, node: Option<Node>)
    requires TaskFits(op, op.rec.state)
    requires Cancel(op, partial, node).Some?
    ensures EffectFits(op, Cancel(op, partial, node).value)
  {
  }

  lemma EffectOk(cfg: Config, op: Operation, b: BodyEvent, partial: Option<Content>, node: Option<Node>)
    requires TaskFits(op, op.rec.state)
    requires BodyEffect(cfg, op, b, partial, node).Some?
    ensures EffectFits(op, BodyEffect(cfg, op, b, partial, node).value)
    ensures b.RsyncWrote? ==> BodyEffect(cfg, op, b, partial, node).value.state.None?
  {
    if b.RsyncWrote? || b.RsyncExited? || b.PartialHashed? || b.ScriptRan? {
      ChildActsOk(cfg, op, b, partial, node);
    } else if b.CancelDelivered? {
      CancelOk(op, partial, node);
    } else if Prepare(op, b, partial, node).Some? {
      PrepareOk(op, b, partial, node);
    } else {
      ConcludeOk(op, b, partial, node);
    }
  }

  /** `w'` is `w` with operation `id` moved on but not finished, and possibly
      others marked as tainted. */
  ghost predicate Moves(w: World, id: string, w': World) {
    && id in w.ops
    && w'.ops.Keys == w.ops.Keys
    && (forall i | i in w.ops && i != id :: w'.ops[i] == w.ops[i] || w'.ops[i] == w.ops[i].(tainted := true))
    && SameAccount(w.ops[id], w'.ops[id])
    && Evolves(w.ops[id], w'.ops[id])
    && OperationOk(w'.ops[id])
    && w'.claimed == w.claimed
    && w'.registered == w.registered
    && w'.managers == w.managers
  }

  lemma PlaceMoves(w: World, id: string, p: PartialFile, f: Effect, tainted: set<string>)
    requires id in w.ops && OperationOk(w.ops[id]) && EffectFits(w.ops[id], f)
    requires f.state.Some? ==> !f.state.value.Final()
    ensures Moves(w, id, Place(w, id, p, f, tainted))
  {
    var w' := Place(w, id, p, f, tainted);
    assert SameAccount(w.ops[id], w'.ops[id]) && OperationOk(w'.ops[id]);
    assert forall i | i in w.ops && i != id :: w'.ops[i] == Taint(w.ops, tainted)[i];
  }

  lemma PlaceFinishes(w: World, id: string, p: PartialFile, f: Effect)
    requires id in w.ops && OperationOk(w.ops[id]) && EffectFits(w.ops[id], f)
    requires f.state.Some? && f.state.value.Final()
    ensures Finishes(w, id, Place(w, id, p, f, {}))
  {
  }

  lemma TaintedSame(a: Operation, b: Operation)
    requires OperationOk(a) && (b == a || b == a.(tainted := true))
    ensures OperationOk(b) && SameAccount(a, b) && Evolves(a, b) && b.manager == a.manager
  {
  }

  lemma MovesSame(w: World, id: string, w': World)
    requires Moves(w, id, w') && Operations(w)
    ensures SameAccounts(w, w') && Operations(w') && AllEvolve(w, w')
  {
    hide OperationOk, Evolves;
    forall i | i in w.ops
      ensures SameAccount(w.ops[i], w'.ops[i]) && Evolves(w.ops[i], w'.ops[i])
      ensures OperationOk(w'.ops[i]) && w'.ops[i].manager in w'.managers
    {
      if i != id {
        TaintedSame(w.ops[i], w'.ops[i]);
      }
    }
  }

  lemma MovesKeep(cfg: Config, w: World, id: string, w': World)
    requires Inv(cfg, w) && Moves(w, id, w')
    requires w'.calls == w.calls && w'.reports == w.reports
    ensures Inv(cfg, w') && AllEvolve(w, w')
  {
    MovesSame(w, id, w');
    MovingKeeps(cfg, w, w');
    WaitsKeep(w, w');
  }

  lemma PlaceKeeps(cfg: Config, w: World, id: string, p: PartialFile, f: Effect, tainted: set<string>)
    requires Inv(cfg, w) && id in w.ops && EffectFits(w.ops[id], f)
    requires f.state.Some? && f.state.value.Final() ==> tainted == {}
    ensures Inv(cfg, Place(w, id, p, f, tainted)) && AllEvolve(w, Place(w, id, p, f, tainted))
  {
    hide EffectFits, OperationOk, Registered, Exclusive, ClaimsExact, Bounded, Closings, Waits, Finishes, Moves;
    if f.state.Some? && f.state.value.Final() {
      PlaceFinishes(w, id, p, f);
      FinishingKeeps(cfg, w, id, Place(w, id, p, f, {}));
    } else {
      PlaceMoves(w, id, p, f, tainted);
      MovesKeep(cfg, w, id, Place(w, id, p, f, tainted));
    }
  }

  lemma BodyFits(cfg: Config, w: World, id: string, b: BodyEvent) returns (f: Effect)
    requires Operations(w) && Moved(cfg, w, id, b).Some?
    ensures id in w.ops && EffectFits(w.ops[id], f) && (b.RsyncWrote? ==> f.state.None?)
    ensures Moved(cfg, w, id, b) == Some(Settle(cfg, w, id, b, f))
  {
    hide BodyEffect, EffectFits, TaskFits, Settle;
    var op := w.ops[id];
    var partial, node := Lookup(w.partials, PartialName(cfg.token, op.ends)), Lookup(w.nodes, op.rec.key);
    assert OperationOk(op);
    EffectOk(cfg, op, b, partial, node);
    f := BodyEffect(cfg, op, b, partial, node).value;
  }

  lemma BodyKeeps(cfg: Config, w: World, id: string, b: BodyEvent)
    requires Inv(cfg, w) && Moved(cfg, w, id, b).Some?
    ensures Inv(cfg, Moved(cfg, w, id, b).value) && AllEvolve(w, Moved(cfg, w, id, b).value)
  {
    hide Operations, Registered, Exclusive, ClaimsExact, Bounded, Closings, Waits, Cancels, AllEvolve, EffectFits, Moved, Place;
    var f := BodyFits(cfg, w, id, b);
    var p := PartialName(cfg.token, w.ops[id].ends);
    PlaceKeeps(cfg, w, id, p, f, if b.RsyncWrote? then Sharing(cfg, w.ops, id, p) else {});
  }
}
