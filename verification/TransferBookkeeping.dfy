/** The bookkeeping of TransferWorld in both directions, over every run: when a
    transfer is accepted, how long it is remembered, and when `cancel` and `close`
    return (remote_ssh_mcp/transfers.py). */
module TransferBookkeeping {
  import opened Options
  import opened PartialNames
  import opened TransferWorld
  import opened TransferInvariant
  import opened TransferSteps
  import opened TransferRuns
  import R = TransferRecords

  /** Somebody in the process is still writing to the destination of `ends`. */
  predicate Busy(w: World, ends: Endpoints) {
    exists i | i in w.ops :: Unfinished(w, i) && SameDestination(ends, w.ops[i].ends)
  }

  lemma BusyIsClaimed(w: World, ends: Endpoints)
    requires Operations(w) && ClaimsExact(w) && Named(w) && ends.Valid()
    ensures ResourceKey(ends) in w.claimed <==> Busy(w, ends)
  {
    hide ResourceKey, Endpoints.Valid, SameDestination, OperationOk;
    forall i | i in w.ops
      ensures Unfinished(w, i) <==> w.ops[i].rec.reserved
      ensures w.ops[i].rec.key == ResourceKey(ends) <==> SameDestination(ends, w.ops[i].ends)
    {
      UnfinishedIsReserved(w, i);
      ResourceKeyMeaning(ends, w.ops[i].ends);
    }
    if ResourceKey(ends) in HeldKeys(w) {
      var i :| i in w.ops && w.ops[i].rec.reserved && w.ops[i].rec.key == ResourceKey(ends);
      assert Unfinished(w, i) && SameDestination(ends, w.ops[i].ends);
    }
  }

  /** In every run, starting a transfer with a fresh id registers it exactly if its
      manager is open, has fewer unfinished transfers than it may, and nobody is
      still writing to the same destination. It is then waiting for its first step,
      with the endpoints and the `overwrite` it was given; no other operation is
      touched either way. */
  lemma StartExactly(cfg: Config, ws: seq<World>, es: seq<Event>, k: nat, m: ManagerId, id: string, ends: Endpoints, overwrite: bool)
    requires IsRun(cfg, ws, es) && k < |es| && es[k] == Start(m, id, ends, overwrite)
    ensures m in ws[k].managers && id !in ws[k].ops && ends.Valid()
    ensures id in ws[k + 1].ops
            <==> ws[k].managers[m].Open? && |UnfinishedOf(ws[k], m)| < cfg.maxTransfers && !Busy(ws[k], ends)
    ensures id in ws[k + 1].ops ==>
              var op := ws[k + 1].ops[id];
              && Unfinished(ws[k + 1], id) && op.rec.state.Pending? && op.at.Created? && id in ws[k + 1].registered
              && op.ends == ends && op.overwrite == overwrite && op.manager == m
    ensures ws[k + 1].ops == if id in ws[k + 1].ops then ws[k].ops[id := ws[k + 1].ops[id]] else ws[k].ops
  {
    hide Inv, Endpoints.Valid, Started, Busy, Named;
    RunInv(cfg, ws, es, k);
    RunStep(cfg, ws, es, k);
    assert Next(cfg, ws[k], es[k]) == Started(cfg, ws[k], m, id, ends, overwrite);
    hide Next;
    AcceptedExactly(cfg, ws[k], m, id, ends, overwrite);
  }

  lemma AcceptedExactly(cfg: Config, w: World, m: ManagerId, id: string, ends: Endpoints, overwrite: bool)
    requires Inv(cfg, w) && Named(w) && Started(cfg, w, m, id, ends, overwrite).Some?
    ensures m in w.managers && id !in w.ops && ends.Valid()
    ensures var w' := Started(cfg, w, m, id, ends, overwrite).value;
            var accepted := w.managers[m].Open? && |UnfinishedOf(w, m)| < cfg.maxTransfers && !Busy(w, ends);
            && (accepted ==> w'.ops == w.ops[id := NewOperation(m, ends, overwrite, R.NewRecord(ResourceKey(ends)).(reserved := true))])
            && (accepted ==> id in w'.registered)
            && (!accepted ==> w'.ops == w.ops)
  {
    hide ResourceKey, Endpoints.Valid, Started, Busy;
    StartedFrom(cfg, w, m, id, ends, overwrite);
    BusyIsClaimed(w, ends);
    assert ActiveOf(w, m) == UnfinishedOf(w, m);
    hide Inv, Named;
  }

  lemma StartedFrom(cfg: Config, w: World, m: ManagerId, id: string, ends: Endpoints, overwrite: bool)
    requires Operations(w) && Registered(w) && Started(cfg, w, m, id, ends, overwrite).Some?
    ensures m in w.managers && id !in w.ops && ends.Valid()
    ensures var w' := Started(cfg, w, m, id, ends, overwrite).value;
            var accepted := w.managers[m].Open? && |ActiveOf(w, m)| < cfg.maxTransfers && ResourceKey(ends) !in w.claimed;
            && (accepted ==> w'.ops == w.ops[id := NewOperation(m, ends, overwrite, R.NewRecord(ResourceKey(ends)).(reserved := true))])
            && (accepted ==> id in w'.registered)
            && (!accepted ==> w'.ops == w.ops)
  {
    PrunedActive(cfg, w, m);
    hide ResourceKey, R.Pruned, R.ActiveIds, ActiveOf, Operations, Registered;
    var rec := R.NewRecord(ResourceKey(ends));
    assert id !in Records(w, m);
    R.RegisterMeaning(Records(w, m), w.claimed, cfg.maxTransfers, cfg.ttl, w.clock, id, rec);
  }

  // How long a finished operation is remembered.

  /** Finished at least the time to live ago. */
  predicate Forgotten(cfg: Config, w: World, id: string)
    requires id in w.ops
  {
    var r := w.ops[id].rec;
    r.state.Final() && r.finishedAt.Some? && w.clock >= r.finishedAt.value + cfg.ttl
  }

  /** Looking up or listing the transfers of a manager drops exactly those of its
      operations that finished at least the time to live ago. */
  lemma PrunedExactly(cfg: Config, ws: seq<World>, es: seq<Event>, k: nat, m: ManagerId, id: string)
    requires IsRun(cfg, ws, es) && k < |es| && es[k] == Prune(m) && id in ws[k].ops
    ensures id in ws[k + 1].registered
            <==> id in ws[k].registered && !(ws[k].ops[id].manager == m && Forgotten(cfg, ws[k], id))
    ensures ws[k + 1] == ws[k].(registered := ws[k + 1].registered)
  {
    RunInv(cfg, ws, es, k);
    RunStep(cfg, ws, es, k);
    assert OperationOk(ws[k].ops[id]);
    hide Inv, Named;
    assert Next(cfg, ws[k], es[k]) == Some(Listed(cfg, ws[k], m));
  }

  lemma OwnStamp(cfg: Config, w: World, id: string, b: BodyEvent)
    requires Operations(w) && Moved(cfg, w, id, b).Some?
    ensures id in w.ops && id in Moved(cfg, w, id, b).value.ops
    ensures Stamps(w, id, Moved(cfg, w, id, b).value.ops[id])
  {
    var f := BodyFits(cfg, w, id, b);
    hide BodyEffect, Moved, Operations;
    SettleStamps(cfg, w, id, b, f);
  }

  predicate Stamps(w: World, id: string, op: Operation)
    requires id in w.ops
  {
    Unfinished(w, id) && op.rec.state.Final() ==> op.rec.finishedAt == Some(w.clock)
  }

  lemma SettleStamps(cfg: Config, w: World, id: string, b: BodyEvent, f: Effect)
    requires id in w.ops && EffectFits(w.ops[id], f)
    ensures id in Settle(cfg, w, id, b, f).ops && Stamps(w, id, Settle(cfg, w, id, b, f).ops[id])
  {
    hide TaskFits, Doomed, PartialName;
  }

  lemma OthersStamp(cfg: Config, w: World, id: string, b: BodyEvent, i: string)
    requires Moved(cfg, w, id, b).Some? && i in w.ops && i != id
    ensures i in Moved(cfg, w, id, b).value.ops && Moved(cfg, w, id, b).value.ops[i].rec == w.ops[i].rec
  {
    hide BodyEffect, PartialName;
  }

  lemma QuietStamp(cfg: Config, w: World, e: Event, id: string)
    requires Next(cfg, w, e).Some? && !e.Body? && !e.Start? && id in w.ops
    ensures id in Next(cfg, w, e).value.ops && Stamps(w, id, Next(cfg, w, e).value.ops[id])
  {
  }

  lemma StartStamp(cfg: Config, w: World, m: ManagerId, i: string, ends: Endpoints, overwrite: bool, id: string)
    requires Started(cfg, w, m, i, ends, overwrite).Some? && id in w.ops
    ensures id in Started(cfg, w, m, i, ends, overwrite).value.ops
    ensures Started(cfg, w, m, i, ends, overwrite).value.ops[id] == w.ops[id]
  {
    hide R.Register, ResourceKey, Endpoints.Valid;
  }

  /** The time an operation is remembered from is the clock at the step that
      finished it. */
  lemma FinishedWhen(cfg: Config, ws: seq<World>, es: seq<Event>, i: nat, k: nat, id: string)
    requires IsRun(cfg, ws, es) && i < k < |ws| && Unfinished(ws[i], id)
    requires id in ws[i + 1].ops && !Unfinished(ws[i + 1], id)
    ensures id in ws[k].ops && ws[k].ops[id].rec.finishedAt == Some(ws[i].clock)
  {
    FinalIsAbsorbing(cfg, ws, es, i + 1, k, id);
    RunInv(cfg, ws, es, i);
    RunStep(cfg, ws, es, i);
    var e := es[i];
    if e.Body? {
      assert Next(cfg, ws[i], e) == Moved(cfg, ws[i], e.id, e.b);
      hide Next, Named;
      if e.id == id {
        OwnStamp(cfg, ws[i], id, e.b);
      } else {
        OthersStamp(cfg, ws[i], e.id, e.b, id);
      }
      hide Inv;
    } else if e.Start? {
      assert Next(cfg, ws[i], e) == Started(cfg, ws[i], e.m, e.id, e.ends, e.overwrite);
      hide Next, Named, Inv;
      StartStamp(cfg, ws[i], e.m, e.id, e.ends, e.overwrite, id);
    } else {
      hide Named, Inv;
      QuietStamp(cfg, ws[i], e, id);
      hide Next;
    }
  }

  // `cancel` and `close`.

  /** `cancel` on an operation in its manager's dictionary answers at once with its
      state exactly if that is final, and changes nothing then. Otherwise the call
      waits, and the task, unless it is over, is told to stop; nobody else is. */
  lemma CancelExactly(cfg: Config, ws: seq<World>, es: seq<Event>, k: nat, call: nat, m: ManagerId, id: string)
    requires IsRun(cfg, ws, es) && k < |es| && es[k] == BeginCancel(call, m, id)
    ensures id in ws[k].ops && id in ws[k].registered && ws[k].ops[id].manager == m
    ensures !Unfinished(ws[k], id) ==> ws[k + 1] == ws[k].(reports := ws[k].reports[call := ws[k].ops[id].rec.state])
    ensures Unfinished(ws[k], id) ==>
              && ws[k + 1].calls == ws[k].calls[call := id] && ws[k + 1].reports == ws[k].reports
              && var told := ws[k].ops[id].cancelRequested || !ws[k].ops[id].at.Done?;
                 ws[k + 1].ops == ws[k].ops[id := ws[k].ops[id].(cancelRequested := told)]
  {
    RunStep(cfg, ws, es, k);
    assert Next(cfg, ws[k], es[k]) == CancelBegun(ws[k], call, m, id);
    hide Next;
  }

  /** A waiting `cancel` can return exactly once the task is over. */
  lemma CancelReturnsExactly(cfg: Config, w: World, call: nat)
    requires Inv(cfg, w) && call in w.calls
    ensures w.calls[call] in w.ops
    ensures Next(cfg, w, FinishCancel(call)).Some? <==> w.ops[w.calls[call]].at.Done?
  {
    hide Operations, Registered, Exclusive, ClaimsExact, Bounded, Closings, Waits, SetState;
  }

  /** `close` on an open manager waits for its unfinished operations and tells the
      task of each of them, unless it is over, to stop; nobody else is told. A
      second `close` does nothing. */
  lemma CloseExactly(cfg: Config, ws: seq<World>, es: seq<Event>, k: nat, m: ManagerId)
    requires IsRun(cfg, ws, es) && k < |es| && es[k] == BeginClose(m)
    ensures m in ws[k].managers
    ensures !ws[k].managers[m].Open? ==> ws[k + 1] == ws[k]
    ensures ws[k].managers[m].Open? ==>
              && ws[k + 1].managers == ws[k].managers[m := Closing(UnfinishedOf(ws[k], m))]
              && ws[k + 1].ops.Keys == ws[k].ops.Keys
              && forall id | id in ws[k].ops ::
                   ws[k + 1].ops[id] == ws[k].ops[id].(cancelRequested := ws[k].ops[id].cancelRequested
                                                       || (id in UnfinishedOf(ws[k], m) && !ws[k].ops[id].at.Done?))
  {
    RunInv(cfg, ws, es, k);
    RunStep(cfg, ws, es, k);
    assert Next(cfg, ws[k], es[k]) == CloseBegun(ws[k], m);
    ActiveAreRegistered(ws[k], m);
    assert ActiveOf(ws[k], m) == UnfinishedOf(ws[k], m);
    hide Next, Inv, Named;
  }

  /** `close` can return exactly once every operation it waits for is final. */
  lemma CloseReturnsExactly(cfg: Config, w: World, m: ManagerId)
    requires Inv(cfg, w) && m in w.managers && w.managers[m].Closing?
    ensures Next(cfg, w, FinishClose(m)).Some?
            <==> forall id | id in w.managers[m].waiting && id in w.ops :: w.ops[id].at.Done? && w.ops[id].rec.state.Final()
  {
    hide Registered, Exclusive, ClaimsExact, Bounded, Closings, Waits;
  }

  /** Whoever gives up waiting in `cancel` or `close` passes the cancellation on:
      each task waited for is told to stop once more, unless it is over. */
  lemma GivingUpExactly(cfg: Config, ws: seq<World>, es: seq<Event>, k: nat)
    requires IsRun(cfg, ws, es) && k < |es|
    requires es[k].AbandonCancel? || es[k].AbandonClose?
    ensures es[k].AbandonCancel? ==> es[k].call in ws[k].calls && es[k].call !in ws[k + 1].calls && ws[k + 1].reports == ws[k].reports
    ensures es[k].AbandonClose? ==>
              && es[k].m in ws[k].managers && ws[k].managers[es[k].m].Closing?
              && ws[k + 1].managers == ws[k].managers[es[k].m := Abandoned]
    ensures var ids := if es[k].AbandonCancel? then {ws[k].calls[es[k].call]} else ws[k].managers[es[k].m].waiting;
            && ws[k + 1].ops.Keys == ws[k].ops.Keys
            && forall id | id in ws[k].ops ::
                 ws[k + 1].ops[id] == ws[k].ops[id].(cancelRequested := ws[k].ops[id].cancelRequested
                                                     || (id in ids && !ws[k].ops[id].at.Done?))
  {
    RunStep(cfg, ws, es, k);
  }
}
