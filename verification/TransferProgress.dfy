/** No cancellation is ever stuck: from every reachable state of TransferWorld
    there is a way on in which a waiting `cancel` or `close` returns. */
module TransferProgress {
  import opened Options
  import opened PartialNames
  import opened TransferWorld
  import opened TransferInvariant
  import opened TransferSteps
  import opened TransferRuns
  import opened PublicationOutcomes
  import R = TransferRecords

  lemma Extend(cfg: Config, ws: seq<World>, es: seq<Event>, e: Event) returns (ws': seq<World>, es': seq<Event>)
    requires IsRun(cfg, ws, es) && Next(cfg, ws[|es|], e).Some?
    ensures IsRun(cfg, ws', es') && es' == es + [e] && ws' == ws + [Next(cfg, ws[|es|], e).value]
    ensures AllEvolve(ws[|es|], ws'[|es'|])
  {
    ws', es' := ws + [Next(cfg, ws[|es|], e).value], es + [e];
    forall i | 0 <= i < |es'| ensures Follows(cfg, ws', es', i) {
      if i < |es| {
        assert Follows(cfg, ws, es, i);
      }
    }
    RunEvolves(cfg, ws', es', |es|, |es'|);
    hide Next;
  }

  /** What happens next to an operation that is to end: it is told, or rsync is
      gone, or its end is noticed. */
  function Forced(op: Operation): BodyEvent {
    if op.cancelRequested then CancelDelivered else if op.rsyncAlive then RsyncExited(false) else Terminated
  }

  /** How many such steps it takes to end the task. */
  function Distance(op: Operation): nat {
    if op.at.Done? then 0
    else if op.cancelRequested then (if KillsRsync(op) then 3 else 1)
    else if op.rsyncAlive then 2 else 1
  }

  lemma RsyncEnds(cfg: Config, op: Operation, partial: Option<Content>, node: Option<Node>)
    requires op.rsyncAlive
    ensures BodyEffect(cfg, op, RsyncExited(false), partial, node)
         == Some(Effect(op.(rsyncAlive := false, rsyncOk := false), None, partial, node))
  {
  }

  lemma ForcedMoves(cfg: Config, w: World, id: string)
    requires Operations(w) && id in w.ops && Doomed(w.ops[id]) && !w.ops[id].at.Done?
    ensures Moved(cfg, w, id, Forced(w.ops[id])).Some?
    ensures var w' := Moved(cfg, w, id, Forced(w.ops[id])).value;
            id in w'.ops && Distance(w'.ops[id]) < Distance(w.ops[id])
  {
    var op := w.ops[id];
    assert OperationOk(op);
    hide Moved, Operations, PartialOf;
    if op.cancelRequested {
      CancellationExactly(cfg, w, id);
    } else if op.rsyncAlive {
      RsyncEnds(cfg, op, PartialOf(cfg, w, op), Destination(w, op));
      MovedBy(cfg, w, id, RsyncExited(false));
      hide BodyEffect;
    } else {
      ErrorsExactly(cfg, w, id, Terminated);
    }
  }

  lemma MovedElsewhere(cfg: Config, w: World, id: string, b: BodyEvent)
    requires Moved(cfg, w, id, b).Some?
    ensures var w' := Moved(cfg, w, id, b).value; w'.calls == w.calls && w'.managers == w.managers
  {
    hide BodyEffect, PartialName;
  }

  /** The task of an operation that is to end ends within as many steps. */
  lemma {:induction false} TaskEnds(cfg: Config, ws: seq<World>, es: seq<Event>, id: string)
    returns (ws': seq<World>, es': seq<Event>)
    requires IsRun(cfg, ws, es) && id in ws[|es|].ops && Doomed(ws[|es|].ops[id])
    ensures IsRun(cfg, ws', es') && ws <= ws' && es <= es' && |es'| <= |es| + Distance(ws[|es|].ops[id])
    ensures ws'[|es'|].calls == ws[|es|].calls && ws'[|es'|].managers == ws[|es|].managers
    ensures AllEvolve(ws[|es|], ws'[|es'|])
    ensures id in ws'[|es'|].ops && ws'[|es'|].ops[id].at.Done?
    decreases Distance(ws[|es|].ops[id])
  {
    ws', es' := ws, es;
    RunEvolves(cfg, ws, es, |es|, |es|);
    var w := ws[|es|];
    if !w.ops[id].at.Done? {
      RunInv(cfg, ws, es, |es|);
      hide Inv, Next, Moved, Named, Distance;
      var b := Forced(w.ops[id]);
      OneForced(cfg, w, id);
      ws', es' := Extend(cfg, ws, es, Body(id, b));
      var w1 := ws'[|es'|];
      assert Evolves(w.ops[id], w1.ops[id]);
      ws', es' := TaskEnds(cfg, ws', es', id);
      EvolveTrans(w, w1, ws'[|es'|]);
    }
  }

  lemma OneForced(cfg: Config, w: World, id: string)
    requires Inv(cfg, w) && id in w.ops && Doomed(w.ops[id]) && !w.ops[id].at.Done?
    ensures Next(cfg, w, Body(id, Forced(w.ops[id]))).Some?
    ensures var w' := Next(cfg, w, Body(id, Forced(w.ops[id]))).value;
            id in w'.ops && Distance(w'.ops[id]) < Distance(w.ops[id]) && w'.calls == w.calls && w'.managers == w.managers
  {
    ForcedMoves(cfg, w, id);
    MovedElsewhere(cfg, w, id, Forced(w.ops[id]));
    hide Inv, Moved, Distance;
  }

  lemma EvolveTrans(a: World, b: World, c: World)
    requires AllEvolve(a, b) && AllEvolve(b, c)
    ensures AllEvolve(a, c)
  {
    forall id | id in a.ops ensures Evolves(a.ops[id], c.ops[id]) {
      EvolvesTrans(a.ops[id], b.ops[id], c.ops[id]);
    }
  }

  /** From every state of every run in which a `cancel` waits, it returns within
      four more steps if they go its way, whatever its task was doing. */
  lemma CancelCanReturn(cfg: Config, ws: seq<World>, es: seq<Event>, call: nat)
    returns (ws': seq<World>, es': seq<Event>)
    requires IsRun(cfg, ws, es) && call in ws[|es|].calls
    ensures IsRun(cfg, ws', es') && ws <= ws' && |es| < |es'| <= |es| + 4 && es'[|es'| - 1] == FinishCancel(call)
    ensures call in ws'[|es'|].reports && ws'[|es'|].reports[call] == R.Cancelled
  {
    RunInv(cfg, ws, es, |es|);
    var id := ws[|es|].calls[call];
    assert Doomed(ws[|es|].ops[id]) && Distance(ws[|es|].ops[id]) <= 3;
    hide Inv, Next, Named, Distance, Doomed, AllEvolve;
    ws', es' := TaskEnds(cfg, ws, es, id);
    CancelReady(cfg, ws'[|es'|], call);
    ws', es' := Extend(cfg, ws', es', FinishCancel(call));
    CancelAnswers(cfg, ws', es', |es'| - 1, call);
  }

  lemma CancelReady(cfg: Config, w: World, call: nat)
    requires call in w.calls && w.calls[call] in w.ops && w.ops[w.calls[call]].at.Done?
    ensures Next(cfg, w, FinishCancel(call)).Some?
  {
  }

  /** All of these tasks end. */
  lemma {:induction false} TasksEnd(cfg: Config, ws: seq<World>, es: seq<Event>, ids: set<string>)
    returns (ws': seq<World>, es': seq<Event>)
    requires IsRun(cfg, ws, es) && AllDoomed(ws[|es|], ids)
    ensures IsRun(cfg, ws', es') && ws <= ws' && es <= es'
    ensures ws'[|es'|].managers == ws[|es|].managers && AllEvolve(ws[|es|], ws'[|es'|])
    ensures forall id | id in ids :: id in ws'[|es'|].ops && ws'[|es'|].ops[id].at.Done?
    decreases ids
  {
    ws', es' := ws, es;
    RunEvolves(cfg, ws, es, |es|, |es|);
    hide IsRun, Doomed, Distance;
    if ids != {} {
      var w := ws[|es|];
      var id :| id in ids;
      ws', es' := TaskEnds(cfg, ws, es, id);
      var w1 := ws'[|es'|];
      forall i | i in ids - {id} ensures i in w1.ops && Doomed(w1.ops[i]) {
        assert Evolves(w.ops[i], w1.ops[i]);
      }
      ws', es' := TasksEnd(cfg, ws', es', ids - {id});
      assert Evolves(w1.ops[id], ws'[|es'|].ops[id]);
      EvolveTrans(w, w1, ws'[|es'|]);
    }
  }

  /** The tasks `close` waits for are over. */
  predicate TasksOver(w: World, m: ManagerId, waiting: set<string>) {
    && m in w.managers && w.managers[m] == Closing(waiting)
    && forall id | id in waiting :: id in w.ops && w.ops[id].at.Done?
  }

  lemma OneFinished(cfg: Config, w: World, m: ManagerId, waiting: set<string>, id: string)
    requires TasksOver(w, m, waiting) && id in waiting && Unfinished(w, id)
    ensures Next(cfg, w, FinishCloseOne(m, id)).Some?
    ensures var w' := Next(cfg, w, FinishCloseOne(m, id)).value;
            TasksOver(w', m, waiting) && id in w'.ops && !Unfinished(w', id)
  {
  }

  /** The last loop of `close`. */
  lemma {:induction false} AllFinished(cfg: Config, ws: seq<World>, es: seq<Event>, m: ManagerId, waiting: set<string>, ids: set<string>)
    returns (ws': seq<World>, es': seq<Event>)
    requires IsRun(cfg, ws, es) && TasksOver(ws[|es|], m, waiting) && ids <= waiting
    requires forall id | id in waiting - ids :: id in ws[|es|].ops && !Unfinished(ws[|es|], id)
    ensures IsRun(cfg, ws', es') && ws <= ws' && es <= es' && TasksOver(ws'[|es'|], m, waiting)
    ensures forall id | id in waiting :: id in ws'[|es'|].ops && !Unfinished(ws'[|es'|], id)
    decreases ids
  {
    ws', es' := ws, es;
    if ids != {} {
      var id :| id in ids;
      var w := ws[|es|];
      hide IsRun, Next;
      if Unfinished(w, id) {
        OneFinished(cfg, w, m, waiting, id);
        ws', es' := Extend(cfg, ws, es, FinishCloseOne(m, id));
        forall i | i in waiting - ids ensures i in ws'[|es'|].ops && !Unfinished(ws'[|es'|], i) {
          assert Evolves(w.ops[i], ws'[|es'|].ops[i]);
        }
      }
      ws', es' := AllFinished(cfg, ws', es', m, waiting, ids - {id});
    }
  }

  lemma CloseReadyNow(cfg: Config, w: World, m: ManagerId, waiting: set<string>)
    requires TasksOver(w, m, waiting) && forall id | id in waiting :: id in w.ops && !Unfinished(w, id)
    ensures Next(cfg, w, FinishClose(m)).Some?
    ensures var w' := Next(cfg, w, FinishClose(m)).value; m in w'.managers && w'.managers[m].Closed?
  {
  }

  /** From every state of every run in which a `close` waits, there is a way on in
      which it returns. */
  lemma CloseCanReturn(cfg: Config, ws: seq<World>, es: seq<Event>, m: ManagerId)
    returns (ws': seq<World>, es': seq<Event>)
    requires IsRun(cfg, ws, es) && m in ws[|es|].managers && ws[|es|].managers[m].Closing?
    ensures IsRun(cfg, ws', es') && ws <= ws' && es <= es'
    ensures m in ws'[|es'|].managers && ws'[|es'|].managers[m].Closed?
  {
    RunInv(cfg, ws, es, |es|);
    var waiting := ws[|es|].managers[m].waiting;
    assert AllDoomed(ws[|es|], waiting);
    hide IsRun, Inv, Named, Next, AllEvolve;
    ws', es' := TasksEnd(cfg, ws, es, waiting);
    ws', es' := AllFinished(cfg, ws', es', m, waiting, waiting);
    CloseReadyNow(cfg, ws'[|es'|], m, waiting);
    ws', es' := Extend(cfg, ws', es', FinishClose(m));
  }
}
