/** The main results about runs of SessionWorld, up to the shutdown of the whole
    process. */
module SessionRuns {
  import opened Options
  import opened SessionWorld
  import opened SessionInvariant
  import opened SessionSteps
  import T = TransferWorld
  import TI = TransferInvariant

  lemma InitialOk(cfg: Config)
    ensures Inv(cfg, INITIAL)
  {
  }

  lemma RunStep(cfg: Config, ws: seq<World>, es: seq<Event>, i: nat)
    requires IsRun(cfg, ws, es) && i < |es|
    ensures Next(cfg, ws[i], es[i]).Some? && Next(cfg, ws[i], es[i]).value == ws[i + 1]
  {
    assert Follows(cfg, ws, es, i);
  }

  lemma {:induction false} RunInv(cfg: Config, ws: seq<World>, es: seq<Event>, i: nat)
    requires IsRun(cfg, ws, es) && i < |ws|
    ensures Inv(cfg, ws[i])
  {
    hide Inv, Next;
    if i == 0 {
      InitialOk(cfg);
    } else {
      RunInv(cfg, ws, es, i - 1);
      RunStep(cfg, ws, es, i - 1);
      StepKeeps(cfg, ws[i - 1], es[i - 1]);
    }
  }

  lemma EvolvesTrans(a: Session, b: Session, c: Session)
    requires SessionEvolves(a, b) && SessionEvolves(b, c)
    ensures SessionEvolves(a, c)
  {
  }

  lemma {:induction false} RunEvolves(cfg: Config, ws: seq<World>, es: seq<Event>, i: nat, j: nat)
    requires IsRun(cfg, ws, es) && i <= j < |ws|
    ensures AllEvolve(ws[i], ws[j])
  {
    if i < j {
      RunEvolves(cfg, ws, es, i, j - 1);
      RunInv(cfg, ws, es, j - 1);
      RunStep(cfg, ws, es, j - 1);
      StepKeeps(cfg, ws[j - 1], es[j - 1]);
      forall id | id in ws[i].sessions ensures SessionEvolves(ws[i].sessions[id], ws[j].sessions[id]) {
        EvolvesTrans(ws[i].sessions[id], ws[j - 1].sessions[id], ws[j].sessions[id]);
      }
    }
  }

  /** However many connects are suspended between their checks, no server is
      owned twice, the limit holds, and one session at most is authenticating. */
  lemma SessionsAreExclusive(cfg: Config, ws: seq<World>, es: seq<Event>, k: nat)
    requires IsRun(cfg, ws, es) && k < |ws|
    ensures ws[k].registered <= ws[k].sessions.Keys && |ws[k].registered| <= cfg.maxSessions
    ensures forall a, b | a in ws[k].registered && b in ws[k].registered && ws[k].sessions[a].server == ws[k].sessions[b].server ::
              a == b
    ensures forall a, b | a in ws[k].sessions && b in ws[k].sessions
                        && ws[k].sessions[a].start.Authenticating? && ws[k].sessions[b].start.Authenticating? :: a == b
  {
    RunInv(cfg, ws, es, k);
  }

  /** A `connect` that hands a session over hands over one that is registered,
      not closing, and has its services. */
  lemma ConnectHandsOverReady(cfg: Config, ws: seq<World>, es: seq<Event>, i: nat, call: nat)
    requires IsRun(cfg, ws, es) && i < |es| && es[i] == ResumeConnect(call) && call !in ws[i + 1].connects
    ensures call in ws[i].connects && ws[i].connects[call].AwaitReady?
    ensures var id := ws[i].connects[call].session;
            && id in ws[i + 1].registered && id in ws[i + 1].sessions
            && !ws[i + 1].sessions[id].closing && ws[i + 1].sessions[id].services.Some?
  {
    RunInv(cfg, ws, es, i);
    RunStep(cfg, ws, es, i);
    var id := ws[i].connects[call].session;
    assert SessionOk(ws[i].sessions[id]);
  }

  /** One shutdown task at most is ever made for a session, whoever closes it
      and however often; and it closes transfers, then the runner, then the
      master, whatever raised on the way. */
  lemma OneShutdown(cfg: Config, ws: seq<World>, es: seq<Event>, k: nat, id: string)
    requires IsRun(cfg, ws, es) && k < |ws| && id in ws[k].sessions
    ensures ws[k].sessions[id].shutdowns <= 1
    ensures var s := ws[k].sessions[id];
            s.attempts <= if s.services.Some? then [CloseTransfers, CloseRunner, CloseMaster] else [CloseMaster]
  {
    RunInv(cfg, ws, es, k);
    assert SessionOk(ws[k].sessions[id]);
  }

  /** A session that is no longer registered finished its start, was shut down
      once, had every service closed in order, and never changes again: nothing
      is attached to it afterwards. */
  lemma ServicesDoNotOutliveSessions(cfg: Config, ws: seq<World>, es: seq<Event>, k: nat, j: nat, id: string)
    requires IsRun(cfg, ws, es) && k <= j < |ws| && id in ws[k].sessions && id !in ws[k].registered
    ensures var s := ws[k].sessions[id];
            && s.start.Done() && s.shutdowns == 1
            && s.attempts == (if s.services.Some? then [CloseTransfers, CloseRunner, CloseMaster] else [CloseMaster])
    ensures id in ws[j].sessions && ws[j].sessions[id] == ws[k].sessions[id] && id !in ws[j].registered
  {
    RunInv(cfg, ws, es, k);
    RunInv(cfg, ws, es, j);
    RunEvolves(cfg, ws, es, k, j);
    assert SessionOk(ws[k].sessions[id]);
    assert SessionEvolves(ws[k].sessions[id], ws[j].sessions[id]);
  }

  /** Once closing has begun no session is ever registered again. */
  lemma ClosedStep(cfg: Config, w: World, e: Event)
    requires Next(cfg, w, e).Some? && w.closed
    ensures Next(cfg, w, e).value.closed && Next(cfg, w, e).value.registered <= w.registered
  {
  }

  lemma {:induction false} ClosedStays(cfg: Config, ws: seq<World>, es: seq<Event>, i: nat, j: nat)
    requires IsRun(cfg, ws, es) && i <= j < |ws| && ws[i].closed
    ensures ws[j].closed && ws[j].registered <= ws[i].registered
  {
    if i < j {
      ClosedStays(cfg, ws, es, i, j - 1);
      RunStep(cfg, ws, es, j - 1);
      ClosedStep(cfg, ws[j - 1], es[j - 1]);
    }
  }

  lemma FinishedCloseEmpties(cfg: Config, w: World, call: nat)
    requires Inv(cfg, w) && CloseFinished(w, call).Some?
    ensures w.closed && w.registered == {}
  {
    assert w.registered <= w.closers[call] <= w.sessions.Keys;
    forall s | s in w.closers[call] ensures s !in w.registered {
      assert w.sessions[s].stage.Gone?;
    }
  }

  /** Transfers of `s` that its shutdown, cut short, left unfinished. */
  predicate LeftUnfinished(w: World, s: string) {
    && s in w.sessions && w.sessions[s].transfersRaised && w.sessions[s].services.Some?
    && TI.ActiveOf(w.t, w.sessions[s].services.value) != {}
  }

  lemma ClaimIsLeft(cfg: Config, w: World, key: string) returns (s: string)
    requires HomesOk(w) && SessionsOk(w) && TI.Inv(cfg.transfers, w.t) && w.registered == {} && key in w.t.claimed
    ensures LeftUnfinished(w, s)
  {
    hide SessionOk, TI.Exclusive, TI.Bounded, TI.Cancels, TI.Waits;
    assert key in TI.HeldKeys(w.t);
    var id :| id in w.t.ops && w.t.ops[id].rec.reserved && w.t.ops[id].rec.key == key;
    assert TI.OperationOk(w.t.ops[id]);
    var m := w.t.ops[id].manager;
    assert id in TI.ActiveOf(w.t, m);
    assert HomeFits(w, m);
    s := w.homes[m];
  }

  lemma LeftIsClaimed(cfg: Config, w: World, s: string)
    requires TI.Inv(cfg.transfers, w.t) && LeftUnfinished(w, s)
    ensures w.t.claimed != {}
  {
    hide TI.Exclusive, TI.Bounded, TI.Cancels, TI.Waits, TI.Closings;
    var id :| id in TI.ActiveOf(w.t, w.sessions[s].services.value);
    assert TI.OperationOk(w.t.ops[id]);
    assert w.t.ops[id].rec.key in TI.HeldKeys(w.t);
  }

  /** With no session registered, a claim is held exactly if some session's
      transfer shutdown was cut short and left a transfer unfinished. */
  lemma ClaimsLeftExactly(cfg: Config, w: World)
    requires Inv(cfg, w) && w.registered == {}
    ensures w.t.claimed != {} <==> exists s :: LeftUnfinished(w, s)
  {
    hide TI.Inv, HomesOk, SessionsOk, LeftUnfinished;
    if w.t.claimed != {} {
      var key :| key in w.t.claimed;
      var s := ClaimIsLeft(cfg, w, key);
    }
    if s :| LeftUnfinished(w, s) {
      LeftIsClaimed(cfg, w, s);
    }
  }

  /** Nobody cancels a shutdown task while it closes its transfers, the one way
      in which `TransferManager.close` can raise. */
  ghost predicate Undisturbed(es: seq<Event>) {
    forall i | 0 <= i < |es| :: !es[i].TransfersRaise?
  }

  predicate NoRaise(w: World) {
    forall s | s in w.sessions :: !w.sessions[s].transfersRaised
  }

  lemma CheckRaisesNothing(cfg: Config, w: World, call: nat, server: Server, owner: Option<string>, id: string)
    requires NoRaise(w) && Check(cfg, w, call, server, owner, id).Some?
    ensures NoRaise(Check(cfg, w, call, server, owner, id).value)
  {
    hide Accepting;
  }

  lemma ConnectRaisesNothing(cfg: Config, w: World, e: Event)
    requires NoRaise(w) && Next(cfg, w, e).Some?
    requires e.BeginConnect? || e.Resolved? || e.OwnerGone? || e.ResumeConnect? || e.CancelConnect?
    ensures NoRaise(Next(cfg, w, e).value)
  {
    hide Accepting, Check;
    match e {
      case Resolved(call, server, owner, id) => CheckRaisesNothing(cfg, w, call, server, owner, id);
      case OwnerGone(call, owner, id) =>
        if Check(cfg, w, call, w.connects[call].server, owner, id).Some? {
          CheckRaisesNothing(cfg, w, call, w.connects[call].server, owner, id);
        }
      case _ =>
    }
  }

  lemma StartRaisesNothing(cfg: Config, w: World, e: Event)
    requires NoRaise(w) && Next(cfg, w, e).Some?
    requires e.Authenticate? || e.Ready? || e.StartFails? || e.StartCancels?
    ensures NoRaise(Next(cfg, w, e).value)
  {
    hide T.ManagerMade;
  }

  lemma ShutdownRaisesNothing(cfg: Config, w: World, e: Event)
    requires NoRaise(w) && Next(cfg, w, e).Some?
    requires e.ShutdownRuns? || e.TransfersClosed? || e.RunnerClosed? || e.MasterClosed?
    ensures NoRaise(Next(cfg, w, e).value)
  {
    hide T.CloseBegun, T.CloseFinished;
    if e.ShutdownRuns? {
      assert Next(cfg, w, e) == ShutdownRan(w, e.s);
      hide Next;
      RunRaisesNothing(w, e.s);
    } else if e.TransfersClosed? {
      assert Next(cfg, w, e) == TransfersDone(w, e.s, true);
      hide Next;
    }
  }

  lemma RunRaisesNothing(w: World, id: string)
    requires NoRaise(w) && ShutdownRan(w, id).Some?
    ensures NoRaise(ShutdownRan(w, id).value)
  {
    hide T.CloseBegun, ShutdownBegun, Proceed;
    KeepsQuiet(w.sessions[id]);
  }

  lemma KeepsQuiet(s: Session)
    ensures Proceed(s).transfersRaised == ShutdownBegun(s).transfersRaised == s.transfersRaised
  {
  }

  lemma CloseRaisesNothing(cfg: Config, w: World, e: Event)
    requires NoRaise(w) && Next(cfg, w, e).Some?
    requires e.Disconnect? || e.BeginClose? || e.CloseOne? || e.FinishClose? || e.AbandonClose? || e.Transfer?
    ensures NoRaise(Next(cfg, w, e).value)
  {
    hide T.Next;
  }

  lemma RaisedStep(cfg: Config, w: World, e: Event)
    requires NoRaise(w) && Next(cfg, w, e).Some? && !e.TransfersRaise?
    ensures NoRaise(Next(cfg, w, e).value)
  {
    hide Next, NoRaise;
    if e.BeginConnect? || e.Resolved? || e.OwnerGone? || e.ResumeConnect? || e.CancelConnect? {
      ConnectRaisesNothing(cfg, w, e);
    } else if e.Authenticate? || e.Ready? || e.StartFails? || e.StartCancels? {
      StartRaisesNothing(cfg, w, e);
    } else if e.ShutdownRuns? || e.TransfersClosed? || e.RunnerClosed? || e.MasterClosed? {
      ShutdownRaisesNothing(cfg, w, e);
    } else {
      CloseRaisesNothing(cfg, w, e);
    }
  }

  lemma {:induction false} NoneRaised(cfg: Config, ws: seq<World>, es: seq<Event>, k: nat)
    requires IsRun(cfg, ws, es) && Undisturbed(es) && k < |ws|
    ensures NoRaise(ws[k])
  {
    if k > 0 {
      NoneRaised(cfg, ws, es, k - 1);
      RunStep(cfg, ws, es, k - 1);
      RaisedStep(cfg, ws[k - 1], es[k - 1]);
    }
  }

  /** After a `close` that finished there is no session and there never will be
      one, whatever connects were suspended when closing began. */
  lemma ClosedForGood(cfg: Config, ws: seq<World>, es: seq<Event>, i: nat, j: nat, call: nat)
    requires IsRun(cfg, ws, es) && i < j < |ws| && es[i] == FinishClose(call)
    ensures ws[j].closed && ws[j].registered == {}
  {
    RunInv(cfg, ws, es, i);
    RunStep(cfg, ws, es, i);
    FinishedCloseEmpties(cfg, ws[i], call);
    ClosedStays(cfg, ws, es, i, j);
  }

  /** Shutdown is total: from then on nothing is registered and nothing claimed,
      even if connects and starting transfers were suspended on the way. */
  lemma ShutdownIsTotal(cfg: Config, ws: seq<World>, es: seq<Event>, i: nat, j: nat, call: nat)
    requires IsRun(cfg, ws, es) && Undisturbed(es) && i < j < |ws| && es[i] == FinishClose(call)
    ensures ws[j].registered == {} && ws[j].t.claimed == {}
  {
    RunInv(cfg, ws, es, j);
    ClosedForGood(cfg, ws, es, i, j, call);
    NoneRaised(cfg, ws, es, j);
    ClaimsLeftExactly(cfg, ws[j]);
  }

  /** Once a session is gone every transfer it ever had is final, its claim given
      back; and an rsync of one still runs only if that transfer was cancelled
      again while its rsync was being killed. */
  lemma NothingOutlivesSession(cfg: Config, ws: seq<World>, es: seq<Event>, k: nat, s: string, id: string)
    requires IsRun(cfg, ws, es) && Undisturbed(es) && k < |ws|
    requires s in ws[k].sessions && s !in ws[k].registered
    requires id in ws[k].t.ops && ws[k].sessions[s].services == Some(ws[k].t.ops[id].manager)
    ensures var op := ws[k].t.ops[id];
            op.rec.state.Final() && !op.rec.reserved && (op.rsyncAlive ==> op.recancelled && op.rec.state.Cancelled?)
  {
    RunInv(cfg, ws, es, k);
    NoneRaised(cfg, ws, es, k);
    GoneIsIdle(cfg, ws[k], s, id);
  }

  lemma GoneIsIdle(cfg: Config, w: World, s: string, id: string)
    requires Inv(cfg, w) && s in w.sessions && s !in w.registered && !w.sessions[s].transfersRaised
    requires id in w.t.ops && w.sessions[s].services == Some(w.t.ops[id].manager)
    ensures var op := w.t.ops[id];
            op.rec.state.Final() && !op.rec.reserved && (op.rsyncAlive ==> op.recancelled && op.rec.state.Cancelled?)
  {
    hide SessionOk, TI.Exclusive, TI.Bounded, TI.Cancels, TI.Waits, TI.ClaimsExact, AuthOk, ConnectsOk, ClosersOk, Unique;
    var m := w.t.ops[id].manager;
    assert HomeFits(w, m) && w.t.managers[m].Closed?;
    assert id !in TI.ActiveOf(w.t, m);
    assert TI.OperationOk(w.t.ops[id]);
  }

  /** When `close` returns rather than raises, every session it waited for kept
      its promise; only one disconnected earlier can have left a claim. */
  lemma NormalCloseLeavesNothing(cfg: Config, ws: seq<World>, es: seq<Event>, i: nat, call: nat, s: string)
    requires IsRun(cfg, ws, es) && i < |es| && es[i] == FinishClose(call)
    requires call in ws[i].closers && ReturnsNormally(ws[i], call)
    requires s in ws[i].sessions && ws[i].sessions[s].transfersRaised
    ensures s !in ws[i].closers[call]
  {
    RunInv(cfg, ws, es, i);
    assert SessionOk(ws[i].sessions[s]);
  }

  /** The transfers inside a run of sessions make a run of TransferWorld by
      themselves, so everything proved of those holds here. */
  lemma {:induction false} TransfersMakeARun(cfg: Config, ws: seq<World>, es: seq<Event>, k: nat)
    returns (ts: seq<T.World>, tes: seq<T.Event>)
    requires IsRun(cfg, ws, es) && k < |ws|
    ensures T.IsRun(cfg.transfers, ts, tes) && ts[|tes|] == ws[k].t
  {
    hide T.Next, Next;
    if k == 0 {
      return [T.INITIAL], [];
    }
    ts, tes := TransfersMakeARun(cfg, ws, es, k - 1);
    RunStep(cfg, ws, es, k - 1);
    var step := TransferStep(cfg, ws[k - 1], es[k - 1]);
    if step.Some? {
      ts, tes := ExtendRun(cfg.transfers, ts, tes, step.value, ws[k].t);
    }
  }

  lemma ExtendRun(cfg: T.Config, ts: seq<T.World>, tes: seq<T.Event>, e: T.Event, t: T.World)
    returns (ts': seq<T.World>, tes': seq<T.Event>)
    requires T.IsRun(cfg, ts, tes) && T.Next(cfg, ts[|tes|], e) == Some(t)
    ensures T.IsRun(cfg, ts', tes') && ts'[|tes'|] == t
  {
    hide T.Next;
    ts', tes' := ts + [t], tes + [e];
    forall i | 0 <= i < |tes'| ensures T.Follows(cfg, ts', tes', i) {
      if i < |tes| {
        assert T.Follows(cfg, ts, tes, i);
      }
    }
  }

  predicate MovesTransfers(w: World, e: Event) {
    || e.Transfer? || e.Ready? || e.TransfersClosed? || e.TransfersRaise?
    || (e.ShutdownRuns? && e.s in w.sessions && w.sessions[e.s].start.Done() && w.sessions[e.s].services.Some?)
  }

  lemma TransfersLeft(cfg: Config, w: World, e: Event)
    requires Next(cfg, w, e).Some? && !MovesTransfers(w, e)
    ensures Next(cfg, w, e).value.t == w.t
  {
    hide Accepting, OwnerAnswer, Proceed, AfterRunner, AfterMaster, ShutdownBegun, Closing;
  }

  /** The transfer event inside a session event, if there is one. */
  lemma TransferStep(cfg: Config, w: World, e: Event) returns (te: Option<T.Event>)
    requires Next(cfg, w, e).Some?
    ensures te.None? ==> Next(cfg, w, e).value.t == w.t
    ensures te.Some? ==> T.Next(cfg.transfers, w.t, te.value) == Some(Next(cfg, w, e).value.t)
  {
    if MovesTransfers(w, e) {
      te := Some(TransferEvent(w, e));
      TransfersMoved(cfg, w, e);
    } else {
      te := None;
      TransfersLeft(cfg, w, e);
    }
    hide Next;
  }

  function ManagerOf(w: World, id: string): T.ManagerId {
    if id in w.sessions && w.sessions[id].services.Some? then w.sessions[id].services.value else 0
  }

  function TransferEvent(w: World, e: Event): T.Event {
    match e
    case Transfer(te) => te
    case Ready(_, m) => T.NewManager(m)
    case ShutdownRuns(s) => T.BeginClose(ManagerOf(w, s))
    case TransfersClosed(s) => T.FinishClose(ManagerOf(w, s))
    case TransfersRaise(s) => T.AbandonClose(ManagerOf(w, s))
    case _ => T.Tick
  }

  lemma TransfersMoved(cfg: Config, w: World, e: Event)
    requires Next(cfg, w, e).Some? && MovesTransfers(w, e)
    ensures T.Next(cfg.transfers, w.t, TransferEvent(w, e)) == Some(Next(cfg, w, e).value.t)
  {
    hide T.CloseBegun, T.CloseFinished, T.CloseAbandoned, T.ManagerMade, Proceed, AfterTransfers;
  }
}
