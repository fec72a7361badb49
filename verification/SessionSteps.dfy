/** Every event of SessionWorld keeps its invariant. */
module SessionSteps {
  import opened Options
  import opened SessionWorld
  import opened SessionInvariant
  import T = TransferWorld
  import TI = TransferInvariant
  import TS = TransferSteps

  lemma OtherPhases(cfg: T.Config, t: T.World, e: T.Event)
    requires T.Next(cfg, t, e).Some?
    requires !e.NewManager? && !e.BeginClose? && !e.FinishClose? && !e.AbandonClose?
    ensures T.Next(cfg, t, e).value.managers == t.managers
  {
  }

  /** A step of a shutdown task that closes the session's transfers. */
  lemma ShutdownKeeps(cfg: Config, w: World, id: string, s: Session, m: T.ManagerId, t': T.World)
    requires Inv(cfg, w) && id in w.sessions && SessionOk(s) && SessionEvolves(w.sessions[id], s)
    requires !w.sessions[id].stage.Gone? && !s.stage.Gone? && s.start == w.sessions[id].start
    requires w.sessions[id].services == s.services == Some(m) && m in w.t.managers
    requires TI.Inv(cfg.transfers, t') && m in t'.managers && PhaseFits(s, t'.managers[m])
    requires t'.managers == w.t.managers[m := t'.managers[m]]
    ensures var w' := SetSession(w, id, s).(t := t');
            Inv(cfg, w') && AllEvolve(w, w')
  {
    hide TI.Inv, SessionOk, SessionEvolves, AllEvolve, SessionsOk, Unique, AuthOk, ConnectsOk, ClosersOk, HomesOk, PhaseFits, ConnectFits;
    var w' := SetSession(w, id, s).(t := t');
    UpdateKeepsSessions(cfg, w, id, w');
    CallersKeep(w, w');
    AuthKeeps(w, id, w');
    ServedFits(w, id);
    HomesKeepClosing(w, id, m, w');
  }

  lemma HomesKeepClosing(w: World, id: string, m: T.ManagerId, w': World)
    requires HomesOk(w) && OnlyChanges(w, id, w') && w'.homes == w.homes && m in w.t.managers && m in w'.t.managers
    requires w'.sessions[id].services == w.sessions[id].services == Some(m)
    requires w'.t.managers == w.t.managers[m := w'.t.managers[m]] && PhaseFits(w'.sessions[id], w'.t.managers[m])
    ensures HomesOk(w')
  {
    hide PhaseFits;
    forall i | i in w'.homes ensures HomeFits(w', i) {
      assert HomeFits(w, i);
    }
  }

  lemma StillMoves(s: Session)
    requires SessionOk(s) && s.stage.Scheduled? && !s.start.Done()
    ensures GoesOn(s, ShutdownBegun(s)) && !ShutdownBegun(s).stage.Gone?
  {
  }

  lemma ProceedMoves(s: Session)
    requires SessionOk(s) && s.start.Done() && (s.stage.Scheduled? || s.stage.AwaitStart?)
    ensures SessionOk(Proceed(s)) && SessionEvolves(s, Proceed(s)) && !Proceed(s).stage.Gone?
    ensures s.services.None? ==> GoesOn(s, Proceed(s))
    ensures s.services.Some? ==> forall waiting :: PhaseFits(Proceed(s), T.Closing(waiting))
    ensures forall p | PhaseFits(s, p) :: p.Open?
  {
  }

  lemma TransfersMove(s: Session, ok: bool)
    requires SessionOk(s) && s.stage.ClosingTransfers?
    ensures SessionOk(AfterTransfers(s, ok)) && SessionEvolves(s, AfterTransfers(s, ok)) && s.services.Some?
    ensures AfterTransfers(s, ok).start == s.start && AfterTransfers(s, ok).services == s.services
    ensures !AfterTransfers(s, ok).stage.Gone?
    ensures PhaseFits(AfterTransfers(s, ok), if ok then T.Closed else T.Abandoned)
    ensures forall p | PhaseFits(s, p) :: p.Closing?
  {
  }

  lemma RunnerMoves(s: Session, ok: bool)
    requires SessionOk(s) && s.stage.ClosingRunner?
    ensures GoesOn(s, AfterRunner(s, ok)) && !AfterRunner(s, ok).stage.Gone?
  {
  }

  lemma MasterMoves(s: Session, ok: bool)
    requires SessionOk(s) && s.stage.ClosingMaster?
    ensures GoesOn(s, AfterMaster(s, ok)) && AfterMaster(s, ok).stage.Gone?
  {
  }

  lemma StartMoves(s: Session, start: StartTask)
    requires SessionOk(s) && !s.start.Done() && !start.Attached? && !start.Queued?
    requires start.StartCancelled? ==> s.startCancel
    ensures SessionOk(s.(start := start)) && SessionEvolves(s, s.(start := start)) && !s.stage.Gone?
  {
  }

  lemma ReadyMoves(s: Session, m: T.ManagerId)
    requires SessionOk(s) && s.start.Authenticating? && !s.startCancel
    ensures var t := s.(start := Attached, services := Some(m));
            && SessionOk(t) && SessionEvolves(s, t) && PhaseFits(t, T.Open) && s.services.None?
            && !s.stage.Gone? && !t.stage.Gone?
  {
  }

  /** The shutdown goes on to the transfers, or to the master if there are none. */
  lemma ProceededKeeps(cfg: Config, w: World, id: string)
    requires Inv(cfg, w) && id in w.sessions && w.sessions[id].start.Done()
    requires w.sessions[id].stage.Scheduled? || w.sessions[id].stage.AwaitStart?
    requires Proceeded(w, id).Some?
    ensures Inv(cfg, Proceeded(w, id).value) && AllEvolve(w, Proceeded(w, id).value)
  {
    hide TI.Inv, SessionOk, SessionEvolves, AllEvolve, SessionsOk, Unique, AuthOk, ConnectsOk, ClosersOk, HomesOk, PhaseFits,
         GoesOn, Proceed;
    ListedOk(w, id);
    ProceedMoves(w.sessions[id]);
    if w.sessions[id].services.Some? {
      BeginTransfersKeeps(cfg, w, id, w.sessions[id].services.value);
    } else {
      SetSessionKeeps(cfg, w, id, Proceed(w.sessions[id]));
    }
  }

  lemma BeginTransfersKeeps(cfg: Config, w: World, id: string, m: T.ManagerId)
    requires Inv(cfg, w) && id in w.sessions && w.sessions[id].services == Some(m) && w.sessions[id].start.Done()
    requires w.sessions[id].stage.Scheduled? || w.sessions[id].stage.AwaitStart?
    requires Proceeded(w, id).Some?
    ensures Inv(cfg, Proceeded(w, id).value) && AllEvolve(w, Proceeded(w, id).value)
  {
    hide TI.Inv, SessionOk, SessionEvolves, AllEvolve, SessionsOk, Unique, AuthOk, ConnectsOk, ClosersOk, HomesOk, PhaseFits;
    ListedOk(w, id);
    ServedFits(w, id);
    ProceedMoves(w.sessions[id]);
    var t' := T.CloseBegun(w.t, m).value;
    TS.BeginCloseKeeps(cfg.transfers, w.t, m);
    assert t'.managers == w.t.managers[m := t'.managers[m]] && t'.managers[m].Closing?;
    hide T.CloseBegun;
    ShutdownKeeps(cfg, w, id, Proceed(w.sessions[id]), m, t');
  }

  lemma ShutdownRanKeeps(cfg: Config, w: World, id: string)
    requires Inv(cfg, w) && ShutdownRan(w, id).Some?
    ensures Inv(cfg, ShutdownRan(w, id).value) && AllEvolve(w, ShutdownRan(w, id).value)
  {
    hide TI.Inv, SessionOk, SessionEvolves, AllEvolve, SessionsOk, Unique, AuthOk, ConnectsOk, ClosersOk, HomesOk, PhaseFits,
         GoesOn, Proceeded, ShutdownBegun;
    ListedOk(w, id);
    if w.sessions[id].start.Done() {
      ProceededKeeps(cfg, w, id);
    } else {
      StillMoves(w.sessions[id]);
      SetSessionKeeps(cfg, w, id, ShutdownBegun(w.sessions[id]));
    }
  }

  lemma TransfersDoneKeeps(cfg: Config, w: World, id: string, ok: bool)
    requires Inv(cfg, w) && TransfersDone(w, id, ok).Some?
    ensures Inv(cfg, TransfersDone(w, id, ok).value) && AllEvolve(w, TransfersDone(w, id, ok).value)
  {
    hide TI.Inv, SessionOk, SessionEvolves, AllEvolve, SessionsOk, Unique, AuthOk, ConnectsOk, ClosersOk, HomesOk, PhaseFits,
         AfterTransfers;
    var m := w.sessions[id].services.value;
    ListedOk(w, id);
    ServedFits(w, id);
    TransfersMove(w.sessions[id], ok);
    var t' := if ok then T.CloseFinished(w.t, m).value else T.CloseAbandoned(w.t, m).value;
    if ok {
      TS.FinishCloseKeeps(cfg.transfers, w.t, m);
    } else {
      TS.AbandonCloseKeeps(cfg.transfers, w.t, m);
    }
    assert t'.managers == w.t.managers[m := if ok then T.Closed else T.Abandoned];
    hide T.CloseFinished, T.CloseAbandoned;
    ShutdownKeeps(cfg, w, id, AfterTransfers(w.sessions[id], ok), m, t');
  }

  lemma RunnerDoneKeeps(cfg: Config, w: World, id: string, ok: bool)
    requires Inv(cfg, w) && RunnerDone(w, id, ok).Some?
    ensures Inv(cfg, RunnerDone(w, id, ok).value) && AllEvolve(w, RunnerDone(w, id, ok).value)
  {
    hide TI.Inv, SessionOk, SessionEvolves, AllEvolve, SessionsOk, Unique, AuthOk, ConnectsOk, ClosersOk, HomesOk, PhaseFits,
         GoesOn, AfterRunner;
    ListedOk(w, id);
    RunnerMoves(w.sessions[id], ok);
    SetSessionKeeps(cfg, w, id, AfterRunner(w.sessions[id], ok));
  }

  lemma MasterDoneKeeps(cfg: Config, w: World, id: string, ok: bool)
    requires Inv(cfg, w) && MasterDone(w, id, ok).Some?
    ensures Inv(cfg, MasterDone(w, id, ok).value) && AllEvolve(w, MasterDone(w, id, ok).value)
  {
    hide TI.Inv, SessionOk, SessionEvolves, AllEvolve, SessionsOk, Unique, AuthOk, ConnectsOk, ClosersOk, HomesOk, PhaseFits,
         AfterMaster;
    ListedOk(w, id);
    MasterMoves(w.sessions[id], ok);
    if w.sessions[id].services.Some? {
      ServedFits(w, id);
    }
    UpdateKeeps(cfg, w, id, MasterDone(w, id, ok).value);
  }

  /** A change of the start task alone, with the lock. */
  lemma StartTaskKeeps(cfg: Config, w: World, id: string, start: StartTask, w': World)
    requires Inv(cfg, w) && id in w.sessions && !w.sessions[id].start.Done() && !start.Attached? && !start.Queued?
    requires start.StartCancelled? ==> w.sessions[id].startCancel
    requires start.Authenticating? ==> w.auth.None? && !w.sessions[id].startCancel
    requires w' == SetSession(w, id, w.sessions[id].(start := start))
                   .(auth := if start.Authenticating? then Some(id)
                             else if w.sessions[id].start.Authenticating? then None else w.auth)
    ensures Inv(cfg, w') && AllEvolve(w, w')
  {
    hide TI.Inv, SessionOk, SessionEvolves, AllEvolve, SessionsOk, Unique, ConnectsOk, ClosersOk, HomesOk, PhaseFits, ConnectFits;
    ListedOk(w, id);
    StartMoves(w.sessions[id], start);
    UpdateKeepsSessions(cfg, w, id, w');
    CallersKeep(w, w');
    HomesStay(w, w');
    assert AuthOk(w');
    hide AuthOk;
  }

  lemma AuthenticatedKeeps(cfg: Config, w: World, id: string)
    requires Inv(cfg, w) && Authenticated(w, id).Some?
    ensures Inv(cfg, Authenticated(w, id).value) && AllEvolve(w, Authenticated(w, id).value)
  {
    hide Inv, AllEvolve;
    StartTaskKeeps(cfg, w, id, Authenticating, Authenticated(w, id).value);
  }

  lemma StartEndedKeeps(cfg: Config, w: World, id: string, how: StartTask)
    requires Inv(cfg, w) && (how.StartFailed? || how.StartCancelled?) && StartEnded(w, id, how).Some?
    ensures Inv(cfg, StartEnded(w, id, how).value) && AllEvolve(w, StartEnded(w, id, how).value)
  {
    hide Inv, AllEvolve;
    StartTaskKeeps(cfg, w, id, how, StartEnded(w, id, how).value);
  }

  lemma MadeReadyKeeps(cfg: Config, w: World, id: string, m: T.ManagerId)
    requires Inv(cfg, w) && MadeReady(w, id, m).Some?
    ensures Inv(cfg, MadeReady(w, id, m).value) && AllEvolve(w, MadeReady(w, id, m).value)
  {
    hide TI.Inv, SessionOk, SessionEvolves, AllEvolve, SessionsOk, Unique, AuthOk, ConnectsOk, ClosersOk, HomesOk, PhaseFits, ConnectFits;
    var w' := MadeReady(w, id, m).value;
    ListedOk(w, id);
    ReadyMoves(w.sessions[id], m);
    TS.NewManagerKeeps(cfg.transfers, w.t, m);
    UpdateKeepsSessions(cfg, w, id, w');
    CallersKeep(w, w');
    HomesAdd(w, id, m, w');
    AuthLeaves(w, id, w');
  }

  /** The holder leaves the lock. */
  lemma AuthLeaves(w: World, id: string, w': World)
    requires AuthOk(w) && OnlyChanges(w, id, w') && w'.auth == None
    requires w.sessions[id].start.Authenticating? && !w'.sessions[id].start.Authenticating?
    ensures AuthOk(w')
  {
  }

  /** `w'` is `w` with one more session, just made and registered. */
  ghost predicate Registers(w: World, id: string, server: Server, w': World) {
    && id !in w.sessions
    && w' == w.(sessions := w.sessions[id := NewSession(server)], registered := w.registered + {id}, connects := w'.connects)
  }

  lemma RegisteredSessionsOk(w: World, id: string, server: Server, w': World)
    requires SessionsOk(w) && Registers(w, id, server, w')
    ensures SessionsOk(w')
  {
    assert SessionOk(NewSession(server));
    hide SessionOk;
  }

  lemma RegisteredUnique(w: World, id: string, server: Server, w': World)
    requires SessionsOk(w) && Unique(w) && AuthOk(w) && Registers(w, id, server, w')
    requires forall o | o in w.registered && o in w.sessions :: w.sessions[o].server != server
    ensures w'.registered <= w'.sessions.Keys && Unique(w') && AuthOk(w')
  {
    hide SessionOk;
  }

  lemma RegisteredEvolve(w: World, id: string, server: Server, w': World)
    requires Registers(w, id, server, w')
    ensures AllEvolve(w, w')
  {
    forall i | i in w.sessions ensures SessionEvolves(w.sessions[i], w'.sessions[i]) {
      assert w'.sessions[i] == w.sessions[i];
    }
  }

  lemma RegisteredConnects(w: World, id: string, server: Server, w': World)
    requires ConnectsOk(w) && AllEvolve(w, w') && Registers(w, id, server, w')
    requires forall c | c in w'.connects ::
               w'.connects[c] == AwaitReady(id) || (c, w'.connects[c]) in w.connects.Items
    ensures ConnectsOk(w')
  {
    hide ConnectFits, AllEvolve;
    forall c | c in w'.connects ensures ConnectFits(w', w'.connects[c]) {
      if w'.connects[c] == AwaitReady(id) {
        AwaitsReady(w', id);
      } else {
        assert (c, w'.connects[c]) in w.connects.Items;
        ConnectStays(w, w', w.connects[c]);
      }
    }
  }

  /** Registering a session for a server nobody owns, below the limit. */
  lemma RegisterKeeps(cfg: Config, w: World, id: string, server: Server, w': World)
    requires Inv(cfg, w) && Registers(w, id, server, w') && Accepting(w.closed, w.registered, cfg.maxSessions)
    requires forall o | o in w.registered && o in w.sessions :: w.sessions[o].server != server
    requires forall c | c in w'.connects ::
               w'.connects[c] == AwaitReady(id) || (c, w'.connects[c]) in w.connects.Items
    ensures Inv(cfg, w') && AllEvolve(w, w')
  {
    hide TI.Inv, HomesOk, AuthOk, Unique, AllEvolve, ConnectsOk, SessionOk, PhaseFits, ConnectFits;
    RegisteredSessionsOk(w, id, server, w');
    RegisteredUnique(w, id, server, w');
    RegisteredEvolve(w, id, server, w');
    RegisteredConnects(w, id, server, w');
    HomesStay(w, w');
    assert id !in w.registered && ClosersOk(w');
    hide SessionsOk;
  }

  lemma AwaitsReady(w: World, id: string)
    requires id in w.sessions
    ensures ConnectFits(w, AwaitReady(id))
  {
  }

  lemma ConnectsKeep(cfg: Config, w: World, w': World)
    requires Inv(cfg, w) && w' == w.(connects := w'.connects)
    requires forall c | c in w'.connects :: w'.connects[c].Resolving? || (c, w'.connects[c]) in w.connects.Items
    ensures Inv(cfg, w') && AllEvolve(w, w')
  {
    hide TI.Inv, PhaseFits, HomesOk;
    CallersKeep(w, w');
    HomesStay(w, w');
  }

  lemma CheckKeeps(cfg: Config, w: World, call: nat, server: Server, owner: Option<string>, id: string)
    requires Inv(cfg, w) && Check(cfg, w, call, server, owner, id).Some?
    ensures Inv(cfg, Check(cfg, w, call, server, owner, id).value)
    ensures AllEvolve(w, Check(cfg, w, call, server, owner, id).value)
  {
    hide Inv, AllEvolve;
    var w' := Check(cfg, w, call, server, owner, id).value;
    if owner.Some? && w.sessions[owner.value].closing {
      BeginClosingKeeps(cfg, w, owner.value, w');
    } else if owner.None? && Accepting(w.closed, w.registered, cfg.maxSessions) {
      RegisterKeeps(cfg, w, id, server, w');
    } else {
      ConnectsKeep(cfg, w, w');
    }
  }

  lemma ConnectResumedKeeps(cfg: Config, w: World, call: nat)
    requires Inv(cfg, w) && ConnectResumed(w, call).Some?
    ensures Inv(cfg, ConnectResumed(w, call).value) && AllEvolve(w, ConnectResumed(w, call).value)
  {
    var w', id := ConnectResumed(w, call).value, w.connects[call].session;
    if w.sessions[id].closing || !w.sessions[id].start.Attached? {
      BeginClosingKeeps(cfg, w, id, w');
    } else {
      ConnectsKeep(cfg, w, w');
    }
  }

  lemma ConnectCancelledKeeps(cfg: Config, w: World, call: nat)
    requires Inv(cfg, w) && ConnectCancelled(w, call).Some?
    ensures Inv(cfg, ConnectCancelled(w, call).value) && AllEvolve(w, ConnectCancelled(w, call).value)
  {
    var w' := ConnectCancelled(w, call).value;
    if w.connects[call].AwaitReady? {
      assert ConnectFits(w, w.connects[call]);
      BeginClosingKeeps(cfg, w, w.connects[call].session, w');
    } else {
      ConnectsKeep(cfg, w, w');
    }
  }

  lemma ClosersKeep(cfg: Config, w: World, w': World)
    requires Inv(cfg, w) && w' == w.(closed := w'.closed, closers := w'.closers)
    requires w.closed ==> w'.closed
    requires forall c | c in w'.closers ::
               (c, w'.closers[c]) in w.closers.Items || (w'.closed && w'.closers[c] == w.registered)
    ensures Inv(cfg, w') && AllEvolve(w, w')
  {
    forall m | m in w'.homes ensures HomeFits(w', m) {
      assert HomeFits(w, m);
    }
    forall c | c in w'.connects ensures ConnectFits(w', w'.connects[c]) {
      assert ConnectFits(w, w.connects[c]);
    }
    assert ClosersOk(w');
  }

  lemma TransferKeeps(cfg: Config, w: World, te: T.Event, w': World)
    requires Inv(cfg, w) && Next(cfg, w, Transfer(te)) == Some(w')
    ensures Inv(cfg, w') && AllEvolve(w, w')
  {
    hide TI.Inv, PhaseFits, HomesOk, T.Next;
    TS.StepKeeps(cfg.transfers, w.t, te);
    OtherPhases(cfg.transfers, w.t, te);
    CallersKeep(w, w');
    HomesStay(w, w');
  }

  /** Every event keeps the invariant, and no session moves backwards. */
  lemma StepKeeps(cfg: Config, w: World, e: Event)
    requires Inv(cfg, w) && Next(cfg, w, e).Some?
    ensures Inv(cfg, Next(cfg, w, e).value) && AllEvolve(w, Next(cfg, w, e).value)
  {
    hide Inv, AllEvolve, Authenticated, StartEnded, MadeReady, ShutdownRan, TransfersDone, RunnerDone, MasterDone,
         ConnectResumed, ConnectCancelled, Check, T.Next, Accepting;
    var w' := Next(cfg, w, e).value;
    match e
    case BeginConnect(call) => ConnectsKeep(cfg, w, w');
    case Resolved(call, server, owner, id) => CheckKeeps(cfg, w, call, server, owner, id);
    case OwnerGone(call, owner, id) =>
      if w.sessions[w.connects[call].owner].raised {
        ConnectsKeep(cfg, w, w');
      } else {
        CheckKeeps(cfg, w, call, w.connects[call].server, owner, id);
      }
    case Authenticate(s) => AuthenticatedKeeps(cfg, w, s);
    case Ready(s, m) => MadeReadyKeeps(cfg, w, s, m);
    case StartFails(s) => StartEndedKeeps(cfg, w, s, StartFailed);
    case StartCancels(s) => StartEndedKeeps(cfg, w, s, StartCancelled);
    case ResumeConnect(call) => ConnectResumedKeeps(cfg, w, call);
    case CancelConnect(call) => ConnectCancelledKeeps(cfg, w, call);
    case Disconnect(s) => BeginClosingKeeps(cfg, w, s, w');
    case ShutdownRuns(s) => ShutdownRanKeeps(cfg, w, s);
    case TransfersClosed(s) => TransfersDoneKeeps(cfg, w, s, true);
    case TransfersRaise(s) => TransfersDoneKeeps(cfg, w, s, false);
    case RunnerClosed(s, ok) => RunnerDoneKeeps(cfg, w, s, ok);
    case MasterClosed(s, ok) => MasterDoneKeeps(cfg, w, s, ok);
    case BeginClose(call) => ClosersKeep(cfg, w, w');
    case CloseOne(call, s) => BeginClosingKeeps(cfg, w, s, w');
    case FinishClose(call) => ClosersKeep(cfg, w, w');
    case AbandonClose(call) => ClosersKeep(cfg, w, w');
    case Transfer(te) => TransferKeeps(cfg, w, te, w');
  }
}
