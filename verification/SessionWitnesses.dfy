/** Ways on from any reachable state of SessionWorld: a new session can be
    connected, an idle one or one that is still starting can be disconnected, and
    the manager can be closed. */
module SessionWitnesses {
  import opened Options
  import opened SessionWorld
  import opened SessionInvariant
  import opened SessionRuns
  import opened SessionOutcomes
  import T = TransferWorld
  import TI = TransferInvariant

  lemma Extend(cfg: Config, ws: seq<World>, es: seq<Event>, e: Event) returns (ws': seq<World>, es': seq<Event>)
    requires IsRun(cfg, ws, es) && Next(cfg, ws[|es|], e).Some?
    ensures IsRun(cfg, ws', es') && es' == es + [e] && ws <= ws' && ws'[|es'|] == Next(cfg, ws[|es|], e).value
  {
    hide Next;
    ws', es' := ws + [Next(cfg, ws[|es|], e).value], es + [e];
    forall i | 0 <= i < |es'| ensures Follows(cfg, ws', es', i) {
      if i < |es| {
        assert Follows(cfg, ws, es, i);
      }
    }
  }

  /** From every state of every run: as long as the manager is open and below its
      limit, nobody owns the server and nobody is at the authentication prompt, a
      new `connect` can go all the way, whatever sessions there already are. It ends
      with its session handed over, ready, and every other session as it was. */
  lemma ConnectCanSucceed(cfg: Config, ws: seq<World>, es: seq<Event>, call: nat, server: Server, id: string, m: T.ManagerId)
    returns (ws': seq<World>, es': seq<Event>)
    requires IsRun(cfg, ws, es)
    requires var w := ws[|es|];
             && !w.closed && |w.registered| < cfg.maxSessions && !Owned(w, server) && w.auth.None?
             && call !in w.connects && id !in w.sessions && m !in w.t.managers
    ensures IsRun(cfg, ws', es') && ws <= ws'
    ensures es' == es + [BeginConnect(call), Resolved(call, server, None, id), Authenticate(id), Ready(id, m), ResumeConnect(call)]
    ensures var w, w' := ws[|es|], ws'[|es'|];
            && call !in w'.connects && w'.registered == w.registered + {id} && w'.auth.None?
            && !w'.closed && w'.closers == w.closers
            && w'.sessions == w.sessions[id := NewSession(server).(start := Attached, services := Some(m))]
            && m in w'.t.managers && w'.t.managers[m].Open? && w'.t.ops == w.t.ops
  {
    hide Check, OwnerAnswer;
    var w := ws[|es|];
    ws', es' := Extend(cfg, ws, es, BeginConnect(call));
    var w1 := ws'[|es'|];
    assert w1 == w.(connects := w.connects[call := Resolving]);
    Unowned(cfg, w1, call, server, id);
    ws', es' := Extend(cfg, ws', es', Resolved(call, server, None, id));
    var w2 := ws'[|es'|];
    var s := NewSession(server);
    ws', es' := Starts(cfg, ws', es', id, m);
    ws', es' := Extend(cfg, ws', es', ResumeConnect(call));
    assert w2.sessions[id := s.(start := Attached, services := Some(m))]
        == w.sessions[id := s.(start := Attached, services := Some(m))];
  }

  lemma Unowned(cfg: Config, w: World, call: nat, server: Server, id: string)
    requires !w.closed && |w.registered| < cfg.maxSessions && !Owned(w, server) && id !in w.sessions
    ensures Check(cfg, w, call, server, None, id)
         == Some(w.(sessions := w.sessions[id := NewSession(server)], registered := w.registered + {id},
                    connects := w.connects[call := AwaitReady(id)]))
  {
  }

  lemma Starts(cfg: Config, ws: seq<World>, es: seq<Event>, id: string, m: T.ManagerId)
    returns (ws': seq<World>, es': seq<Event>)
    requires IsRun(cfg, ws, es)
    requires var w := ws[|es|];
             && id in w.sessions && w.sessions[id].start.Queued? && !w.sessions[id].startCancel
             && w.auth.None? && m !in w.t.managers
    ensures IsRun(cfg, ws', es') && es' == es + [Authenticate(id), Ready(id, m)] && ws <= ws'
    ensures var w, w' := ws[|es|], ws'[|es'|];
            && w'.sessions == w.sessions[id := w.sessions[id].(start := Attached, services := Some(m))]
            && w'.auth.None? && w'.closed == w.closed && w'.registered == w.registered && w'.connects == w.connects
            && w'.closers == w.closers && m in w'.t.managers && w'.t.managers[m].Open? && w'.t.ops == w.t.ops
  {
    hide Next;
    var w := ws[|es|];
    StartExactly(cfg, w, id, m);
    ws', es' := Extend(cfg, ws, es, Authenticate(id));
    StartExactly(cfg, ws'[|es'|], id, m);
    ws', es' := Extend(cfg, ws', es', Ready(id, m));
    assert ws'[|es'|].sessions == w.sessions[id := w.sessions[id].(start := Attached, services := Some(m))];
  }

  /** A session that was shut down, with nothing raised on the way. */
  predicate ShutDown(w: World, id: string) {
    && id in w.sessions && id !in w.registered
    && w.sessions[id].stage.Gone? && w.sessions[id].shutdowns == 1 && !w.sessions[id].raised
  }

  /** Of the manager, only session `id` has changed. */
  predicate OnlyTouches(w: World, id: string, w': World) {
    && id in w'.sessions && w'.sessions == w.sessions[id := w'.sessions[id]]
    && w'.closed == w.closed && w'.closers == w.closers
  }

  lemma Disconnects(cfg: Config, w: World, id: string)
    requires id in w.registered && id in w.sessions
    ensures Next(cfg, w, Disconnect(id)) == Some(SetSession(w, id, Closing(w.sessions[id])))
  {
  }

  lemma Proceeds(cfg: Config, w: World, id: string)
    requires id in w.sessions && w.sessions[id].stage.Scheduled? && w.sessions[id].start.Done()
    requires w.sessions[id].services.Some? && T.CloseBegun(w.t, w.sessions[id].services.value).Some?
    ensures Next(cfg, w, ShutdownRuns(id))
         == Some(SetSession(w, id, Proceed(w.sessions[id])).(t := T.CloseBegun(w.t, w.sessions[id].services.value).value))
  {
    hide T.CloseBegun;
  }

  lemma Waits(cfg: Config, w: World, id: string)
    requires id in w.sessions && w.sessions[id].stage.Scheduled? && !w.sessions[id].start.Done()
    ensures Next(cfg, w, ShutdownRuns(id)) == Some(SetSession(w, id, ShutdownBegun(w.sessions[id])))
  {
  }

  lemma TransfersReturn(cfg: Config, w: World, id: string, m: T.ManagerId)
    requires id in w.sessions && w.sessions[id].stage.ClosingTransfers? && w.sessions[id].services == Some(m)
    requires T.CloseFinished(w.t, m).Some?
    ensures Next(cfg, w, TransfersClosed(id))
         == Some(SetSession(w, id, AfterTransfers(w.sessions[id], true)).(t := T.CloseFinished(w.t, m).value))
  {
    hide T.CloseFinished;
  }

  lemma SetTwice(w: World, id: string, a: Session, b: Session)
    ensures SetSession(SetSession(w, id, a), id, b) == SetSession(w, id, b)
  {
    assert w.sessions[id := a][id := b] == w.sessions[id := b];
  }

  /** A ready session begins to close its transfers. */
  lemma Begins(cfg: Config, ws: seq<World>, es: seq<Event>, id: string, m: T.ManagerId)
    returns (ws': seq<World>, es': seq<Event>)
    requires IsRun(cfg, ws, es)
    requires var w := ws[|es|];
             && id in w.registered && id in w.sessions && w.sessions[id].stage.NotClosing? && w.sessions[id].shutdowns == 0
             && w.sessions[id].services == Some(m) && w.sessions[id].start.Done() && T.CloseBegun(w.t, m).Some?
    ensures IsRun(cfg, ws', es') && ws <= ws' && es' == es + [Disconnect(id), ShutdownRuns(id)]
    ensures var w := ws[|es|];
            ws'[|es'|] == SetSession(w, id, Proceed(Closing(w.sessions[id]))).(t := T.CloseBegun(w.t, m).value)
  {
    var w := ws[|es|];
    hide IsRun, Next, T.CloseBegun, Proceed;
    Disconnects(cfg, w, id);
    ws', es' := Extend(cfg, ws, es, Disconnect(id));
    Proceeds(cfg, ws'[|es'|], id);
    SetTwice(w, id, Closing(w.sessions[id]), Proceed(Closing(w.sessions[id])));
    ws', es' := Extend(cfg, ws', es', ShutdownRuns(id));
  }

  /** A ready session with no unfinished transfer can be disconnected: its
      transfers, its runner and its master are closed in this order. */
  lemma DisconnectCanFinish(cfg: Config, ws: seq<World>, es: seq<Event>, id: string)
    returns (ws': seq<World>, es': seq<Event>)
    requires IsRun(cfg, ws, es)
    requires var w := ws[|es|];
             && id in w.registered && id in w.sessions && w.sessions[id].stage.NotClosing? && w.sessions[id].services.Some?
             && TI.ActiveOf(w.t, w.sessions[id].services.value) == {}
    ensures IsRun(cfg, ws', es') && ws <= ws'
    ensures es' == es + [Disconnect(id), ShutdownRuns(id)] + [TransfersClosed(id), RunnerClosed(id, true), MasterClosed(id, true)]
    ensures ShutDown(ws'[|es'|], id) && OnlyTouches(ws[|es|], id, ws'[|es'|])
    ensures ws'[|es'|].sessions[id].attempts == [CloseTransfers, CloseRunner, CloseMaster]
    ensures ws'[|es'|].registered == ws[|es|].registered - {id}
    ensures ws'[|es'|].sessions[id].server == ws[|es|].sessions[id].server
  {
    hide Inv, T.CloseBegun, T.CloseFinished, Follows, Next, Proceed;
    RunInv(cfg, ws, es, |es|);
    var w := ws[|es|];
    var m := w.sessions[id].services.value;
    CloseIsInstant(cfg, w, id, m);
    ProceedShape(Closing(w.sessions[id]));
    ws', es' := Begins(cfg, ws, es, id, m);
    var w1 := ws'[|es'|];
    ws', es' := Ends(cfg, ws', es', id, m);
    assert w.sessions[id := w1.sessions[id]][id := ws'[|es'|].sessions[id]] == w.sessions[id := ws'[|es'|].sessions[id]];
  }

  lemma ProceedShape(s: Session)
    ensures s.services.Some? ==>
              Proceed(s) == s.(stage := ClosingTransfers, attempts := s.attempts + [CloseTransfers])
  {
  }

  /** Without unfinished transfers, closing them waits for nobody. */
  lemma CloseIsInstant(cfg: Config, w: World, id: string, m: T.ManagerId)
    requires Inv(cfg, w) && id in w.sessions && w.sessions[id].stage.NotClosing? && w.sessions[id].services == Some(m)
    requires TI.ActiveOf(w.t, m) == {}
    ensures var s := w.sessions[id]; s.shutdowns == 0 && s.start.Done() && !s.raised && s.attempts == []
    ensures T.CloseBegun(w.t, m).Some? && T.CloseFinished(T.CloseBegun(w.t, m).value, m).Some?
  {
    hide AuthOk, ConnectsOk, ClosersOk, Unique;
    assert SessionOk(w.sessions[id]) && HomeFits(w, m) && w.t.managers[m].Open?;
    assert T.R.ActiveIds(T.Records(w.t, m)) == {} by {
      forall i | i in T.Records(w.t, m) ensures i !in T.R.ActiveIds(T.Records(w.t, m)) {
        assert i !in TI.ActiveOf(w.t, m);
      }
    }
  }

  /** The three closes of a shutdown. */
  lemma Ends(cfg: Config, ws: seq<World>, es: seq<Event>, id: string, m: T.ManagerId)
    returns (ws': seq<World>, es': seq<Event>)
    requires IsRun(cfg, ws, es)
    requires var w := ws[|es|];
             && id in w.sessions && w.sessions[id].stage.ClosingTransfers? && w.sessions[id].shutdowns == 1 && !w.sessions[id].raised
             && w.sessions[id].attempts == [CloseTransfers] && w.sessions[id].services == Some(m)
             && T.CloseFinished(w.t, m).Some?
    ensures IsRun(cfg, ws', es') && ws <= ws'
    ensures es' == es + [TransfersClosed(id), RunnerClosed(id, true), MasterClosed(id, true)]
    ensures ShutDown(ws'[|es'|], id) && OnlyTouches(ws[|es|], id, ws'[|es'|])
    ensures ws'[|es'|].sessions[id].attempts == [CloseTransfers, CloseRunner, CloseMaster]
    ensures ws'[|es'|].registered == ws[|es|].registered - {id}
    ensures ws'[|es'|].sessions[id].server == ws[|es|].sessions[id].server
  {
    var w := ws[|es|];
    hide IsRun, Next, T.CloseFinished;
    TransfersReturn(cfg, w, id, m);
    ws', es' := Extend(cfg, ws, es, TransfersClosed(id));
    LastCloses(cfg, ws'[|es'|], id);
    ws', es' := Extend(cfg, ws', es', RunnerClosed(id, true));
    ws', es' := Extend(cfg, ws', es', MasterClosed(id, true));
  }

  lemma LastCloses(cfg: Config, w: World, id: string)
    requires id in w.sessions && w.sessions[id].stage.ClosingRunner?
    ensures Next(cfg, w, RunnerClosed(id, true)) == Some(SetSession(w, id, AfterRunner(w.sessions[id], true)))
    ensures var w1 := SetSession(w, id, AfterRunner(w.sessions[id], true));
            && Next(cfg, w1, MasterClosed(id, true))
               == Some(SetSession(w, id, AfterMaster(w1.sessions[id], true)).(registered := w.registered - {id}))
  {
    SetTwice(w, id, AfterRunner(w.sessions[id], true), AfterMaster(AfterRunner(w.sessions[id], true), true));
  }

  /** A session disconnected while it waits for its turn or authenticates: the
      start is cancelled first, nothing is ever attached, and the `connect` that
      waits for it gives up. */
  lemma DisconnectWhileStarting(cfg: Config, ws: seq<World>, es: seq<Event>, id: string, call: nat)
    returns (ws': seq<World>, es': seq<Event>)
    requires IsRun(cfg, ws, es)
    requires var w := ws[|es|];
             && id in w.registered && id in w.sessions && w.sessions[id].stage.NotClosing? && !w.sessions[id].start.Done()
             && call in w.connects && w.connects[call] == AwaitReady(id)
    ensures IsRun(cfg, ws', es') && ws <= ws'
    ensures es' == es + [Disconnect(id), ShutdownRuns(id)]
                      + [StartCancels(id), ResumeConnect(call), ShutdownRuns(id), MasterClosed(id, true)]
    ensures ShutDown(ws'[|es'|], id)
    ensures var w := ws'[|es'|];
            && w.sessions[id].services.None? && w.sessions[id].attempts == [CloseMaster]
            && call in w.connects && w.connects[call] == Abandoning(id)
  {
    hide Inv, Next, Follows, AuthOk;
    RunInv(cfg, ws, es, |es|);
    var w := ws[|es|];
    StillStarting(cfg, w, id);
    Disconnects(cfg, w, id);
    ws', es' := Extend(cfg, ws, es, Disconnect(id));
    Waits(cfg, ws'[|es'|], id);
    ws', es' := Extend(cfg, ws', es', ShutdownRuns(id));
    RunInv(cfg, ws', es', |es'|);
    HasLock(cfg, ws'[|es'|]);
    ws', es' := GivesUp(cfg, ws', es', id, call);
  }

  lemma StillStarting(cfg: Config, w: World, id: string)
    requires Inv(cfg, w) && id in w.sessions && w.sessions[id].stage.NotClosing? && !w.sessions[id].start.Done()
    ensures var s := w.sessions[id]; s.shutdowns == 0 && s.services.None? && !s.raised && s.attempts == []
  {
    assert SessionOk(w.sessions[id]);
  }

  lemma HasLock(cfg: Config, w: World)
    requires Inv(cfg, w)
    ensures AuthOk(w)
  {
  }

  lemma Resumes(cfg: Config, w: World, id: string, call: nat)
    requires id in w.sessions && call in w.connects && w.connects[call] == AwaitReady(id)
    requires w.sessions[id].start.Done() && w.sessions[id].closing && w.sessions[id].shutdowns == 1
    ensures Next(cfg, w, ResumeConnect(call)) == Some(w.(connects := w.connects[call := Abandoning(id)]))
  {
    assert w.sessions[id := w.sessions[id]] == w.sessions;
  }

  lemma MasterOnly(cfg: Config, w: World, id: string)
    requires id in w.sessions && w.sessions[id].stage.AwaitStart? && w.sessions[id].start.Done() && w.sessions[id].services.None?
    ensures Next(cfg, w, ShutdownRuns(id)) == Some(SetSession(w, id, Proceed(w.sessions[id])))
    ensures var w1 := SetSession(w, id, Proceed(w.sessions[id]));
            && Next(cfg, w1, MasterClosed(id, true))
               == Some(SetSession(w, id, AfterMaster(w1.sessions[id], true)).(registered := w.registered - {id}))
  {
    SetTwice(w, id, Proceed(w.sessions[id]), AfterMaster(Proceed(w.sessions[id]), true));
  }

  lemma GivesUp(cfg: Config, ws: seq<World>, es: seq<Event>, id: string, call: nat)
    returns (ws': seq<World>, es': seq<Event>)
    requires IsRun(cfg, ws, es)
    requires var w := ws[|es|];
             && id in w.sessions && call in w.connects && w.connects[call] == AwaitReady(id)
             && var s := w.sessions[id];
                s.stage.AwaitStart? && !s.start.Done() && s.startCancel && s.closing && s.shutdowns == 1 && !s.raised
                && s.services.None? && s.attempts == []
    requires AuthOk(ws[|es|])
    ensures IsRun(cfg, ws', es') && ws <= ws'
    ensures es' == es + [StartCancels(id), ResumeConnect(call), ShutdownRuns(id), MasterClosed(id, true)]
    ensures ShutDown(ws'[|es'|], id)
    ensures var w := ws'[|es'|];
            && w.sessions[id].services.None? && w.sessions[id].attempts == [CloseMaster]
            && call in w.connects && w.connects[call] == Abandoning(id)
  {
    var w := ws[|es|];
    hide IsRun, Next;
    StartEndsExactly(cfg, w, id, true);
    ws', es' := Extend(cfg, ws, es, StartCancels(id));
    Resumes(cfg, ws'[|es'|], id, call);
    ws', es' := Extend(cfg, ws', es', ResumeConnect(call));
    MasterOnly(cfg, ws'[|es'|], id);
    ws', es' := Extend(cfg, ws', es', ShutdownRuns(id));
    ws', es' := Extend(cfg, ws', es', MasterClosed(id, true));
  }

  /** One session's whole life, from the start: connected, handed over,
      disconnected; and then the manager closes with nothing left. */
  lemma LifeRun(cfg: Config, server: Server, id: string) returns (ws: seq<World>, es: seq<Event>, k: nat)
    requires cfg.maxSessions > 0
    ensures IsRun(cfg, ws, es) && k < |ws|
    ensures id in ws[k].registered && id in ws[k].sessions && 0 !in ws[k].connects
    ensures ws[k].sessions[id] == NewSession(server).(start := Attached, services := Some(0))
    ensures var w := ws[|es|];
            && w.closed && w.closers == map[] && ShutDown(w, id) && w.sessions[id].server == server
            && w.registered == {} && w.t.claimed == {}
  {
    ws, es := [INITIAL], [];
    ws, es := ConnectCanSucceed(cfg, ws, es, 0, server, id, 0);
    k := |es|;
    ghost var ready := ws;
    ws, es := DisconnectCanFinish(cfg, ws, es, id);
    assert ws[k] == ready[k];
    hide Next;
    ws, es := Closes(cfg, ws, es, id);
    assert ws[k] == ready[k];
  }

  lemma Closes(cfg: Config, ws: seq<World>, es: seq<Event>, id: string) returns (ws': seq<World>, es': seq<Event>)
    requires IsRun(cfg, ws, es) && ws[|es|].closers == map[] && ws[|es|].registered == {}
    requires Undisturbed(es)
    ensures IsRun(cfg, ws', es') && ws <= ws' && es' == es + [BeginClose(0), FinishClose(0)]
    ensures var w, w' := ws[|es|], ws'[|es'|];
            w'.closed && w'.closers == map[] && w'.registered == {} && w'.sessions == w.sessions && w'.t.claimed == {}
  {
    ws', es' := Extend(cfg, ws, es, BeginClose(0));
    ws', es' := Extend(cfg, ws', es', FinishClose(0));
    hide Next;
    ShutdownIsTotal(cfg, ws', es', |es'| - 1, |es'|, 0);
  }
}
