/** The decisions of SessionWorld in both directions, over every run: when a
    `connect` registers a session and when it hands it over, who authenticates,
    and when shutting down is finished (remote_ssh_mcp/sessions.py). */
module SessionOutcomes {
  import opened Options
  import opened SessionWorld
  import opened SessionInvariant
  import opened SessionRuns
  import T = TransferWorld

  /** In every run a `connect` whose start task is done hands its session over
      exactly if that is not being closed and its start attached services. If it
      does, the session is registered, ready and unchanged. If not, the session is
      closing afterwards, with its one shutdown task made, and the call waits for
      that. */
  lemma ConnectReturnsExactly(cfg: Config, ws: seq<World>, es: seq<Event>, k: nat, call: nat)
    requires IsRun(cfg, ws, es) && k < |es| && es[k] == ResumeConnect(call)
    ensures call in ws[k].connects && ws[k].connects[call].AwaitReady?
    ensures var id := ws[k].connects[call].session;
            && id in ws[k].sessions && id in ws[k + 1].sessions
            && var s := ws[k].sessions[id];
               && (call !in ws[k + 1].connects <==> !s.closing && s.start.Attached?)
               && (call !in ws[k + 1].connects ==>
                     id in ws[k + 1].registered && ws[k + 1].sessions == ws[k].sessions && s.services.Some?)
               && (call in ws[k + 1].connects ==>
                     && ws[k + 1].connects[call] == Abandoning(id)
                     && ws[k + 1].sessions[id].closing && ws[k + 1].sessions[id].shutdowns == 1)
  {
    RunInv(cfg, ws, es, k);
    RunStep(cfg, ws, es, k);
    assert Next(cfg, ws[k], es[k]) == ConnectResumed(ws[k], call);
    var id := ws[k].connects[call].session;
    assert SessionOk(ws[k].sessions[id]);
    hide Next, Inv;
  }

  /** It resumes as soon as that task is done, whatever came of it. */
  lemma ConnectResumesExactly(cfg: Config, w: World, call: nat)
    requires call in w.connects && w.connects[call].AwaitReady? && w.connects[call].session in w.sessions
    ensures Next(cfg, w, ResumeConnect(call)).Some? <==> w.sessions[w.connects[call].session].start.Done()
  {
  }

  /** The server belongs to a registered session. */
  predicate Owned(w: World, server: Server) {
    exists o | o in w.registered :: o in w.sessions && w.sessions[o].server == server
  }

  lemma CheckExactly(cfg: Config, w: World, call: nat, server: Server, owner: Option<string>, id: string)
    requires Check(cfg, w, call, server, owner, id).Some?
    ensures id !in w.sessions && (owner.None? <==> !Owned(w, server))
    ensures owner.Some? ==> owner.value in w.registered && owner.value in w.sessions && w.sessions[owner.value].server == server
    ensures var w' := Check(cfg, w, call, server, owner, id).value;
            && (id in w'.sessions <==> !w.closed && |w.registered| < cfg.maxSessions && !Owned(w, server))
            && (id in w'.sessions ==>
                  && w'.registered == w.registered + {id} && w'.connects == w.connects[call := AwaitReady(id)]
                  && w'.sessions == w.sessions[id := w'.sessions[id]]
                  && var s := w'.sessions[id];
                     s.server == server && s.start.Queued? && !s.startCancel && !s.closing && s.services.None?)
            && (id !in w'.sessions ==> w'.registered == w.registered)
            && (owner.Some? && w.sessions[owner.value].closing ==> w'.connects == w.connects[call := AwaitOwner(server, owner.value)])
            && ((owner.Some? && !w.sessions[owner.value].closing) || (owner.None? && id !in w'.sessions) ==>
                  w'.connects == w.connects - {call} && w'.sessions == w.sessions)
  {
  }

  /** In every run, the check of a `connect` whose server was resolved, or whose
      earlier owner is gone, registers a session exactly if the manager is open, has
      fewer sessions than it may, and none of them owns the server; the new session
      waits for its turn to authenticate and the call for the session. The call
      waits for an owner that is closing, and ends otherwise. */
  lemma CheckRegistersExactly(cfg: Config, ws: seq<World>, es: seq<Event>, k: nat, call: nat, server: Server,
                              owner: Option<string>, id: string)
    requires IsRun(cfg, ws, es) && k < |es|
    requires es[k] == Resolved(call, server, owner, id)
             || (es[k] == OwnerGone(call, owner, id) && call in ws[k].connects && ws[k].connects[call].AwaitOwner?
                 && ws[k].connects[call].server == server && ws[k].connects[call].owner in ws[k].sessions
                 && !ws[k].sessions[ws[k].connects[call].owner].raised)
    ensures id !in ws[k].sessions && (owner.None? <==> !Owned(ws[k], server))
    ensures owner.Some? ==> owner.value in ws[k].sessions && ws[k].sessions[owner.value].server == server
    ensures id in ws[k + 1].sessions <==> !ws[k].closed && |ws[k].registered| < cfg.maxSessions && !Owned(ws[k], server)
    ensures id in ws[k + 1].sessions ==>
              && ws[k + 1].registered == ws[k].registered + {id}
              && ws[k + 1].connects == ws[k].connects[call := AwaitReady(id)]
              && var s := ws[k + 1].sessions[id];
                 s.server == server && s.start.Queued? && !s.startCancel && !s.closing && s.services.None?
    ensures id !in ws[k + 1].sessions ==>
              && ws[k + 1].registered == ws[k].registered
              && ws[k + 1].connects
                 == (if owner.Some? && ws[k].sessions[owner.value].closing
                     then ws[k].connects[call := AwaitOwner(server, owner.value)] else ws[k].connects - {call})
  {
    RunStep(cfg, ws, es, k);
    assert Next(cfg, ws[k], es[k]) == Check(cfg, ws[k], call, server, owner, id);
    hide Next;
    CheckExactly(cfg, ws[k], call, server, owner, id);
    hide Check, Owned;
  }

  /** A `connect` begins as long as the manager is open and has fewer sessions than
      it may. It gives up if the owner it waited for failed to shut down. */
  lemma ConnectBeginsExactly(cfg: Config, w: World, call: nat, owner: Option<string>, id: string)
    ensures Next(cfg, w, BeginConnect(call)).Some?
            <==> call !in w.connects && !w.closed && |w.registered| < cfg.maxSessions
    ensures Next(cfg, w, BeginConnect(call)).Some? ==>
              Next(cfg, w, BeginConnect(call)).value == w.(connects := w.connects[call := Resolving])
    ensures call in w.connects && w.connects[call].AwaitOwner? && w.connects[call].owner in w.sessions
            && w.sessions[w.connects[call].owner].stage.Gone? && w.sessions[w.connects[call].owner].raised ==>
              Next(cfg, w, OwnerGone(call, owner, id)) == Some(w.(connects := w.connects - {call}))
  {
  }

  /** Who cancels a `connect` that waits for its session closes the session too:
      the session is closing afterwards, with its one shutdown task made, and the
      call waits for that. Anywhere else the call just ends. */
  lemma ConnectCancelledExactly(cfg: Config, ws: seq<World>, es: seq<Event>, k: nat, call: nat)
    requires IsRun(cfg, ws, es) && k < |es| && es[k] == CancelConnect(call)
    ensures call in ws[k].connects
    ensures ws[k].connects[call].AwaitReady? ==>
              var id := ws[k].connects[call].session;
              && id in ws[k + 1].sessions && ws[k + 1].sessions[id].closing && ws[k + 1].sessions[id].shutdowns == 1
              && ws[k + 1].connects == ws[k].connects[call := Abandoning(id)] && ws[k + 1].registered == ws[k].registered
    ensures !ws[k].connects[call].AwaitReady? ==> ws[k + 1] == ws[k].(connects := ws[k].connects - {call})
  {
    RunInv(cfg, ws, es, k);
    RunStep(cfg, ws, es, k);
    assert Next(cfg, ws[k], es[k]) == ConnectCancelled(ws[k], call);
    if ws[k].connects[call].AwaitReady? {
      CancelledFits(ws[k], call);
    }
    hide Next, Inv;
  }

  lemma CancelledFits(w: World, call: nat)
    requires ConnectsOk(w) && SessionsOk(w) && call in w.connects && w.connects[call].AwaitReady?
    ensures w.connects[call].session in w.sessions && SessionOk(w.sessions[w.connects[call].session])
  {
    assert ConnectFits(w, w.connects[call]);
  }

  // The start task.

  /** A queued start begins to authenticate exactly if nobody else does and it was
      not cancelled; one that authenticates attaches its services under a fresh
      manager unless it was cancelled; and it leaves the lock. */
  lemma StartExactly(cfg: Config, w: World, id: string, m: T.ManagerId)
    ensures Next(cfg, w, Authenticate(id)).Some?
            <==> id in w.sessions && w.sessions[id].start.Queued? && !w.sessions[id].startCancel && w.auth.None?
    ensures Next(cfg, w, Authenticate(id)).Some? ==>
              var w' := Next(cfg, w, Authenticate(id)).value;
              w' == SetSession(w, id, w.sessions[id].(start := Authenticating)).(auth := Some(id))
    ensures Next(cfg, w, Ready(id, m)).Some?
            <==> id in w.sessions && w.sessions[id].start.Authenticating? && !w.sessions[id].startCancel && m !in w.t.managers
    ensures Next(cfg, w, Ready(id, m)).Some? ==>
              var w' := Next(cfg, w, Ready(id, m)).value;
              && w'.sessions == w.sessions[id := w.sessions[id].(start := Attached, services := Some(m))]
              && w'.auth.None? && m in w'.t.managers && w'.t.managers[m].Open? && w'.t.ops == w.t.ops
              && w'.registered == w.registered && w'.connects == w.connects && w'.closed == w.closed && w'.closers == w.closers
  {
  }

  /** A start task that is not done can fail only while it authenticates, and be
      cancelled only once that was asked for; either way it is done then, and the
      lock is free if it held it. */
  lemma StartEndsExactly(cfg: Config, w: World, id: string, cancelled: bool)
    requires AuthOk(w)
    ensures var e := if cancelled then StartCancels(id) else StartFails(id);
            && (Next(cfg, w, e).Some?
                <==> id in w.sessions && !w.sessions[id].start.Done()
                     && (if cancelled then w.sessions[id].startCancel else w.sessions[id].start.Authenticating?))
            && (Next(cfg, w, e).Some? ==>
                  var w' := Next(cfg, w, e).value;
                  && w'.sessions == w.sessions[id := w.sessions[id].(start := if cancelled then StartCancelled else StartFailed)]
                  && w'.auth == (if w.auth == Some(id) then None else w.auth)
                  && w'.registered == w.registered && w'.connects == w.connects && w'.closed == w.closed && w'.t == w.t)
  {
  }

  /** A `close` returns exactly once the shutdown of every session it waits for is
      over. */
  lemma CloseReturnsExactly(cfg: Config, w: World, call: nat)
    requires Inv(cfg, w) && call in w.closers
    ensures Next(cfg, w, FinishClose(call)).Some? <==> w.closers[call] !! w.registered
  {
    hide SessionOk, AuthOk, HomesOk, ConnectsOk, Unique;
  }

  // The shutdown task.

  /** Disconnecting a registered session, or closing the manager, leaves it closing
      with its one shutdown task made; `close` refuses new sessions from then on and
      waits for exactly the registered ones. */
  lemma ClosingBegins(cfg: Config, ws: seq<World>, es: seq<Event>, k: nat, id: string)
    requires IsRun(cfg, ws, es) && k < |es|
    ensures es[k] == Disconnect(id) || (es[k].CloseOne? && es[k].s == id) ==>
              && id in ws[k].sessions && id in ws[k + 1].sessions
              && ws[k + 1].sessions[id].closing && ws[k + 1].sessions[id].shutdowns == 1
              && ws[k + 1].registered == ws[k].registered && ws[k + 1].connects == ws[k].connects
    ensures es[k].BeginClose? ==>
              && ws[k + 1].closed && ws[k + 1].closers == ws[k].closers[es[k].call := ws[k].registered]
              && ws[k + 1].sessions == ws[k].sessions && ws[k + 1].registered == ws[k].registered
  {
    hide Inv;
    RunInv(cfg, ws, es, k);
    RunStep(cfg, ws, es, k);
    if es[k] == Disconnect(id) || (es[k].CloseOne? && es[k].s == id) {
      assert ws[k + 1] == BeginClosing(ws[k], id);
      hide Next;
      KnownOk(cfg, ws[k], id);
    }
  }

  lemma KnownOk(cfg: Config, w: World, id: string)
    requires Inv(cfg, w) && id in w.sessions
    ensures SessionOk(w.sessions[id])
    ensures w.sessions[id].services.Some? ==> w.sessions[id].services.value in w.t.managers
  {
    hide SessionOk;
    if w.sessions[id].services.Some? {
      ServedFits(w, id);
    }
  }

  /** The shutdown first waits for the start to end, cancelling it; then it begins
      to close the transfers, or the master if no services were ever attached. */
  lemma ShutdownRunsExactly(cfg: Config, w: World, id: string)
    requires Inv(cfg, w)
    ensures Next(cfg, w, ShutdownRuns(id)).Some?
            <==> id in w.sessions
                 && (w.sessions[id].stage.Scheduled? || (w.sessions[id].stage.AwaitStart? && w.sessions[id].start.Done()))
    ensures Next(cfg, w, ShutdownRuns(id)).Some? ==>
              var s, w' := w.sessions[id], Next(cfg, w, ShutdownRuns(id)).value;
              && id in w'.sessions && w'.registered == w.registered
              && w'.sessions[id].stage == (if !s.start.Done() then AwaitStart
                                           else if s.services.Some? then ClosingTransfers else ClosingMaster)
              && (!s.start.Done() ==> w'.sessions[id].startCancel)
              && w'.sessions[id].raised == s.raised
  {
    assert Next(cfg, w, ShutdownRuns(id)) == ShutdownRan(w, id);
    hide Next;
    hide Inv, T.CloseBegun;
    if id in w.sessions {
      KnownOk(cfg, w, id);
    }
    if id in w.sessions && w.sessions[id].services.Some? {
      BegunIfKnown(w.t, w.sessions[id].services.value);
    }
  }

  lemma BegunIfKnown(t: T.World, m: T.ManagerId)
    ensures T.CloseBegun(t, m).Some? <==> m in t.managers
  {
  }

  /** Each close is followed by the next whatever it raised, and what was raised is
      remembered; after the master's the session is out of the dictionary. */
  lemma ClosesExactly(cfg: Config, w: World, id: string, ok: bool)
    ensures Next(cfg, w, RunnerClosed(id, ok)).Some? <==> id in w.sessions && w.sessions[id].stage.ClosingRunner?
    ensures Next(cfg, w, RunnerClosed(id, ok)).Some? ==>
              var s, w' := w.sessions[id], Next(cfg, w, RunnerClosed(id, ok)).value;
              && w'.registered == w.registered && id in w'.sessions
              && w'.sessions[id].stage.ClosingMaster? && w'.sessions[id].raised == (s.raised || !ok)
    ensures Next(cfg, w, MasterClosed(id, ok)).Some? <==> id in w.sessions && w.sessions[id].stage.ClosingMaster?
    ensures Next(cfg, w, MasterClosed(id, ok)).Some? ==>
              var s, w' := w.sessions[id], Next(cfg, w, MasterClosed(id, ok)).value;
              && w'.registered == w.registered - {id} && id in w'.sessions
              && w'.sessions[id].stage.Gone? && w'.sessions[id].raised == (s.raised || !ok)
    ensures var e := if ok then TransfersClosed(id) else TransfersRaise(id);
            Next(cfg, w, e).Some? ==>
              var s, w' := w.sessions[id], Next(cfg, w, e).value;
              && w'.registered == w.registered && id in w'.sessions
              && w'.sessions[id].stage.ClosingRunner? && w'.sessions[id].raised == (s.raised || !ok)
              && w'.sessions[id].transfersRaised == !ok
  {
    hide T.CloseFinished, T.CloseAbandoned;
  }
}
