/** The objects of remote_ssh_mcp/sessions.py. A method is one stretch of source
    between two suspension points, proved against the same functions that
    SessionWorld interleaves. */
module SessionManager {
  import opened Options
  import W = SessionWorld
  import T = TransferWorld

  class RemoteSession {
    const id: string
    const server: W.Server
    const keyDigest: string
    var start: W.StartTask
    var startCancel: bool
    var services: Option<T.ManagerId>
    var closing: bool
    var shutdowns: nat          // close tasks created
    var stage: W.Stage          // where the close task stands
    var attempts: seq<W.Attempt>
    var raised: bool
    var transfersRaised: bool

    ghost function View(): W.Session
      reads this
    {
      W.Session(server, start, startCancel, services, closing, shutdowns, stage, attempts, raised, transfersRaised)
    }

    constructor (id: string, server: W.Server, keyDigest: string)
      ensures this.id == id && this.keyDigest == keyDigest && View() == W.NewSession(server)
    {
      this.id, this.server, this.keyDigest := id, server, keyDigest;
      start, startCancel, services := W.Queued, false, None;
      closing, shutdowns, stage, attempts := false, 0, W.NotClosing, [];
      raised, transfersRaised := false, false;
    }
  }

  datatype Refusal = Accepted | ServerClosing | LimitReached

  datatype Connected =
    | Wait(owner: RemoteSession)
    | AlreadyConnected(owner: RemoteSession)
    | Refused(why: Refusal)
    | Starting(session: RemoteSession)

  datatype Authorized =
    | Granted(session: RemoteSession, services: T.ManagerId)
    | NotFound
    | InvalidKey
    | SessionClosing
    | NotReady

  class SessionManager {
    const maxSessions: nat
    var sessions: map<string, RemoteSession>
    var closed: bool

    ghost predicate Valid()
      reads this, sessions.Values
    {
      forall id | id in sessions :: sessions[id].id == id
    }

    constructor (maxSessions: nat)
      ensures Valid() && sessions == map[] && !closed && this.maxSessions == maxSessions
    {
      this.maxSessions, sessions, closed := maxSessions, map[], false;
    }

    method EnsureAccepting() returns (r: Refusal)
      ensures r.Accepted? <==> !closed && |sessions| < maxSessions
      ensures r.ServerClosing? <==> closed
    {
      if closed {
        return ServerClosing;
      }
      if |sessions| >= maxSessions {
        return LimitReached;
      }
      return Accepted;
    }

    method Owner(server: W.Server) returns (owner: RemoteSession?)
      requires Valid()
      ensures owner != null ==> owner.id in sessions && sessions[owner.id] == owner && owner.server == server
      ensures owner == null ==> forall id | id in sessions :: sessions[id].server != server
    {
      var pending := sessions.Keys;
      while pending != {}
        invariant pending <= sessions.Keys
        invariant forall id | id in sessions.Keys - pending :: sessions[id].server != server
        decreases pending
      {
        var id :| id in pending;
        if sessions[id].server == server {
          return sessions[id];
        }
        pending := pending - {id};
      }
      return null;
    }

    /** `authorize`: a session's services for the key it was connected with, as
        long as it is ready and not closing; a wrong key learns nothing else. */
    method Authorize(id: string, key: string, digest: string -> string) returns (r: Authorized)
      requires Valid()
      ensures r.NotFound? <==> id !in sessions
      ensures r.InvalidKey? <==> id in sessions && digest(key) != sessions[id].keyDigest
      ensures r.Granted? <==>
                id in sessions && digest(key) == sessions[id].keyDigest
                && !sessions[id].closing && sessions[id].services.Some?
      ensures r.Granted? ==> r.session == sessions[id] && sessions[id].services == Some(r.services)
      ensures r.SessionClosing? ==> sessions[id].closing
      ensures r.NotReady? ==> !sessions[id].closing && sessions[id].services.None?
    {
      if id !in sessions {
        return NotFound;
      }
      var session := sessions[id];
      if digest(key) != session.keyDigest {
        return InvalidKey;
      }
      if session.closing {
        return SessionClosing;
      }
      match session.services {
        case None => return NotReady;
        case Some(services) => return Granted(session, services);
      }
    }

    /** `_close` up to its suspension. */
    method BeginClosing(session: RemoteSession)
      modifies session`closing, session`shutdowns, session`stage
      ensures session.View() == W.Closing(old(session.View()))
    {
      if session.shutdowns == 0 {
        session.closing, session.shutdowns, session.stage := true, 1, W.Scheduled;
      }
    }

    /** `connect` from its owner check to its next suspension: no suspension
        separates the checks from the registration. */
    method Check(server: W.Server, id: string, keyDigest: string) returns (r: Connected)
      requires Valid() && id !in sessions
      modifies this`sessions, sessions.Values
      ensures Valid() && closed == old(closed)
      ensures r.Wait? || r.AlreadyConnected? ==>
                r.owner.id in old(sessions) && r.owner.server == server && sessions == old(sessions)
      ensures forall o | o in old(sessions.Values) ::
                o.View() == if r.Wait? && r.owner == o then W.Closing(old(o.View())) else old(o.View())
      ensures forall o | o in old(sessions.Values) ::
                (r.Wait? && r.owner == o ==> old(o.closing)) && (r.AlreadyConnected? && r.owner == o ==> !old(o.closing))
      ensures r.Refused? || r.Starting? ==> forall i | i in old(sessions) :: old(sessions)[i].server != server
      ensures r.Refused? ==>
                && sessions == old(sessions) && (closed || |sessions| >= maxSessions)
                && r.why == if closed then ServerClosing else LimitReached
      ensures r.Starting? ==>
                && !closed && |old(sessions)| < maxSessions
                && fresh(r.session) && r.session.keyDigest == keyDigest && r.session.View() == W.NewSession(server)
                && sessions == old(sessions)[id := r.session]
    {
      var owner := Owner(server);
      if owner != null {
        assert owner in sessions.Values;
        if owner.closing {
          BeginClosing(owner);
          return Wait(owner);
        }
        return AlreadyConnected(owner);
      }
      var why := EnsureAccepting();
      if !why.Accepted? {
        return Refused(why);
      }
      var session := new RemoteSession(id, server, keyDigest);
      sessions := sessions[id := session];
      return Starting(session);
    }

    /** `_shutdown` up to its first suspension. */
    method BeginShutdown(session: RemoteSession)
      requires session.stage.Scheduled?
      modifies session`startCancel, session`stage, session`attempts
      ensures session.View() == W.ShutdownBegun(old(session.View()))
    {
      if session.start.Done() {
        Proceed(session);
      } else {
        session.startCancel, session.stage := true, W.AwaitStart;
      }
    }

    /** `_shutdown` from the end of the start task to its next suspension. */
    method Proceed(session: RemoteSession)
      modifies session`stage, session`attempts
      ensures session.View() == W.Proceed(old(session.View()))
    {
      if session.services.Some? {
        session.stage, session.attempts := W.ClosingTransfers, session.attempts + [W.CloseTransfers];
      } else {
        session.stage, session.attempts := W.ClosingMaster, session.attempts + [W.CloseMaster];
      }
    }

    method TransfersReturned(session: RemoteSession, ok: bool)
      requires session.stage.ClosingTransfers?
      modifies session`stage, session`attempts, session`raised, session`transfersRaised
      ensures session.View() == W.AfterTransfers(old(session.View()), ok)
    {
      session.stage, session.attempts := W.ClosingRunner, session.attempts + [W.CloseRunner];
      session.raised, session.transfersRaised := session.raised || !ok, !ok;
    }

    method RunnerReturned(session: RemoteSession, ok: bool)
      requires session.stage.ClosingRunner?
      modifies session`stage, session`attempts, session`raised
      ensures session.View() == W.AfterRunner(old(session.View()), ok)
    {
      session.stage, session.attempts := W.ClosingMaster, session.attempts + [W.CloseMaster];
      session.raised := session.raised || !ok;
    }

    /** The end of `_shutdown`: the session is dropped whatever was raised. */
    method MasterReturned(session: RemoteSession, ok: bool)
      requires Valid() && session.id in sessions && sessions[session.id] == session && session.stage.ClosingMaster?
      modifies this`sessions, session`stage, session`raised
      ensures Valid() && sessions == old(sessions) - {session.id}
      ensures session.View() == W.AfterMaster(old(session.View()), ok)
    {
      session.stage, session.raised := W.Gone, session.raised || !ok;
      sessions := sessions - {session.id};
    }

    /** The whole of `_shutdown`, given how the start task it may have to cancel
        ends, and what each close does: a close that raises does not keep the
        later ones from being tried, nor the session from being dropped. */
    method Shutdown(session: RemoteSession, ended: W.StartTask, served: Option<T.ManagerId>,
                    transfersOk: bool, runnerOk: bool, masterOk: bool)
      requires Valid() && session.id in sessions && sessions[session.id] == session
      requires session.stage.Scheduled? && session.attempts == []
      requires ended.Done() && (served.Some? <==> ended.Attached?)
      modifies this`sessions, session
      ensures Valid() && sessions == old(sessions) - {session.id}
      ensures session.stage.Gone?
      ensures session.startCancel == (old(session.startCancel) || !old(session.start).Done())
      ensures session.start == if old(session.start).Done() then old(session.start) else ended
      ensures session.services == if old(session.start).Done() then old(session.services) else served
      ensures session.attempts == if session.services.Some? then [W.CloseTransfers, W.CloseRunner, W.CloseMaster] else [W.CloseMaster]
      ensures session.raised == (old(session.raised) || !masterOk || (session.services.Some? && !(transfersOk && runnerOk)))
      ensures session.services.Some? ==> session.transfersRaised == !transfersOk
    {
      BeginShutdown(session);
      if session.stage.AwaitStart? {
        session.start, session.services := ended, served;
        Proceed(session);
      }
      CloseServices(session, transfersOk, runnerOk, masterOk);
    }

    /** `_shutdown` from its first close to its end. */
    method CloseServices(session: RemoteSession, transfersOk: bool, runnerOk: bool, masterOk: bool)
      requires Valid() && session.id in sessions && sessions[session.id] == session
      requires session.attempts == if session.services.Some? then [W.CloseTransfers] else [W.CloseMaster]
      requires if session.services.Some? then session.stage.ClosingTransfers? else session.stage.ClosingMaster?
      modifies this`sessions, session`stage, session`attempts, session`raised, session`transfersRaised
      ensures Valid() && sessions == old(sessions) - {session.id} && session.stage.Gone?
      ensures session.attempts == if session.services.Some? then [W.CloseTransfers, W.CloseRunner, W.CloseMaster] else [W.CloseMaster]
      ensures session.raised == (old(session.raised) || !masterOk || (session.services.Some? && !(transfersOk && runnerOk)))
      ensures session.services.Some? ==> session.transfersRaised == !transfersOk
    {
      if session.services.Some? {
        TransfersReturned(session, transfersOk);
        RunnerReturned(session, runnerOk);
      }
      MasterReturned(session, masterOk);
    }

    /** `close` up to its suspension: the sessions it will close. */
    method BeginClose() returns (waiting: set<RemoteSession>)
      modifies this`closed
      ensures closed && waiting == sessions.Values
    {
      closed := true;
      waiting := set s | s in sessions.Values;
    }
  }
}
