/** What holds in every reachable state of SessionWorld, and how a session may
    change. */
module SessionInvariant {
  import opened Options
  import opened SessionWorld
  import T = TransferWorld
  import TI = TransferInvariant

  function StageRank(s: Stage): nat {
    match s
    case NotClosing => 0
    case Scheduled => 1
    case AwaitStart => 2
    case ClosingTransfers => 3
    case ClosingRunner => 4
    case ClosingMaster => 5
    case Gone => 6
  }

  /** The closes a shutdown has begun when it is at `stage`. */
  function Begun(stage: Stage, services: bool): seq<Attempt> {
    match stage
    case ClosingTransfers => [CloseTransfers]
    case ClosingRunner => [CloseTransfers, CloseRunner]
    case ClosingMaster => if services then [CloseTransfers, CloseRunner, CloseMaster] else [CloseMaster]
    case Gone => if services then [CloseTransfers, CloseRunner, CloseMaster] else [CloseMaster]
    case _ => []
  }

  predicate SessionOk(s: Session) {
    && s.shutdowns == (if s.closing then 1 else 0)
    && (s.closing <==> !s.stage.NotClosing?)
    && (StageRank(s.stage) >= 3 ==> s.start.Done())
    && (s.services.Some? <==> s.start.Attached?)
    && (s.startCancel ==> StageRank(s.stage) >= 2)
    && (s.stage.AwaitStart? ==> s.startCancel)
    && s.attempts == Begun(s.stage, s.services.Some?)
    && (s.stage.ClosingTransfers? || s.stage.ClosingRunner? ==> s.services.Some?)
    && (s.transfersRaised ==> s.raised && s.services.Some?)
    && (s.raised ==> StageRank(s.stage) >= 4)
  }

  /** How one session may change in a step. Once gone it never changes. */
  predicate SessionEvolves(a: Session, b: Session) {
    && b.server == a.server
    && (a.start.Done() ==> b.start == a.start)
    && (a.services.Some? ==> b.services == a.services)
    && (a.closing ==> b.closing)
    && a.shutdowns <= b.shutdowns
    && StageRank(a.stage) <= StageRank(b.stage)
    && a.attempts <= b.attempts
    && (a.raised ==> b.raised)
    && (a.stage.Gone? ==> b == a)
  }

  ghost predicate AllEvolve(w: World, w': World) {
    && w.sessions.Keys <= w'.sessions.Keys
    && forall id | id in w.sessions :: SessionEvolves(w.sessions[id], w'.sessions[id])
  }

  ghost predicate SessionsOk(w: World) {
    && w.registered <= w.sessions.Keys
    && forall id | id in w.sessions :: SessionOk(w.sessions[id]) && (id in w.registered <==> !w.sessions[id].stage.Gone?)
  }

  ghost predicate Unique(w: World)
    requires w.registered <= w.sessions.Keys
  {
    forall a, b | a in w.registered && b in w.registered && a != b :: w.sessions[a].server != w.sessions[b].server
  }

  /** The lock is held by the one session inside its master's start. */
  ghost predicate AuthOk(w: World) {
    && (w.auth.Some? ==> w.auth.value in w.sessions)
    && forall id | id in w.sessions :: w.sessions[id].start.Authenticating? <==> w.auth == Some(id)
  }

  predicate PhaseFits(s: Session, p: T.Phase) {
    match s.stage
    case ClosingTransfers => p.Closing?
    case ClosingRunner => p == (if s.transfersRaised then T.Abandoned else T.Closed)
    case ClosingMaster => p == (if s.transfersRaised then T.Abandoned else T.Closed)
    case Gone => p == (if s.transfersRaised then T.Abandoned else T.Closed)
    case _ => p.Open?
  }

  /** Every transfer manager serves exactly the session that owns it, and is as
      far closed as that session's shutdown. */
  ghost predicate HomesOk(w: World) {
    && w.homes.Keys == w.t.managers.Keys
    && (forall id | id in w.sessions && w.sessions[id].services.Some? ::
          w.sessions[id].services.value in w.homes && w.homes[w.sessions[id].services.value] == id)
    && (forall m | m in w.homes :: HomeFits(w, m))
  }

  ghost predicate HomeFits(w: World, m: T.ManagerId)
    requires m in w.homes && w.homes.Keys == w.t.managers.Keys
  {
    && w.homes[m] in w.sessions
    && w.sessions[w.homes[m]].services == Some(m)
    && PhaseFits(w.sessions[w.homes[m]], w.t.managers[m])
  }

  predicate ConnectFits(w: World, c: Connect) {
    match c
    case Resolving => true
    case AwaitOwner(server, owner) => owner in w.sessions && w.sessions[owner].closing
    case AwaitReady(id) => id in w.sessions
    case Abandoning(id) => id in w.sessions && w.sessions[id].closing
  }

  ghost predicate ConnectsOk(w: World) {
    forall c | c in w.connects :: ConnectFits(w, w.connects[c])
  }

  /** A suspended `close` waits for every session still registered. */
  ghost predicate ClosersOk(w: World) {
    forall c | c in w.closers :: w.closed && w.registered <= w.closers[c] <= w.sessions.Keys
  }

  ghost predicate Inv(cfg: Config, w: World) {
    && SessionsOk(w)
    && Unique(w)
    && |w.registered| <= cfg.maxSessions
    && AuthOk(w)
    && HomesOk(w)
    && TI.Inv(cfg.transfers, w.t)
    && ConnectsOk(w)
    && ClosersOk(w)
  }

  /** At most session `id` differs. */
  ghost predicate OnlyChanges(w: World, id: string, w': World) {
    && id in w.sessions
    && w'.sessions.Keys == w.sessions.Keys
    && (forall i | i in w.sessions && i != id :: w'.sessions[i] == w.sessions[i])
  }

  /** `w'` is `w` with one session changed, and unregistered if it is now gone. */
  ghost predicate Updates(w: World, id: string, w': World) {
    && OnlyChanges(w, id, w')
    && SessionOk(w'.sessions[id])
    && SessionEvolves(w.sessions[id], w'.sessions[id])
    && w'.registered == (if w'.sessions[id].stage.Gone? then w.registered - {id} else w.registered)
  }

  lemma UpdateKeepsSessions(cfg: Config, w: World, id: string, w': World)
    requires Inv(cfg, w) && Updates(w, id, w')
    ensures SessionsOk(w') && Unique(w') && |w'.registered| <= cfg.maxSessions
    ensures AllEvolve(w, w')
  {
    TI.SubsetSize(w'.registered, w.registered);
    forall i | i in w'.sessions
      ensures SessionOk(w'.sessions[i]) && (i in w'.registered <==> !w'.sessions[i].stage.Gone?)
      ensures SessionEvolves(w.sessions[i], w'.sessions[i])
    {
      assert SessionOk(w.sessions[i]);
    }
    forall a, b | a in w'.registered && b in w'.registered && a != b
      ensures w'.sessions[a].server != w'.sessions[b].server
    {
      assert w.sessions[a].server != w.sessions[b].server;
      assert SessionEvolves(w.sessions[a], w'.sessions[a]) && SessionEvolves(w.sessions[b], w'.sessions[b]);
    }
  }

  /** Waiting callers are not disturbed by progress. */
  lemma CallersKeep(w: World, w': World)
    requires ConnectsOk(w) && ClosersOk(w) && AllEvolve(w, w')
    requires w'.registered <= w.registered
    requires w'.closers.Items <= w.closers.Items && w'.closed == w.closed
    requires forall c | c in w'.connects :: ConnectFits(w', w'.connects[c]) || (c, w'.connects[c]) in w.connects.Items
    ensures ConnectsOk(w') && ClosersOk(w')
  {
    forall c | c in w'.connects ensures ConnectFits(w', w'.connects[c]) {
      if (c, w'.connects[c]) in w.connects.Items {
        ConnectStays(w, w', w.connects[c]);
      }
    }
    forall c | c in w'.closers ensures w'.closed && w'.registered <= w'.closers[c] <= w'.sessions.Keys {
      assert (c, w'.closers[c]) in w.closers.Items;
    }
  }

  lemma ConnectStays(w: World, w': World, c: Connect)
    requires ConnectFits(w, c) && AllEvolve(w, w')
    ensures ConnectFits(w', c)
  {
    if c.AwaitOwner? {
      assert SessionEvolves(w.sessions[c.owner], w'.sessions[c.owner]);
    } else if c.Abandoning? {
      assert SessionEvolves(w.sessions[c.session], w'.sessions[c.session]);
    }
  }

  /** The lock stays with its holder if no start task enters or leaves. */
  lemma AuthKeeps(w: World, id: string, w': World)
    requires AuthOk(w) && OnlyChanges(w, id, w') && w'.auth == w.auth
    requires w'.sessions[id].start.Authenticating? <==> w.sessions[id].start.Authenticating?
    ensures AuthOk(w')
  {
  }

  /** Managers stay at home while the one session that changes keeps its own. */
  lemma HomesKeep(w: World, id: string, w': World)
    requires HomesOk(w) && OnlyChanges(w, id, w') && w'.homes == w.homes
    requires w'.sessions[id].services == w.sessions[id].services
    requires w'.t.managers.Keys == w.t.managers.Keys
    requires forall m | m in w.homes && w.homes[m] != id :: w'.t.managers[m] == w.t.managers[m]
    requires forall m | m in w.homes && w.homes[m] == id && w.sessions[id].services == Some(m) ::
               PhaseFits(w'.sessions[id], w'.t.managers[m])
    ensures HomesOk(w')
  {
    hide PhaseFits;
    forall m | m in w'.homes ensures HomeFits(w', m) {
      assert HomeFits(w, m);
    }
  }

  /** Managers stay at home while no session changes its services or its stage. */
  lemma HomesStay(w: World, w': World)
    requires HomesOk(w) && w.sessions.Keys <= w'.sessions.Keys
    requires forall i | i in w.sessions :: SameServices(w.sessions[i], w'.sessions[i])
    requires forall i | i in w'.sessions && i !in w.sessions :: w'.sessions[i].services.None?
    requires w'.homes == w.homes && w'.t.managers == w.t.managers
    ensures HomesOk(w')
  {
    forall m | m in w'.homes ensures HomeFits(w', m) {
      assert HomeFits(w, m);
    }
  }

  predicate SameServices(a: Session, b: Session) {
    b.services == a.services && b.stage == a.stage && b.transfersRaised == a.transfersRaised
  }

  /** A new manager moves in with a session that had none. */
  lemma HomesAdd(w: World, id: string, m: T.ManagerId, w': World)
    requires HomesOk(w) && OnlyChanges(w, id, w') && m !in w.t.managers
    requires w.sessions[id].services.None? && w'.sessions[id].services == Some(m)
    requires w'.homes == w.homes[m := id] && w'.t.managers == w.t.managers[m := T.Open]
    requires PhaseFits(w'.sessions[id], T.Open)
    ensures HomesOk(w')
  {
    hide PhaseFits;
    forall i | i in w'.homes ensures HomeFits(w', i) {
      if i != m {
        assert HomeFits(w, i);
      }
    }
  }

  /** The session's manager is as far closed as the session now is. */
  predicate PhaseMoves(w: World, id: string, w': World)
    requires id in w'.sessions
  {
    var services := w'.sessions[id].services;
    services.Some? && services.value in w.t.managers ==> PhaseFits(w'.sessions[id], w.t.managers[services.value])
  }

  /** A change of one session that concerns neither the lock nor its services. */
  lemma UpdateKeeps(cfg: Config, w: World, id: string, w': World)
    requires Inv(cfg, w) && Updates(w, id, w')
    requires w'.sessions[id].start == w.sessions[id].start || !w.sessions[id].start.Authenticating?
    requires !w'.sessions[id].start.Authenticating? || w.sessions[id].start.Authenticating?
    requires w'.sessions[id].services == w.sessions[id].services
    requires PhaseMoves(w, id, w')
    requires w'.auth == w.auth && w'.homes == w.homes && w'.t == w.t
    requires w'.closers == w.closers && w'.closed == w.closed
    requires forall c | c in w'.connects :: ConnectFits(w', w'.connects[c]) || (c, w'.connects[c]) in w.connects.Items
    ensures Inv(cfg, w') && AllEvolve(w, w')
  {
    hide TI.Inv, SessionOk, SessionEvolves, AllEvolve, PhaseFits, HomeFits, ConnectFits;
    UpdateKeepsSessions(cfg, w, id, w');
    CallersKeep(w, w');
    AuthKeeps(w, id, w');
    HomesKeep(w, id, w');
  }

  lemma ListedOk(w: World, id: string)
    requires SessionsOk(w) && id in w.sessions
    ensures SessionOk(w.sessions[id]) && (id in w.registered <==> !w.sessions[id].stage.Gone?)
  {
  }

  lemma ServedFits(w: World, id: string)
    requires HomesOk(w) && id in w.sessions && w.sessions[id].services.Some?
    ensures var m := w.sessions[id].services.value;
            m in w.t.managers && m in w.homes && w.homes[m] == id && PhaseFits(w.sessions[id], w.t.managers[m])
  {
    hide PhaseFits;
    assert HomeFits(w, w.sessions[id].services.value);
  }

  /** The same session further on, its manager as far closed as before. */
  ghost predicate GoesOn(a: Session, b: Session) {
    && SessionOk(b) && SessionEvolves(a, b)
    && b.start == a.start && b.services == a.services
    && (b.services.Some? ==> forall p :: PhaseFits(a, p) ==> PhaseFits(b, p))
  }

  lemma SetSessionKeeps(cfg: Config, w: World, id: string, s: Session)
    requires Inv(cfg, w) && id in w.sessions && GoesOn(w.sessions[id], s)
    requires !w.sessions[id].stage.Gone? && !s.stage.Gone?
    ensures Inv(cfg, SetSession(w, id, s)) && AllEvolve(w, SetSession(w, id, s))
  {
    hide TI.Inv, SessionOk, SessionEvolves, AllEvolve, SessionsOk, Unique, AuthOk, ConnectsOk, ClosersOk, HomesOk, PhaseFits;
    ListedOk(w, id);
    if s.services.Some? {
      ServedFits(w, id);
    }
    UpdateKeeps(cfg, w, id, SetSession(w, id, s));
  }

  lemma ClosingMoves(s: Session)
    requires SessionOk(s)
    ensures GoesOn(s, Closing(s)) && Closing(s).closing && (Closing(s).stage.Gone? <==> s.stage.Gone?)
  {
  }

  /** `_close` by anybody, together with what the caller then waits for. */
  lemma BeginClosingKeeps(cfg: Config, w: World, id: string, w': World)
    requires Inv(cfg, w) && id in w.sessions
    requires w' == BeginClosing(w, id).(connects := w'.connects)
    requires forall c | c in w'.connects ::
               w'.connects[c] == Abandoning(id) || (w'.connects[c].AwaitOwner? && w'.connects[c].owner == id)
               || (c, w'.connects[c]) in w.connects.Items
    ensures Inv(cfg, w') && AllEvolve(w, w') && w'.sessions[id].closing
  {
    hide TI.Inv, SessionOk, SessionEvolves, AllEvolve, SessionsOk, Unique, AuthOk, ConnectsOk, ClosersOk, HomesOk, PhaseFits, Closing;
    ListedOk(w, id);
    ClosingMoves(w.sessions[id]);
    if w.sessions[id].services.Some? {
      ServedFits(w, id);
    }
    UpdateKeeps(cfg, w, id, w');
  }
}
