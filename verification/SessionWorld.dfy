/** Sessions of one server process as a transition system, with the transfers of
    all of them inside it (remote_ssh_mcp/sessions.py). An event is one stretch
    of source between suspension points; a run is any sequence of events. */
module SessionWorld {
  import opened Options
  import T = TransferWorld

  datatype Server = Server(host: string, port: nat)

  /** The task that authenticates a session. */
  datatype StartTask = Queued | Authenticating | Attached | StartFailed | StartCancelled
  {
    predicate Done() { Attached? || StartFailed? || StartCancelled? }
  }

  /** The task that shuts a session down. */
  datatype Stage = NotClosing | Scheduled | AwaitStart | ClosingTransfers | ClosingRunner | ClosingMaster | Gone

  datatype Attempt = CloseTransfers | CloseRunner | CloseMaster

  datatype Session = Session(
    server: Server,
    start: StartTask,
    startCancel: bool,                 // `start.cancel()` was called
    services: Option<T.ManagerId>,     // attached services, by their transfer manager
    closing: bool,
    shutdowns: nat,                    // shutdown tasks ever created
    stage: Stage,
    attempts: seq<Attempt>,            // closes begun by the shutdown task, in order
    raised: bool,                      // some close raised
    transfersRaised: bool)

  /** A suspended `connect`. */
  datatype Connect =
    | Resolving
    | AwaitOwner(server: Server, owner: string)
    | AwaitReady(session: string)
    | Abandoning(session: string)

  datatype Config = Config(maxSessions: nat, transfers: T.Config)

  datatype World = World(
    sessions: map<string, Session>,    // every session object ever made
    registered: set<string>,
    auth: Option<string>,              // holder of the authentication lock
    closed: bool,
    homes: map<T.ManagerId, string>,   // which session a transfer manager serves
    connects: map<nat, Connect>,
    closers: map<nat, set<string>>,    // suspended `close` calls and the sessions they wait for
    t: T.World)

  const INITIAL := World(map[], {}, None, false, map[], map[], map[], T.INITIAL)

  datatype Event =
    | BeginConnect(call: nat)
    | Resolved(call: nat, server: Server, owner: Option<string>, id: string)
    | OwnerGone(call: nat, owner: Option<string>, id: string)
    | Authenticate(s: string)
    | Ready(s: string, m: T.ManagerId)
    | StartFails(s: string)
    | StartCancels(s: string)
    | ResumeConnect(call: nat)
    | CancelConnect(call: nat)
    | Disconnect(s: string)
    | ShutdownRuns(s: string)
    | TransfersClosed(s: string)
    | TransfersRaise(s: string)
    | RunnerClosed(s: string, ok: bool)
    | MasterClosed(s: string, ok: bool)
    | BeginClose(call: nat)
    | CloseOne(call: nat, s: string)
    | FinishClose(call: nat)
    | AbandonClose(call: nat)
    | Transfer(e: T.Event)

  /** `_ensure_accepting`. */
  predicate Accepting(closed: bool, registered: set<string>, maxSessions: nat) {
    !closed && |registered| < maxSessions
  }

  function NewSession(server: Server): Session {
    Session(server, Queued, false, None, false, 0, NotClosing, [], false, false)
  }

  /** `_close`, up to its suspension, on one session. */
  function Closing(s: Session): Session {
    if s.shutdowns == 0 then s.(closing := true, shutdowns := 1, stage := Scheduled) else s
  }

  function BeginClosing(w: World, id: string): World
    requires id in w.sessions
  {
    w.(sessions := w.sessions[id := Closing(w.sessions[id])])
  }

  /** `owner` is what `_owner` may answer. */
  predicate OwnerAnswer(w: World, server: Server, owner: Option<string>) {
    match owner
    case Some(o) => o in w.registered && o in w.sessions && w.sessions[o].server == server
    case None => forall o | o in w.registered && o in w.sessions :: w.sessions[o].server != server
  }

  /** `connect` from the owner check to its next suspension. Session ids are
      fresh random tokens. */
  function Check(cfg: Config, w: World, call: nat, server: Server, owner: Option<string>, id: string): Option<World> {
    if !OwnerAnswer(w, server, owner) || id in w.sessions then None
    else if owner.Some? then
      if w.sessions[owner.value].closing
      then Some(BeginClosing(w, owner.value).(connects := w.connects[call := AwaitOwner(server, owner.value)]))
      else Some(w.(connects := w.connects - {call}))
    else if !Accepting(w.closed, w.registered, cfg.maxSessions) then Some(w.(connects := w.connects - {call}))
    else Some(w.(sessions := w.sessions[id := NewSession(server)],
                 registered := w.registered + {id},
                 connects := w.connects[call := AwaitReady(id)]))
  }

  /** The shutdown task once the start task is done: it reads the services and
      begins to close them. */
  function Proceed(s: Session): Session {
    if s.services.Some? then s.(stage := ClosingTransfers, attempts := s.attempts + [CloseTransfers])
    else s.(stage := ClosingMaster, attempts := s.attempts + [CloseMaster])
  }

  /** `_shutdown` up to its first suspension. */
  function ShutdownBegun(s: Session): Session {
    if s.start.Done() then Proceed(s) else s.(startCancel := true, stage := AwaitStart)
  }

  /** The shutdown task after each of the closes it awaits returned or raised. */
  function AfterTransfers(s: Session, ok: bool): Session {
    s.(stage := ClosingRunner, attempts := s.attempts + [CloseRunner], raised := s.raised || !ok, transfersRaised := !ok)
  }

  function AfterRunner(s: Session, ok: bool): Session {
    s.(stage := ClosingMaster, attempts := s.attempts + [CloseMaster], raised := s.raised || !ok)
  }

  function AfterMaster(s: Session, ok: bool): Session {
    s.(stage := Gone, raised := s.raised || !ok)
  }

  function SetSession(w: World, id: string, s: Session): World {
    w.(sessions := w.sessions[id := s])
  }

  function Proceeded(w: World, id: string): Option<World>
    requires id in w.sessions
  {
    var s := w.sessions[id];
    if s.services.None? then Some(SetSession(w, id, Proceed(s)))
    else
      var t' := T.CloseBegun(w.t, s.services.value);
      if t'.None? then None else Some(SetSession(w, id, Proceed(s)).(t := t'.value))
  }

  function ShutdownRan(w: World, id: string): Option<World> {
    if id !in w.sessions then None
    else
      var s := w.sessions[id];
      if s.stage.Scheduled? then
        if s.start.Done() then Proceeded(w, id)
        else Some(SetSession(w, id, ShutdownBegun(s)))
      else if s.stage.AwaitStart? && s.start.Done() then Proceeded(w, id)
      else None
  }

  function TransfersDone(w: World, id: string, ok: bool): Option<World> {
    if id !in w.sessions || !w.sessions[id].stage.ClosingTransfers? || w.sessions[id].services.None? then None
    else
      var s := w.sessions[id];
      var m := s.services.value;
      var t' := if ok then T.CloseFinished(w.t, m) else T.CloseAbandoned(w.t, m);
      if t'.None? then None
      else Some(SetSession(w, id, AfterTransfers(s, ok)).(t := t'.value))
  }

  function RunnerDone(w: World, id: string, ok: bool): Option<World> {
    if id !in w.sessions || !w.sessions[id].stage.ClosingRunner? then None
    else Some(SetSession(w, id, AfterRunner(w.sessions[id], ok)))
  }

  function MasterDone(w: World, id: string, ok: bool): Option<World> {
    if id !in w.sessions || !w.sessions[id].stage.ClosingMaster? then None
    else Some(SetSession(w, id, AfterMaster(w.sessions[id], ok)).(registered := w.registered - {id}))
  }

  /** The start task has its turn with the authentication lock. */
  function Authenticated(w: World, id: string): Option<World> {
    if id !in w.sessions || !w.sessions[id].start.Queued? || w.sessions[id].startCancel || w.auth.Some? then None
    else Some(SetSession(w, id, w.sessions[id].(start := Authenticating)).(auth := Some(id)))
  }

  /** The master is ready: the lock is left and services attached without
      another suspension. */
  function MadeReady(w: World, id: string, m: T.ManagerId): Option<World> {
    if id !in w.sessions || !w.sessions[id].start.Authenticating? || w.sessions[id].startCancel then None
    else
      var t' := T.ManagerMade(w.t, m);
      if t'.None? then None
      else Some(SetSession(w, id, w.sessions[id].(start := Attached, services := Some(m)))
                .(auth := None, homes := w.homes[m := id], t := t'.value))
  }

  function StartEnded(w: World, id: string, how: StartTask): Option<World> {
    if id !in w.sessions then None
    else
      var s := w.sessions[id];
      if s.start.Authenticating? && (how.StartFailed? || (how.StartCancelled? && s.startCancel)) then
        Some(SetSession(w, id, s.(start := how)).(auth := None))
      else if s.start.Queued? && how.StartCancelled? && s.startCancel then
        Some(SetSession(w, id, s.(start := how)))
      else None
  }

  /** `connect` after its start task is done: the session is handed over, or
      closed. */
  function ConnectResumed(w: World, call: nat): Option<World> {
    if call !in w.connects || !w.connects[call].AwaitReady? then None
    else
      var id := w.connects[call].session;
      if id !in w.sessions || !w.sessions[id].start.Done() then None
      else if w.sessions[id].closing || !w.sessions[id].start.Attached? then
        Some(BeginClosing(w, id).(connects := w.connects[call := Abandoning(id)]))
      else Some(w.(connects := w.connects - {call}))
  }

  /** The caller of `connect` is cancelled, or the session it gave up is gone. */
  function ConnectCancelled(w: World, call: nat): Option<World> {
    if call !in w.connects then None
    else if w.connects[call].AwaitReady? && w.connects[call].session in w.sessions then
      Some(BeginClosing(w, w.connects[call].session).(connects := w.connects[call := Abandoning(w.connects[call].session)]))
    else Some(w.(connects := w.connects - {call}))
  }

  function CloseFinished(w: World, call: nat): Option<World> {
    if call !in w.closers || exists s :: s in w.closers[call] && s in w.sessions && !w.sessions[s].stage.Gone? then None
    else Some(w.(closers := w.closers - {call}))
  }

  /** A `close` that returns instead of raising what a shutdown raised. */
  predicate ReturnsNormally(w: World, call: nat)
    requires call in w.closers
  {
    forall s | s in w.closers[call] && s in w.sessions :: !w.sessions[s].raised
  }

  function Next(cfg: Config, w: World, e: Event): Option<World> {
    match e
    case BeginConnect(call) =>
      if call in w.connects || !Accepting(w.closed, w.registered, cfg.maxSessions) then None
      else Some(w.(connects := w.connects[call := Resolving]))
    case Resolved(call, server, owner, id) =>
      if call !in w.connects || !w.connects[call].Resolving? then None
      else Check(cfg, w, call, server, owner, id)
    case OwnerGone(call, owner, id) =>
      if call !in w.connects || !w.connects[call].AwaitOwner? || w.connects[call].owner !in w.sessions
         || !w.sessions[w.connects[call].owner].stage.Gone? then None
      else if w.sessions[w.connects[call].owner].raised then Some(w.(connects := w.connects - {call}))
      else Check(cfg, w, call, w.connects[call].server, owner, id)
    case Authenticate(s) => Authenticated(w, s)
    case Ready(s, m) => MadeReady(w, s, m)
    case StartFails(s) => StartEnded(w, s, StartFailed)
    case StartCancels(s) => StartEnded(w, s, StartCancelled)
    case ResumeConnect(call) => ConnectResumed(w, call)
    case CancelConnect(call) => ConnectCancelled(w, call)
    case Disconnect(s) => if s in w.registered && s in w.sessions then Some(BeginClosing(w, s)) else None
    case ShutdownRuns(s) => ShutdownRan(w, s)
    case TransfersClosed(s) => TransfersDone(w, s, true)
    case TransfersRaise(s) => TransfersDone(w, s, false)
    case RunnerClosed(s, ok) => RunnerDone(w, s, ok)
    case MasterClosed(s, ok) => MasterDone(w, s, ok)
    case BeginClose(call) =>
      if call in w.closers then None else Some(w.(closed := true, closers := w.closers[call := w.registered]))
    case CloseOne(call, s) =>
      if call in w.closers && s in w.closers[call] && s in w.sessions then Some(BeginClosing(w, s)) else None
    case FinishClose(call) => CloseFinished(w, call)
    case AbandonClose(call) => if call in w.closers then Some(w.(closers := w.closers - {call})) else None
    case Transfer(te) =>
      if te.NewManager? || te.BeginClose? || te.FinishClose? || te.AbandonClose? then None
      else
        var t' := T.Next(cfg.transfers, w.t, te);
        if t'.None? then None else Some(w.(t := t'.value))
  }

  ghost predicate Follows(cfg: Config, ws: seq<World>, es: seq<Event>, i: nat)
    requires |ws| == |es| + 1 && i < |es|
  {
    Next(cfg, ws[i], es[i]) == Some(ws[i + 1])
  }

  ghost predicate IsRun(cfg: Config, ws: seq<World>, es: seq<Event>) {
    && |ws| == |es| + 1
    && ws[0] == INITIAL
    && forall i | 0 <= i < |es| :: Follows(cfg, ws, es, i)
  }
}
