/** All transfer managers of one process as a transition system. An event is one
    uninterrupted stretch of source between suspension points
    (remote_ssh_mcp/transfers.py), one act of a child process or worker thread,
    or a change made by somebody else. A run is any sequence of enabled events,
    so every interleaving and every cancellation point is covered. */
module TransferWorld {
  import opened Options
  import opened PartialNames
  import R = TransferRecords

  type Content = string
  type ManagerId = nat

  /** What a destination path names. */
  datatype Node = File(content: Content) | Directory | LinkToDirectory | OtherLink

  /** Where the task of an operation stands: the suspension point it waits at. */
  datatype Point =
    | Created            // scheduled, first statement not run
    | StatSource
    | FreeSpace          // downloads
    | CheckDestination   // uploads that must not overwrite
    | PreparePartial     // uploads
    | HashSource
    | ReadyMaster        // the master's check and the spawn of rsync
    | Copying            // rsync
    | Terminating        // killing rsync after a cancellation
    | HashPartial
    | Publishing         // uploads: the remote publication script
    | Done

  datatype Operation = Operation(
    manager: ManagerId,
    ends: Endpoints,
    overwrite: bool,
    rec: R.Record,
    at: Point,
    cancelRequested: bool,
    rsyncAlive: bool,
    rsyncOk: bool,
    recancelled: bool,            // cancelled a second time while killing rsync
    sourceHash: Option<string>,
    partialHash: Option<string>,
    scriptOk: Option<bool>,       // the publication script's exit status
    published: Option<Content>,   // what this operation put at its destination
    linkedInside: bool,           // `ln` found a directory at the destination
    tainted: bool)                // another operation's rsync wrote the partial

  /** `close` of one manager. */
  datatype Phase = Open | Closing(waiting: set<string>) | Closed | Abandoned

  datatype Config = Config(
    maxTransfers: nat,
    ttl: nat,
    token: string -> string,
    digest: Content -> string)

  datatype World = World(
    ops: map<string, Operation>,        // every operation object ever made
    registered: set<string>,            // ids in their manager's dictionary
    claimed: set<string>,
    managers: map<ManagerId, Phase>,
    partials: map<PartialFile, Content>,
    nodes: map<string, Node>,           // destinations, by reservation key
    calls: map<nat, string>,            // suspended `cancel` calls
    reports: map<nat, R.State>,         // what finished `cancel` calls returned
    clock: nat)

  const INITIAL := World(map[], {}, {}, map[], map[], map[], map[], map[], 0)

  /** What one resumption of a task, or one act of its child, is told. */
  datatype BodyEvent =
    | Begin
    | Stated(trim: bool)
    | SpaceFound
    | DestinationAbsent
    | Prepared(trim: bool)
    | SourceHashed(hash: string)
    | Spawned
    | RsyncWrote(content: Content)
    | RsyncExited(ok: bool)
    | Copied
    | PartialHashed
    | DownloadChecked(raced: Option<Node>, ioOk: bool, unlinkOk: bool)
    | UploadChecked
    | ScriptRan(acts: bool, reports: bool)
    | ScriptReturned
    | Raised
    | CancelDelivered
    | Terminated

  datatype Event =
    | NewManager(m: ManagerId)
    | Start(m: ManagerId, id: string, ends: Endpoints, overwrite: bool)
    | Body(id: string, b: BodyEvent)
    | Prune(m: ManagerId)
    | BeginCancel(call: nat, m: ManagerId, id: string)
    | FinishCancel(call: nat)
    | AbandonCancel(call: nat)
    | BeginClose(m: ManagerId)
    | FinishCloseOne(m: ManagerId, id: string)
    | FinishClose(m: ManagerId)
    | AbandonClose(m: ManagerId)
    | Elsewhere(key: string, node: Option<Node>)
    | Tick

  /** What a body event does: to its own operation, to its state, to its
      partial and to its destination. */
  datatype Effect = Effect(
    op: Operation,
    state: Option<R.State>,
    partial: Option<Content>,
    node: Option<Node>)

  function SetNode(nodes: map<string, Node>, key: string, n: Option<Node>): map<string, Node> {
    match n
    case None => nodes - {key}
    case Some(v) => nodes[key := v]
  }

  function SetPartial(partials: map<PartialFile, Content>, p: PartialFile, c: Option<Content>): map<PartialFile, Content> {
    match c
    case None => partials - {p}
    case Some(v) => partials[p := v]
  }

  function Lookup<K, V>(m: map<K, V>, k: K): Option<V> {
    if k in m then Some(m[k]) else None
  }

  /** Publishing a verified download, in one stretch with the comparison.
      `raced` is what somebody else may have created at a free destination after
      it was checked and before it is written. */
  function PublishDownload(op: Operation, content: Content, node: Option<Node>,
                           raced: Option<Node>, ioOk: bool, unlinkOk: bool): Effect
  {
    var after := if node.None? then raced else node;
    var refused := Effect(op.(at := Done), Some(R.Failed), Some(content), after);
    var done := op.(at := Done, published := Some(content));
    // resolve_destination
    if node.Some? && (node.value.LinkToDirectory? || node.value.OtherLink?) then refused
    else if node.Some? && !op.overwrite then refused
    else if node == Some(Directory) then refused
    else if !ioOk then refused
    else if op.overwrite then
      // os.replace
      if after == Some(Directory) then refused
      else Effect(done, Some(R.Completed), None, Some(File(content)))
    else
      // os.link, then unlink
      if after.Some? then refused
      else if !unlinkOk then Effect(done, Some(R.Failed), Some(content), Some(File(content)))
      else Effect(done, Some(R.Completed), None, Some(File(content)))
  }

  /** The remote publication script, run to its end on the remote host. */
  function RunScript(op: Operation, content: Content, node: Option<Node>, reports: bool): Effect {
    var done := op.(scriptOk := Some(reports), published := Some(content));
    var failed := op.(scriptOk := Some(false));
    if op.overwrite then
      // mv -fT
      if node == Some(Directory) then Effect(failed, None, Some(content), node)
      else Effect(done, None, None, Some(File(content)))
    else if node.None? then Effect(done, None, None, Some(File(content)))
    else if node.value.Directory? || node.value.LinkToDirectory? then
      // ln without -T names the directory's entry, not the destination
      Effect(op.(scriptOk := Some(reports), linkedInside := true), None, None, node)
    else Effect(failed, None, None, node)
  }

  /** What a child process, worker thread or remote script of the operation
      does by itself, whatever its task is doing. */
  function ChildActs(cfg: Config, op: Operation, b: BodyEvent, partial: Option<Content>, node: Option<Node>): Option<Effect> {
    match b
    case RsyncWrote(c) =>
      if op.rsyncAlive then Some(Effect(op, None, Some(c), node)) else None
    case RsyncExited(ok) =>
      if op.rsyncAlive then Some(Effect(op.(rsyncAlive := false, rsyncOk := ok), None, partial, node)) else None
    case PartialHashed =>
      if op.at.HashPartial? && op.partialHash.None? && partial.Some?
      then Some(Effect(op.(partialHash := Some(cfg.digest(partial.value))), None, partial, node)) else None
    case ScriptRan(acts, reports) =>
      if !(op.at.Publishing? && op.scriptOk.None?) then None
      else if acts && partial.Some? then Some(RunScript(op, partial.value, node, reports))
      else Some(Effect(op.(scriptOk := Some(false)), None, partial, node))
    case _ => None
  }

  /** CancelledError raised at the point the task waits at. */
  function Cancel(op: Operation, partial: Option<Content>, node: Option<Node>): Option<Effect> {
    if !op.cancelRequested || op.at.Done? then None
    else if op.at.Created? then Some(Effect(op.(at := Done), None, partial, node))   // the body never runs
    else if op.at.Copying? && op.rsyncAlive then
      Some(Effect(op.(at := Terminating, cancelRequested := false), None, partial, node))
    else
      Some(Effect(op.(at := Done, recancelled := op.at.Terminating? && op.rsyncAlive), Some(R.Cancelled), partial, node))
  }

  /** The task goes on from the point it waits at, up to the copy. */
  function Prepare(op: Operation, b: BodyEvent, partial: Option<Content>, node: Option<Node>): Option<Effect> {
    var download := op.ends.direction.Download?;
    match b
    case Begin =>
      if op.at.Created? then Some(Effect(op.(at := StatSource), Some(R.Running), partial, node)) else None
    case Stated(trim) =>
      if !op.at.StatSource? then None
      else if download then Some(Effect(op.(at := FreeSpace), None, if trim then None else partial, node))
      else Some(Effect(op.(at := if op.overwrite then PreparePartial else CheckDestination), None, partial, node))
    case SpaceFound =>
      if op.at.FreeSpace? then Some(Effect(op.(at := ReadyMaster), None, partial, node)) else None
    case DestinationAbsent =>
      if op.at.CheckDestination? then Some(Effect(op.(at := PreparePartial), None, partial, node)) else None
    case Prepared(trim) =>
      if op.at.PreparePartial? then Some(Effect(op.(at := HashSource), None, if trim then None else partial, node)) else None
    case SourceHashed(h) =>
      if op.at.HashSource?
      then Some(Effect(op.(sourceHash := Some(h), at := if download then HashPartial else ReadyMaster), None, partial, node))
      else None
    case Spawned =>
      if op.at.ReadyMaster?
      then Some(Effect(op.(at := Copying, rsyncAlive := true, rsyncOk := false), None, partial, node)) else None
    case _ => None
  }

  /** The task goes on after the copy, or fails. */
  function Conclude(op: Operation, b: BodyEvent, partial: Option<Content>, node: Option<Node>): Option<Effect> {
    var download := op.ends.direction.Download?;
    var verified := op.at.HashPartial? && op.partialHash.Some? && op.sourceHash.Some?;
    var failed := Effect(op.(at := Done), Some(R.Failed), partial, node);
    match b
    case Copied =>
      if op.at.Copying? && !op.rsyncAlive && op.rsyncOk && (download ==> partial.Some?)
      then Some(Effect(op.(at := if download then HashSource else HashPartial), Some(R.Verifying), partial, node))
      else None
    case DownloadChecked(raced, ioOk, unlinkOk) =>
      if !(download && verified && partial.Some?) then None
      else if op.partialHash != op.sourceHash then Some(failed)
      else Some(PublishDownload(op, partial.value, node, raced, ioOk, unlinkOk))
    case UploadChecked =>
      if download || !verified then None
      else if op.partialHash != op.sourceHash then Some(failed)
      else Some(Effect(op.(at := Publishing), None, partial, node))
    case ScriptReturned =>
      if !(op.at.Publishing? && op.scriptOk.Some?) then None
      else Some(Effect(op.(at := Done), Some(if op.scriptOk.value then R.Completed else R.Failed), partial, node))
    case Raised =>
      if op.at.Created? || op.at.Done? || op.at.Terminating? || (op.at.Copying? && op.rsyncAlive) then None
      else Some(failed)
    case Terminated =>
      if op.at.Terminating? && !op.rsyncAlive
      then Some(Effect(op.(at := Done), Some(R.Cancelled), partial, node)) else None
    case _ => None
  }

  /** One body event, when it can happen. After `task.cancel()` the next
      resumption raises CancelledError, so nothing else resumes the task. */
  function BodyEffect(cfg: Config, op: Operation, b: BodyEvent, partial: Option<Content>, node: Option<Node>): Option<Effect> {
    if b.RsyncWrote? || b.RsyncExited? || b.PartialHashed? || b.ScriptRan? then ChildActs(cfg, op, b, partial, node)
    else if b.CancelDelivered? then Cancel(op, partial, node)
    else if op.cancelRequested then None
    else if Prepare(op, b, partial, node).Some? then Prepare(op, b, partial, node)
    else Conclude(op, b, partial, node)
  }

  /** What the partial file of an operation holds. */
  function PartialOf(cfg: Config, w: World, op: Operation): Option<Content> {
    Lookup(w.partials, PartialName(cfg.token, op.ends))
  }

  /** The dictionary of one manager. */
  function Records(w: World, m: ManagerId): map<string, R.Record> {
    map id | id in w.registered && id in w.ops && w.ops[id].manager == m :: w.ops[id].rec
  }

  /** `_set_state` on one operation. */
  function SetState(w: World, id: string, s: R.State): World
    requires id in w.ops
  {
    var r := R.SetState(w.ops[id].rec, w.claimed, s, w.clock);
    w.(ops := w.ops[id := w.ops[id].(rec := r.0)], claimed := r.1)
  }

  /** The unfinished operations other than `writer` that rely on the file `p`. */
  function Sharing(cfg: Config, ops: map<string, Operation>, writer: string, p: PartialFile): set<string> {
    set id | id in ops && id != writer && !ops[id].rec.state.Final() && PartialName(cfg.token, ops[id].ends) == p
  }

  function Taint(ops: map<string, Operation>, ids: set<string>): map<string, Operation> {
    map id | id in ops :: if id in ids then ops[id].(tainted := true) else ops[id]
  }

  /** Carry out an effect of operation `id`, whose partial is `p`. */
  function Place(w: World, id: string, p: PartialFile, e: Effect, tainted: set<string>): World
    requires id in w.ops
  {
    var r := if e.state.Some? then R.SetState(e.op.rec, w.claimed, e.state.value, w.clock) else (e.op.rec, w.claimed);
    w.(ops := Taint(w.ops, tainted)[id := e.op.(rec := r.0)],
       claimed := r.1,
       partials := SetPartial(w.partials, p, e.partial),
       nodes := SetNode(w.nodes, w.ops[id].rec.key, e.node))
  }

  /** A write by an rsync marks every other operation that relies on its file. */
  function Settle(cfg: Config, w: World, id: string, b: BodyEvent, e: Effect): World
    requires id in w.ops
  {
    var p := PartialName(cfg.token, w.ops[id].ends);
    Place(w, id, p, e, if b.RsyncWrote? then Sharing(cfg, w.ops, id, p) else {})
  }

  function NewOperation(m: ManagerId, ends: Endpoints, overwrite: bool, rec: R.Record): Operation {
    Operation(m, ends, overwrite, rec, Created, false, false, false, false, None, None, None, None, false, false)
  }

  function RequestCancel(ops: map<string, Operation>, ids: set<string>): map<string, Operation> {
    map id | id in ops :: if id in ids && !ops[id].at.Done? then ops[id].(cancelRequested := true) else ops[id]
  }

  function ManagerMade(w: World, m: ManagerId): Option<World> {
    if m in w.managers then None else Some(w.(managers := w.managers[m := Open]))
  }

  /** `start_download` and `start_upload` from their lock to their return. Ids
      are fresh random tokens; the caller validated the endpoints. */
  function Started(cfg: Config, w: World, m: ManagerId, id: string, ends: Endpoints, overwrite: bool): Option<World> {
    if m !in w.managers || id in w.ops || !ends.Valid() then None
    else
      var r := R.Register(Records(w, m), w.claimed, !w.managers[m].Open?, cfg.maxTransfers, cfg.ttl, w.clock,
                          id, R.NewRecord(ResourceKey(ends)));
      var kept := set i | i in w.registered && i in w.ops && (w.ops[i].manager == m ==> i in r.records);
      if r.outcome.Registered?
      then Some(w.(ops := w.ops[id := NewOperation(m, ends, overwrite, r.records[id])],
                   registered := kept + {id}, claimed := r.claimed))
      else Some(w.(registered := kept, claimed := r.claimed))
  }

  function Moved(cfg: Config, w: World, id: string, b: BodyEvent): Option<World> {
    if id !in w.ops then None
    else
      var op := w.ops[id];
      var f := BodyEffect(cfg, op, b, Lookup(w.partials, PartialName(cfg.token, op.ends)), Lookup(w.nodes, op.rec.key));
      if f.None? then None else Some(Settle(cfg, w, id, b, f.value))
  }

  /** `status` or `list`. */
  function Listed(cfg: Config, w: World, m: ManagerId): World {
    var records := R.Pruned(Records(w, m), w.clock, cfg.ttl);
    w.(registered := set i | i in w.registered && i in w.ops && (w.ops[i].manager == m ==> i in records))
  }

  function CancelBegun(w: World, call: nat, m: ManagerId, id: string): Option<World> {
    if call in w.calls || call in w.reports || id !in w.registered || id !in w.ops || w.ops[id].manager != m then None
    else if w.ops[id].rec.state.Final() then Some(w.(reports := w.reports[call := w.ops[id].rec.state]))
    else Some(w.(ops := RequestCancel(w.ops, {id}), calls := w.calls[call := id]))
  }

  function CancelFinished(w: World, call: nat): Option<World> {
    if call !in w.calls || w.calls[call] !in w.ops || !w.ops[w.calls[call]].at.Done? then None
    else
      var id := w.calls[call];
      var w1 := if w.ops[id].rec.state.Final() then w else SetState(w, id, R.Cancelled);
      Some(w1.(calls := w1.calls - {call}, reports := w1.reports[call := w1.ops[id].rec.state]))
  }

  /** The caller of `cancel` is itself cancelled: waiting passes that on to the
      task, and the fallback is skipped. */
  function CancelAbandoned(w: World, call: nat): Option<World> {
    if call !in w.calls then None
    else
      var ids := {w.calls[call]};
      Some(w.(ops := RequestCancel(w.ops, ids), calls := w.calls - {call}))
  }

  function CloseBegun(w: World, m: ManagerId): Option<World> {
    if m !in w.managers then None
    else if !w.managers[m].Open? then Some(w)
    else
      var waiting := R.ActiveIds(Records(w, m));
      Some(w.(ops := RequestCancel(w.ops, waiting), managers := w.managers[m := Closing(waiting)]))
  }

  /** One turn of the loop at the end of `close`. */
  function CloseFinishedOne(w: World, m: ManagerId, id: string): Option<World> {
    if m !in w.managers || !w.managers[m].Closing? || !CloseReady(w, m)
       || id !in w.managers[m].waiting || id !in w.ops || w.ops[id].rec.state.Final() then None
    else Some(SetState(w, id, R.Cancelled))
  }

  function CloseFinished(w: World, m: ManagerId): Option<World> {
    if m !in w.managers || !w.managers[m].Closing? || !CloseReady(w, m)
       || exists id :: id in w.managers[m].waiting && id in w.ops && !w.ops[id].rec.state.Final() then None
    else Some(w.(managers := w.managers[m := Closed]))
  }

  function CloseAbandoned(w: World, m: ManagerId): Option<World> {
    if m !in w.managers || !w.managers[m].Closing? then None
    else Some(w.(ops := RequestCancel(w.ops, w.managers[m].waiting), managers := w.managers[m := Abandoned]))
  }

  /** One event, or None when it cannot happen in `w`. */
  function Next(cfg: Config, w: World, e: Event): Option<World> {
    match e
    case NewManager(m) => ManagerMade(w, m)
    case Start(m, id, ends, overwrite) => Started(cfg, w, m, id, ends, overwrite)
    case Body(id, b) => Moved(cfg, w, id, b)
    case Prune(m) => Some(Listed(cfg, w, m))
    case BeginCancel(call, m, id) => CancelBegun(w, call, m, id)
    case FinishCancel(call) => CancelFinished(w, call)
    case AbandonCancel(call) => CancelAbandoned(w, call)
    case BeginClose(m) => CloseBegun(w, m)
    case FinishCloseOne(m, id) => CloseFinishedOne(w, m, id)
    case FinishClose(m) => CloseFinished(w, m)
    case AbandonClose(m) => CloseAbandoned(w, m)
    case Elsewhere(key, node) => Some(w.(nodes := SetNode(w.nodes, key, node)))
    case Tick => Some(w.(clock := w.clock + 1))
  }

  /** Every task that `close` waits for has finished. */
  predicate CloseReady(w: World, m: ManagerId)
    requires m in w.managers && w.managers[m].Closing?
  {
    forall id | id in w.managers[m].waiting && id in w.ops :: w.ops[id].at.Done?
  }

  ghost predicate Follows(cfg: Config, ws: seq<World>, es: seq<Event>, i: nat)
    requires |ws| == |es| + 1 && i < |es|
  {
    Next(cfg, ws[i], es[i]) == Some(ws[i + 1])
  }

  /** A run: worlds and the events between them. */
  ghost predicate IsRun(cfg: Config, ws: seq<World>, es: seq<Event>) {
    && |ws| == |es| + 1
    && ws[0] == INITIAL
    && forall i | 0 <= i < |es| :: Follows(cfg, ws, es, i)
  }
}
