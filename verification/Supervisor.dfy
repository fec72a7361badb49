/** The remote supervisor program of remote_ssh_mcp/commands.py as three
    processes that interleave: the supervisor shell, the child it forks (which
    leads the command's process group), and the launcher that becomes the
    channel watcher. Signals reach the supervisor between any two commands.
    POSIX shell rules: a trap action runs between commands, and `exit` while the
    EXIT action is already running ends the shell without resuming it. */
module Supervisor {
  import opened Options
  import opened Bytes
  import opened Framing

  /** Where the supervisor stands: the command it runs next. */
  datatype Pc =
    | ReadSize
    | EnterMkdir | Mkdir | Adopt | LeaveMkdir | TestMkdir
    | NamePaths | Mkfifo | OpenEnds
    | EnterFork | Fork | RecordChild | LeaveFork | TestFork
    | ReadPid | DropPidPipe | WritePayload | Arm | Wait | Release | StopWatcher
    | HandlerTerm | HandlerKill | HandlerWait                 // interrupted()
    | CleanTerm | CleanKill | CleanWait | CleanStop           // cleanup()
    | CleanPayload | CleanGate | CleanPid | CleanDir
    | Dead

  /** The supervisor's shell variables; `late` says that a signal was handled
      while cleanup ran. */
  datatype Vars = Vars(
    critical: bool,    // startup_critical
    pending: bool,     // interruption_pending
    made: bool,        // runtime_status is 0
    dir: bool,         // runtime_dir is set
    paths: bool,       // the three FIFO names are set
    child: bool,       // child_pid is set
    watcher: bool,     // watcher_pid is set
    late: bool)

  /** What exists of what this supervisor made. */
  datatype Files = Files(dir: bool, payload: bool, gate: bool, pidPipe: bool)
  {
    predicate NoFifo() { !payload && !gate && !pidPipe }
  }

  datatype Child = NoChild | Forked | Leader | Command | Ended

  datatype Launcher = NoLauncher | Blocked | Armed | Watching | Firing | Sweeping | Stopped
  {
    predicate InGroup() { Blocked? || Armed? }
    predicate Gone() { NoLauncher? || Stopped? }
  }

  /** The command's side: `others` are further live processes of its group. */
  datatype Group = Group(child: Child, others: bool, launcher: Launcher)
  {
    /** Nothing of the group is alive, nor about to be. */
    predicate Gone() {
      (child.NoChild? || child.Ended?) && !others && !launcher.InGroup()
    }

    /** SIGKILL to the group. */
    function Killed(): Group {
      Group(if child.Leader? || child.Command? then Ended else child, false,
            if launcher.InGroup() then Stopped else launcher)
    }

    /** SIGTERM to the group or, when there is none yet, to the child itself,
        which has no handler before it leads its group. What else TERM kills is
        covered by processes being free to end at any time. */
    function Termed(): Group {
      this.(child := if child.Forked? then Ended else child)
    }
  }

  /** What has happened so far. */
  datatype Log = Log(
    pidSent: bool,       // the child wrote the launcher's pid
    registered: bool,    // the supervisor read it
    armed: bool,         // the gate was opened
    released: bool)      // the command ended by itself and was let go

  /** The channel on the supervisor's standard input, shared with the watcher. */
  datatype Wire = Wire(
    arrived: Bytes,        // everything that has come over it
    ended: bool,           // nothing more will
    taken: nat,            // how many of these bytes have been read
    line: Option<Bytes>,   // payload_size
    sent: Option<Bytes>)   // what `dd` wrote to the payload pipe, once it succeeded
  {
    function Rest(): Bytes {
      if taken <= |arrived| then arrived[taken..] else []
    }

    /** `payload_size` as `dd` takes it. */
    predicate Countable() {
      line.Some? && AllDigits(line.value) && Value(line.value) <= DD_MAX_COUNT
    }

    /** `IFS= read -r payload_size`, which waits for a line or the end. */
    function SizeRead(): Option<Wire> {
      match ReadLine(Rest())
      case Some((line, _)) => Some(this.(taken := taken + |line| + 1, line := Some(line)))
      case None => if ended then Some(this.(taken := taken + |Rest()|)) else None
    }

    /** `dd iflag=fullblock`, which waits for all it was told to copy or for the
        end, and exits 0 either way. */
    function Copied(): Option<Wire>
      requires Countable()
    {
      var n := Value(line.value);
      if n <= |Rest()| then Some(this.(taken := taken + n, sent := Some(Rest()[..n])))
      else if ended then Some(this.(taken := taken + |Rest()|, sent := Some(Rest())))
      else None
    }

    /** The watcher's `read`, which waits for a line or the end. */
    function Watched(): Option<Wire> {
      match ReadLine(Rest())
      case Some((line, _)) => Some(this.(taken := taken + |line| + 1))
      case None => if ended then Some(this.(taken := taken + |Rest()|)) else None
    }
  }

  datatype State = State(pc: Pc, vars: Vars, files: Files, group: Group, log: Log, wire: Wire)

  const INITIAL := State(
    ReadSize, Vars(false, false, false, false, false, false, false, false), Files(false, false, false, false),
    Group(NoChild, false, NoLauncher), Log(false, false, false, false), Wire([], false, 0, None, None))

  datatype Event =
    | Supervise(ok: bool)      // the supervisor runs its next command
    | FifosFail(payload: bool, gate: bool, pidPipe: bool)
    | Signal                   // HUP, INT or TERM
    | ChildLeads               // setsid
    | ChildLaunches
    | ChildWritesPid(ok: bool)
    | ChildExecs
    | ChildEnds
    | OthersStart
    | OthersEnd
    | LauncherReads(ok: bool)
    | LauncherDropsGate
    | LauncherDetaches
    | LauncherDies
    | WatcherFires             // the channel closed, or a line came over it
    | WatcherKills
    | WatcherSweeps
    | Arrives(bytes: Bytes)    // over the channel
    | ChannelEnds

  predicate Cleaning(pc: Pc) {
    pc.CleanTerm? || pc.CleanKill? || pc.CleanWait? || pc.CleanStop?
    || pc.CleanPayload? || pc.CleanGate? || pc.CleanPid? || pc.CleanDir?
  }

  /** `exit`: the EXIT action, or the end if that is already running. */
  function Exit(s: State): State {
    s.(pc := if s.vars.late then Dead else CleanTerm)
  }

  /** `stop_watcher`. */
  function StoppedWatcher(s: State): State {
    if s.vars.watcher then s.(vars := s.vars.(watcher := false), group := s.group.(launcher := Stopped)) else s
  }

  /** The supervisor's startup, one command at a time. */
  function Startup(s: State, ok: bool): Option<State> {
    match s.pc
    case ReadSize =>
      var w := s.wire.SizeRead();
      if w.None? then None
      else if w.value.line.None? || w.value.line.value == [] || !AllDigits(w.value.line.value) then
        Some(Exit(s.(wire := w.value)))
      else Some(s.(wire := w.value, pc := EnterMkdir))
    case EnterMkdir => Some(s.(vars := s.vars.(critical := true), pc := Mkdir))
    case Mkdir => Some(s.(files := s.files.(dir := ok), vars := s.vars.(made := ok), pc := Adopt))
    case Adopt => Some(s.(vars := s.vars.(dir := s.vars.made), pc := LeaveMkdir))
    case LeaveMkdir => Some(s.(vars := s.vars.(critical := false), pc := TestMkdir))
    case TestMkdir => Some(if s.vars.pending || !s.vars.made then Exit(s) else s.(pc := NamePaths))
    case NamePaths => Some(s.(vars := s.vars.(paths := true), pc := Mkfifo))
    case _ => None
  }

  /** `mkfifo` fails, having made any of the three. */
  function FifosFailed(s: State, payload: bool, gate: bool, pidPipe: bool): Option<State> {
    if !s.pc.Mkfifo? then None
    else Some(Exit(s.(files := s.files.(payload := payload, gate := gate, pidPipe := pidPipe))))
  }

  /** FIFOs, descriptors and the fork. */
  function Launch(s: State, ok: bool): Option<State> {
    match s.pc
    case Mkfifo =>
      if ok then Some(s.(files := s.files.(payload := true, gate := true, pidPipe := true), pc := OpenEnds))
      else FifosFailed(s, false, false, false)
    case OpenEnds => Some(if ok then s.(pc := EnterFork) else Exit(s))
    case EnterFork => Some(s.(vars := s.vars.(critical := true), pc := Fork))
    case Fork => Some(s.(group := s.group.(child := Forked), pc := RecordChild))
    case RecordChild => Some(s.(vars := s.vars.(child := true), pc := LeaveFork))
    case LeaveFork => Some(s.(vars := s.vars.(critical := false), pc := TestFork))
    case TestFork => Some(if s.vars.pending then Exit(s) else s.(pc := ReadPid))
    case _ => None
  }

  /** From the registration of the watcher to the opening of its gate. */
  function Register(s: State, ok: bool): Option<State> {
    match s.pc
    case ReadPid =>
      if !ok then Some(Exit(s))
      else if !s.log.pidSent then None
      else Some(s.(vars := s.vars.(watcher := true), log := s.log.(registered := true), pc := DropPidPipe))
    case DropPidPipe => Some(s.(files := s.files.(pidPipe := false), pc := WritePayload))
    case WritePayload =>
      if !ok || !s.wire.Countable() then Some(Exit(s))
      else
        var w := s.wire.Copied();
        if w.None? then None else Some(s.(wire := w.value, pc := Arm))
    case Arm => Some(if ok then s.(log := s.log.(armed := true), pc := Wait) else Exit(s))
    case _ => None
  }

  /** The end of the command. */
  function Await(s: State): Option<State> {
    match s.pc
    case Wait => if s.group.child.Ended? then Some(s.(pc := Release)) else None
    case Release => Some(s.(vars := s.vars.(child := false), log := s.log.(released := true), pc := StopWatcher))
    case StopWatcher => Some(Exit(StoppedWatcher(s)))
    case _ => None
  }

  /** `terminate_child` in the signal action, and its `exit`. */
  function Handle(s: State): Option<State> {
    match s.pc
    case HandlerTerm => Some(if s.vars.child then s.(group := s.group.Termed(), pc := HandlerKill) else Exit(s))
    case HandlerKill => Some(s.(group := s.group.Killed(), pc := HandlerWait))
    case HandlerWait => if s.group.child.Ended? then Some(Exit(s.(vars := s.vars.(child := false)))) else None
    case _ => None
  }

  /** The EXIT action: `terminate_child` and `stop_watcher`. */
  function Clean(s: State): Option<State> {
    match s.pc
    case CleanTerm => Some(if s.vars.child then s.(group := s.group.Termed(), pc := CleanKill) else s.(pc := CleanStop))
    case CleanKill => Some(s.(group := s.group.Killed(), pc := CleanWait))
    case CleanWait => if s.group.child.Ended? then Some(s.(vars := s.vars.(child := false), pc := CleanStop)) else None
    case CleanStop => Some(StoppedWatcher(s).(pc := CleanPayload))
    case _ => None
  }

  /** The EXIT action from its first `rm` on. */
  function Sweep(s: State): Option<State> {
    match s.pc
    case CleanPayload => Some(s.(files := s.files.(payload := s.files.payload && !s.vars.paths), pc := CleanGate))
    case CleanGate => Some(s.(files := s.files.(gate := s.files.gate && !s.vars.paths), pc := CleanPid))
    case CleanPid => Some(s.(files := s.files.(pidPipe := s.files.pidPipe && !s.vars.paths), pc := CleanDir))
    case CleanDir => Some(s.(files := s.files.(dir := s.files.dir && !(s.vars.dir && s.files.NoFifo())), pc := Dead))
    case _ => None
  }

  function Supervised(s: State, ok: bool): Option<State> {
    if Startup(s, ok).Some? then Startup(s, ok)
    else if Launch(s, ok).Some? then Launch(s, ok)
    else if Register(s, ok).Some? then Register(s, ok)
    else if Await(s).Some? then Await(s)
    else if Handle(s).Some? then Handle(s)
    else if Clean(s).Some? then Clean(s)
    else Sweep(s)
  }

  /** `interrupted` deferred in the critical sections, or begun. */
  function Signalled(s: State): Option<State> {
    if s.pc.Dead? then None
    else if s.vars.critical then Some(s.(vars := s.vars.(pending := true)))
    else Some(s.(pc := HandlerTerm, vars := s.vars.(late := s.vars.late || Cleaning(s.pc))))
  }

  function ChildMoves(s: State, e: Event): Option<State> {
    var g := s.group;
    match e
    case ChildLeads => if g.child.Forked? then Some(s.(group := g.(child := Leader))) else None
    case ChildLaunches =>
      if g.child.Leader? && g.launcher.NoLauncher? then Some(s.(group := g.(launcher := Blocked))) else None
    case ChildWritesPid(ok) =>
      if !(g.child.Leader? && !g.launcher.NoLauncher? && !s.log.pidSent) then None
      else if ok then Some(s.(log := s.log.(pidSent := true))) else Some(s.(group := g.(child := Ended)))
    case ChildExecs => if g.child.Leader? && s.log.pidSent then Some(s.(group := g.(child := Command))) else None
    case ChildEnds => if g.child.NoChild? || g.child.Ended? then None else Some(s.(group := g.(child := Ended)))
    case OthersStart => if g.child.Command? || g.others then Some(s.(group := g.(others := true))) else None
    case OthersEnd => if g.others then Some(s.(group := g.(others := false))) else None
    case _ => None
  }

  function LauncherMoves(s: State, e: Event): Option<State> {
    var g := s.group;
    match e
    case LauncherReads(ok) =>
      if !g.launcher.Blocked? then None
      else if !ok then Some(s.(group := g.(launcher := Stopped)))
      else if s.log.armed then Some(s.(group := g.(launcher := Armed))) else None
    case LauncherDropsGate => if g.launcher.Armed? then Some(s.(files := s.files.(gate := false))) else None
    case LauncherDetaches => if g.launcher.Armed? && !s.files.gate then Some(s.(group := g.(launcher := Watching))) else None
    case LauncherDies => if g.launcher.NoLauncher? then None else Some(s.(group := g.(launcher := Stopped)))
    case WatcherFires =>
      if g.launcher.Watching? && s.wire.Watched().Some?
      then Some(s.(group := g.(launcher := Firing), wire := s.wire.Watched().value)) else None
    case WatcherKills => if g.launcher.Firing? then Some(s.(group := g.Killed().(launcher := Sweeping))) else None
    case WatcherSweeps =>
      if g.launcher.Sweeping?
      then Some(s.(files := Files(false, false, false, false), group := g.(launcher := Stopped))) else None
    case _ => None
  }

  function WireMoves(s: State, e: Event): Option<State> {
    match e
    case Arrives(bytes) => if s.wire.ended then None else Some(s.(wire := s.wire.(arrived := s.wire.arrived + bytes)))
    case ChannelEnds => if s.wire.ended then None else Some(s.(wire := s.wire.(ended := true)))
    case _ => None
  }

  function Next(s: State, e: Event): Option<State> {
    if e.Supervise? then Supervised(s, e.ok)
    else if e.FifosFail? then FifosFailed(s, e.payload, e.gate, e.pidPipe)
    else if e.Signal? then Signalled(s)
    else if ChildMoves(s, e).Some? then ChildMoves(s, e)
    else if LauncherMoves(s, e).Some? then LauncherMoves(s, e)
    else WireMoves(s, e)
  }

  ghost predicate Follows(ss: seq<State>, es: seq<Event>, i: nat)
    requires |ss| == |es| + 1 && i < |es|
  {
    Next(ss[i], es[i]) == Some(ss[i + 1])
  }

  ghost predicate IsRun(ss: seq<State>, es: seq<Event>) {
    && |ss| == |es| + 1
    && ss[0] == INITIAL
    && forall i | 0 <= i < |es| :: Follows(ss, es, i)
  }
}
