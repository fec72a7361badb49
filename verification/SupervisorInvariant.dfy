/** What holds in every reachable state of the supervisor protocol. */
module SupervisorInvariant {
  import opened Options
  import opened Bytes
  import opened Framing
  import opened Supervisor

  /** The program order of the supervisor's commands. */
  function Rank(pc: Pc): nat {
    match pc
    case ReadSize => 0
    case EnterMkdir => 1
    case Mkdir => 2
    case Adopt => 3
    case LeaveMkdir => 4
    case TestMkdir => 5
    case NamePaths => 6
    case Mkfifo => 7
    case OpenEnds => 8
    case EnterFork => 9
    case Fork => 10
    case RecordChild => 11
    case LeaveFork => 12
    case TestFork => 13
    case ReadPid => 14
    case DropPidPipe => 15
    case WritePayload => 16
    case Arm => 17
    case Wait => 18
    case Release => 19
    case StopWatcher => 20
    case HandlerTerm => 30
    case HandlerKill => 31
    case HandlerWait => 32
    case CleanTerm => 40
    case CleanKill => 41
    case CleanWait => 42
    case CleanStop => 43
    case CleanPayload => 44
    case CleanGate => 45
    case CleanPid => 46
    case CleanDir => 47
    case Dead => 48
  }

  /** The variables know what was made. */
  predicate FilesKnown(r: nat, v: Vars, f: Files) {
    && (v.critical <==> 2 <= r <= 4 || 10 <= r <= 12)
    && (f.dir ==> v.dir || (r == 3 && v.made))
    && (!f.NoFifo() ==> v.paths && v.dir)
    && ((r == 4 || r == 5) && v.made ==> v.dir)
    && (r <= 3 ==> !v.dir)
    && (r <= 7 ==> f.NoFifo())
    && (6 <= r <= 20 ==> v.dir)
    && (7 <= r <= 20 ==> v.paths)
  }

  /** Whatever lives in the child's group is reachable through `child_pid`. */
  predicate GroupKnown(r: nat, v: Vars, g: Group, l: Log) {
    && (r <= 10 ==> g.child.NoChild?)
    && (r == 11 ==> !g.child.NoChild?)
    && (g.child.NoChild? ==> g.launcher.NoLauncher? && !g.others && !v.child && !l.pidSent)
    && (g.child.Forked? ==> g.launcher.NoLauncher? && !g.others)
    && (v.child || r == 11 || l.released || g.Gone())
    && (12 <= r <= 19 ==> v.child)
    && (r == 20 ==> l.released)
    && (r <= 19 || v.child ==> !l.released)
    && (r == 31 || r == 41 ==> v.child && !g.child.Forked?)
    && (r == 32 || r == 42 ==> v.child && g.Gone())
    && (l.released || r == 19 ==> g.child.Ended?)
  }

  /** The launcher leaves its gate only after it was registered, and whoever was
      registered stays reachable until stopped. */
  predicate Ordered(r: nat, v: Vars, g: Group, l: Log) {
    && (!g.launcher.Gone() && !g.launcher.Blocked? ==> l.armed)
    && (l.armed ==> l.registered && r > 17)
    && (l.pidSent ==> !g.launcher.NoLauncher?)
    && (l.registered ==> l.pidSent)
    && (v.watcher ==> l.registered)
    && (l.registered && !v.watcher ==> g.launcher.Stopped?)
    && (15 <= r <= 20 ==> l.registered)
    && (l.released ==> l.registered)
  }

  /** What cleanup has achieved at each of its steps, if no signal was handled
      while it ran. */
  predicate Cleaned(r: nat, v: Vars, f: Files, g: Group, l: Log) {
    && (v.late ==> 30 <= r <= 32 || r == 48)
    && (r == 48 ==> !v.child)
    && (r >= 43 && !v.late ==> !v.child && (l.released || g.Gone()))
    && (r >= 44 && !v.late ==> g.launcher.Gone())
    && (r >= 45 && !v.late ==> !f.payload)
    && (r >= 46 && !v.late ==> !f.gate)
    && (r >= 47 && !v.late ==> !f.pidPipe)
    && (r >= 48 && !v.late ==> !f.dir)
  }

  predicate Inv(s: State) {
    var r := Rank(s.pc);
    && FilesKnown(r, s.vars, s.files)
    && GroupKnown(r, s.vars, s.group, s.log)
    && Ordered(r, s.vars, s.group, s.log)
    && Cleaned(r, s.vars, s.files, s.group, s.log)
  }

  /** Leaving through `exit` keeps the invariant from any uncritical point. */
  lemma ExitKeeps(s: State)
    requires Inv(s) && !s.vars.critical && !Cleaning(s.pc) && !s.pc.Dead?
    requires s.vars.late ==> !s.vars.child
    ensures Inv(Exit(s))
  {
  }

  lemma StartupKeeps(s: State, ok: bool)
    requires Inv(s) && Startup(s, ok).Some?
    ensures Inv(Startup(s, ok).value)
    ensures Startup(s, ok).value.vars.late == s.vars.late
  {
    if s.pc.ReadSize? {
      ReadSizeKeeps(s, ok);
    } else {
      DirectoryKeeps(s, ok);
    }
    hide Inv, Startup;
  }

  lemma ReadSizeKeeps(s: State, ok: bool)
    requires Inv(s) && s.pc.ReadSize? && Startup(s, ok).Some?
    ensures Inv(Startup(s, ok).value)
    ensures Startup(s, ok).value.vars.late == s.vars.late
  {
    hide Wire.SizeRead;
    ExitKeeps(s);
  }

  lemma DirectoryKeeps(s: State, ok: bool)
    requires Inv(s) && !s.pc.ReadSize? && Startup(s, ok).Some?
    ensures Inv(Startup(s, ok).value)
    ensures Startup(s, ok).value.vars.late == s.vars.late
  {
    if s.pc.TestMkdir? {
      ExitKeeps(s);
    }
  }

  lemma PipesKeep(s: State, ok: bool)
    requires Inv(s) && (s.pc.Mkfifo? || s.pc.OpenEnds?)
    ensures Inv(Launch(s, ok).value)
  {
    if !ok {
      ExitKeeps(s);
    }
  }

  lemma FifosFailKeeps(s: State, payload: bool, gate: bool, pidPipe: bool)
    requires Inv(s) && s.pc.Mkfifo?
    ensures Inv(FifosFailed(s, payload, gate, pidPipe).value)
    ensures FifosFailed(s, payload, gate, pidPipe).value.vars.late == s.vars.late
  {
    ExitKeeps(s.(files := s.files.(payload := payload, gate := gate, pidPipe := pidPipe), pc := OpenEnds));
  }

  lemma ForkKeeps(s: State, ok: bool)
    requires Inv(s) && Launch(s, ok).Some? && !s.pc.Mkfifo? && !s.pc.OpenEnds?
    ensures Inv(Launch(s, ok).value)
  {
    if s.pc.TestFork? {
      ExitKeeps(s);
    }
  }

  lemma LaunchKeeps(s: State, ok: bool)
    requires Inv(s) && Launch(s, ok).Some?
    ensures Inv(Launch(s, ok).value)
    ensures Launch(s, ok).value.vars.late == s.vars.late
  {
    hide Inv;
    if s.pc.Mkfifo? || s.pc.OpenEnds? {
      PipesKeep(s, ok);
    } else {
      ForkKeeps(s, ok);
    }
  }

  lemma RegisterKeeps(s: State, ok: bool)
    requires Inv(s) && Register(s, ok).Some?
    ensures Inv(Register(s, ok).value)
    ensures Register(s, ok).value.vars.late == s.vars.late
  {
    ExitKeeps(s);
    if s.pc.WritePayload? {
      hide Wire.Copied;
    }
  }

  lemma StoppingKeeps(s: State)
    requires Inv(s) && s.pc.StopWatcher?
    ensures Inv(StoppedWatcher(s)) && StoppedWatcher(s).pc == s.pc && StoppedWatcher(s).vars.critical == s.vars.critical
  {
  }

  lemma AwaitKeeps(s: State)
    requires Inv(s) && Await(s).Some?
    ensures Inv(Await(s).value)
    ensures Await(s).value.vars.late == s.vars.late
  {
    if s.pc.StopWatcher? {
      StoppingKeeps(s);
      ExitKeeps(StoppedWatcher(s));
    }
  }

  lemma HandlerTermKeeps(s: State)
    requires Inv(s) && s.pc.HandlerTerm?
    ensures Inv(Handle(s).value)
  {
    if !s.vars.child {
      ExitKeeps(s);
      hide Inv;
    }
  }

  lemma HandlerKillKeeps(s: State)
    requires Inv(s) && (s.pc.HandlerKill? || s.pc.HandlerWait?) && Handle(s).Some?
    ensures Inv(Handle(s).value)
  {
  }

  lemma HandleKeeps(s: State)
    requires Inv(s) && Handle(s).Some?
    ensures Inv(Handle(s).value)
    ensures Handle(s).value.vars.late == s.vars.late
  {
    hide Inv;
    if s.pc.HandlerTerm? {
      HandlerTermKeeps(s);
    } else {
      HandlerKillKeeps(s);
    }
  }

  lemma StoppingCleans(s: State)
    requires Inv(s) && s.pc.CleanStop?
    ensures Inv(Clean(s).value)
  {
  }

  lemma TerminatingCleans(s: State)
    requires Inv(s) && !s.pc.CleanStop? && Clean(s).Some?
    ensures Inv(Clean(s).value)
  {
    var t := Clean(s).value;
    var r := Rank(t.pc);
    assert FilesKnown(r, t.vars, t.files) && Ordered(r, t.vars, t.group, t.log) by {
      hide GroupKnown, Cleaned;
    }
    assert GroupKnown(r, t.vars, t.group, t.log) by {
      hide FilesKnown, Ordered;
    }
    assert Cleaned(r, t.vars, t.files, t.group, t.log) by {
      hide FilesKnown, Ordered;
    }
    hide FilesKnown, GroupKnown, Ordered, Cleaned;
  }

  lemma CleanKeeps(s: State)
    requires Inv(s) && Clean(s).Some?
    ensures Inv(Clean(s).value)
    ensures Clean(s).value.vars.late == s.vars.late
  {
    if s.pc.CleanStop? {
      StoppingCleans(s);
    } else {
      TerminatingCleans(s);
    }
    hide Inv;
  }

  lemma SweepKeeps(s: State)
    requires Inv(s) && Sweep(s).Some?
    ensures Inv(Sweep(s).value)
    ensures Sweep(s).value.vars.late == s.vars.late
  {
    var t := Sweep(s).value;
    var r := Rank(t.pc);
    assert 44 <= Rank(s.pc) && r == Rank(s.pc) + 1;
    SweepFiles(s);
    assert GroupKnown(r, t.vars, t.group, t.log) && Ordered(r, t.vars, t.group, t.log) by {
      hide FilesKnown, Cleaned;
    }
    hide FilesKnown, GroupKnown, Ordered, Cleaned;
  }

  lemma SweepFiles(s: State)
    requires Inv(s) && Sweep(s).Some?
    ensures var t := Sweep(s).value;
            FilesKnown(Rank(t.pc), t.vars, t.files) && Cleaned(Rank(t.pc), t.vars, t.files, t.group, t.log)
  {
    hide Ordered, GroupKnown;
  }

  lemma SignalKeeps(s: State)
    requires Inv(s) && Signalled(s).Some?
    ensures Inv(Signalled(s).value)
    ensures !Cleaning(s.pc) ==> Signalled(s).value.vars.late == s.vars.late
  {
  }

  lemma ChildKeeps(s: State, e: Event)
    requires Inv(s) && ChildMoves(s, e).Some?
    ensures Inv(ChildMoves(s, e).value)
    ensures ChildMoves(s, e).value.vars.late == s.vars.late
  {
  }

  lemma LauncherKeeps(s: State, e: Event)
    requires Inv(s) && LauncherMoves(s, e).Some?
    ensures Inv(LauncherMoves(s, e).value)
    ensures LauncherMoves(s, e).value.vars.late == s.vars.late
  {
  }

  lemma WireKeeps(s: State, e: Event)
    requires Inv(s) && WireMoves(s, e).Some?
    ensures Inv(WireMoves(s, e).value)
    ensures WireMoves(s, e).value.vars.late == s.vars.late
  {
  }

  lemma StepKeeps(s: State, e: Event)
    requires Inv(s) && Next(s, e).Some?
    ensures Inv(Next(s, e).value)
    ensures (e.Signal? ==> !Cleaning(s.pc)) ==> Next(s, e).value.vars.late == s.vars.late
  {
    if e.Supervise? {
      if Startup(s, e.ok).Some? {
        StartupKeeps(s, e.ok);
      } else if Launch(s, e.ok).Some? {
        LaunchKeeps(s, e.ok);
      } else if Register(s, e.ok).Some? {
        RegisterKeeps(s, e.ok);
      } else if Await(s).Some? {
        AwaitKeeps(s);
      } else if Handle(s).Some? {
        HandleKeeps(s);
      } else if Clean(s).Some? {
        CleanKeeps(s);
      } else {
        SweepKeeps(s);
      }
    } else if e.FifosFail? {
      FifosFailKeeps(s, e.payload, e.gate, e.pidPipe);
    } else if e.Signal? {
      SignalKeeps(s);
    } else if ChildMoves(s, e).Some? {
      ChildKeeps(s, e);
    } else if LauncherMoves(s, e).Some? {
      LauncherKeeps(s, e);
    } else {
      WireKeeps(s, e);
    }
  }

  // The channel.

  /** What was read and written agrees with what has arrived. */
  predicate WireOk(w: Wire) {
    && w.taken <= |w.arrived|
    && (w.line.None? ==> w.sent.None?)
    && (w.line.Some? ==> LineOk(w, w.line.value))
    && (w.line.Some? && w.sent.Some? ==> SentOk(w, w.line.value, w.sent.value))
  }

  predicate LineOk(w: Wire, line: Bytes) {
    && |line| + 1 <= w.taken <= |w.arrived|
    && ReadLine(w.arrived) == Some((line, w.arrived[|line| + 1..]))
  }

  /** `dd` wrote what follows the line: as much as it was told to, or all there
      will ever be. */
  predicate SentOk(w: Wire, line: Bytes, sent: Bytes) {
    var start, end := |line| + 1, |line| + 1 + |sent|;
    && line != [] && AllDigits(line) && Value(line) <= DD_MAX_COUNT
    && end <= w.taken <= |w.arrived| && w.arrived[start..end] == sent
    && (|sent| == Value(line) || (|sent| < Value(line) && w.ended && |w.arrived| == end))
  }

  /** How far the channel has been read when the supervisor stands at `r`. */
  predicate WireAt(r: nat, w: Wire, l: Log) {
    && (r == 0 ==> w.line.None? && w.taken == 0)
    && (1 <= r <= 20 ==> w.line.Some? && w.line.value != [] && AllDigits(w.line.value))
    && (1 <= r <= 16 && w.line.Some? ==> w.taken == |w.line.value| + 1 && w.sent.None?)
    && (17 <= r <= 20 || l.armed ==> w.sent.Some?)
  }

  predicate WireInv(s: State) {
    WireOk(s.wire) && WireAt(Rank(s.pc), s.wire, s.log)
  }

  /** The supervisor goes on to its next command or leaves its main program, and
      only Arm opens the gate. */
  predicate GoesOn(s: State, t: State) {
    && (Rank(t.pc) <= 20 ==> Rank(t.pc) == Rank(s.pc) + 1)
    && (t.log.armed ==> s.log.armed || s.pc.Arm?)
  }

  lemma StartupGoesOn(s: State, ok: bool)
    requires Startup(s, ok).Some?
    ensures GoesOn(s, Startup(s, ok).value)
  {
    hide Wire.SizeRead;
  }

  lemma LaunchGoesOn(s: State, ok: bool)
    requires Launch(s, ok).Some?
    ensures GoesOn(s, Launch(s, ok).value)
  {
  }

  lemma RegisterGoesOn(s: State, ok: bool)
    requires Register(s, ok).Some?
    ensures GoesOn(s, Register(s, ok).value)
  {
    hide Wire.Copied;
  }

  lemma AwaitGoesOn(s: State)
    requires Await(s).Some?
    ensures GoesOn(s, Await(s).value)
  {
  }

  lemma HandleGoesOn(s: State)
    requires Handle(s).Some?
    ensures GoesOn(s, Handle(s).value)
  {
  }

  lemma CleanGoesOn(s: State)
    requires Clean(s).Some?
    ensures GoesOn(s, Clean(s).value)
  {
  }

  lemma SweepGoesOn(s: State)
    requires Sweep(s).Some?
    ensures GoesOn(s, Sweep(s).value)
  {
  }

  lemma SupervisedGoesOn(s: State, ok: bool)
    requires Supervised(s, ok).Some?
    ensures GoesOn(s, Supervised(s, ok).value)
  {
    hide GoesOn, Startup, Launch, Register, Await, Handle, Clean, Sweep;
    if Startup(s, ok).Some? {
      StartupGoesOn(s, ok);
    } else if Launch(s, ok).Some? {
      LaunchGoesOn(s, ok);
    } else if Register(s, ok).Some? {
      RegisterGoesOn(s, ok);
    } else if Await(s).Some? {
      AwaitGoesOn(s);
    } else if Handle(s).Some? {
      HandleGoesOn(s);
    } else if Clean(s).Some? {
      CleanGoesOn(s);
    } else {
      SweepGoesOn(s);
    }
  }

  lemma OneByOne(s: State, e: Event)
    requires Next(s, e).Some?
    ensures var t := Next(s, e).value;
            && (Rank(t.pc) <= 20 ==> Rank(t.pc) == Rank(s.pc) || (e.Supervise? && Rank(t.pc) == Rank(s.pc) + 1))
            && (t.log.armed ==> s.log.armed || s.pc.Arm?)
  {
    if e.Supervise? {
      SupervisedGoesOn(s, e.ok);
      hide Supervised;
    }
  }

  predicate TouchesWire(s: State, e: Event) {
    (e.Supervise? && (s.pc.ReadSize? || s.pc.WritePayload?)) || e.WatcherFires? || e.Arrives? || e.ChannelEnds?
  }

  lemma OthersLeaveWire(s: State, e: Event)
    requires Next(s, e).Some? && !TouchesWire(s, e)
    ensures Next(s, e).value.wire == s.wire
  {
  }

  lemma SizeReadOk(w: Wire)
    requires WireOk(w) && w.line.None? && w.taken == 0 && w.SizeRead().Some?
    ensures var t := w.SizeRead().value;
            WireOk(t) && (t.line.Some? ==> t.taken == |t.line.value| + 1 && t.sent.None?)
  {
    assert w.Rest() == w.arrived;
  }

  lemma CopiedOk(w: Wire)
    requires WireOk(w) && w.line.Some? && w.line.value != [] && w.sent.None? && w.taken == |w.line.value| + 1
    requires w.Countable() && w.Copied().Some?
    ensures WireOk(w.Copied().value) && w.Copied().value.line == w.line && w.Copied().value.sent.Some?
  {
    assert w.Rest() == w.arrived[w.taken..];
  }

  lemma WatchedOk(w: Wire)
    requires WireOk(w) && w.Watched().Some?
    ensures WireOk(w.Watched().value) && w.Watched().value.line == w.line && w.Watched().value.sent == w.sent
  {
    var t := w.Watched().value;
    assert w.taken <= t.taken <= |w.arrived| && t == w.(taken := t.taken);
    hide Wire.Watched, ReadLine;
  }

  lemma ArrivesOk(w: Wire, bytes: Bytes)
    requires WireOk(w) && !w.ended
    ensures WireOk(w.(arrived := w.arrived + bytes))
  {
    if w.line.Some? {
      ReadLineExtends(w.arrived, bytes);
      assert (w.arrived + bytes)[|w.line.value| + 1..] == w.arrived[|w.line.value| + 1..] + bytes;
    }
  }

  lemma WireSupervised(s: State, ok: bool)
    requires WireInv(s) && (s.pc.ReadSize? || s.pc.WritePayload?) && Supervised(s, ok).Some?
    ensures WireInv(Supervised(s, ok).value)
  {
    hide WireOk;
    if s.pc.ReadSize? {
      SizeReadOk(s.wire);
    } else if ok && s.wire.Countable() {
      CopiedOk(s.wire);
    }
  }

  lemma WireStepKeeps(s: State, e: Event)
    requires Inv(s) && WireInv(s) && Next(s, e).Some?
    ensures WireInv(Next(s, e).value)
  {
    OneByOne(s, e);
    if TouchesWire(s, e) {
      WireTouched(s, e);
    } else {
      OthersLeaveWire(s, e);
      hide Next, WireOk, Inv;
    }
  }

  lemma WireTouched(s: State, e: Event)
    requires Inv(s) && WireInv(s) && Next(s, e).Some? && TouchesWire(s, e)
    ensures WireInv(Next(s, e).value)
  {
    if e.Supervise? && (s.pc.ReadSize? || s.pc.WritePayload?) {
      WireSupervised(s, e.ok);
    } else if e.WatcherFires? {
      assert s.log.armed && Rank(s.pc) > 17;
      WatchedOk(s.wire);
    } else if e.Arrives? {
      ArrivesOk(s.wire, e.bytes);
    }
  }
}
