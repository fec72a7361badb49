/** What is left of the runtime directory and the launcher, whatever interrupts
    the supervisor's cleanup. */
module SupervisorCleanup {
  import opened Options
  import opened Bytes
  import opened Framing
  import opened Supervisor
  import opened SupervisorInvariant

  /** The directory is there while it holds a FIFO, and while a launcher or a
      child that has yet to start one is alive. */
  predicate DirectoryKept(r: nat, v: Vars, f: Files, g: Group) {
    && (3 <= r <= 5 && v.made ==> f.dir)
    && (6 <= r <= 17 ==> f.dir)
    && (!f.NoFifo() ==> f.dir)
    && (!g.launcher.Gone() ==> f.dir)
    && (g.launcher.NoLauncher? && (g.child.Forked? || g.child.Leader?) ==> f.dir)
  }

  predicate DirectoryInv(s: State) {
    DirectoryKept(Rank(s.pc), s.vars, s.files, s.group)
  }

  lemma StartupKeepsDirectory(s: State, ok: bool)
    requires Inv(s) && DirectoryInv(s) && Startup(s, ok).Some?
    ensures DirectoryInv(Startup(s, ok).value)
  {
    hide Wire.SizeRead, Ordered;
  }

  lemma LaunchKeepsDirectory(s: State, ok: bool)
    requires DirectoryInv(s) && Launch(s, ok).Some?
    ensures DirectoryInv(Launch(s, ok).value)
  {
  }

  lemma RegisterKeepsDirectory(s: State, ok: bool)
    requires DirectoryInv(s) && Register(s, ok).Some?
    ensures DirectoryInv(Register(s, ok).value)
  {
    hide Wire.Copied;
  }

  lemma AwaitKeepsDirectory(s: State)
    requires DirectoryInv(s) && Await(s).Some?
    ensures DirectoryInv(Await(s).value)
  {
  }

  lemma HandleKeepsDirectory(s: State)
    requires DirectoryInv(s) && Handle(s).Some?
    ensures DirectoryInv(Handle(s).value)
  {
  }

  lemma CleanKeepsDirectory(s: State)
    requires DirectoryInv(s) && Clean(s).Some?
    ensures DirectoryInv(Clean(s).value)
  {
  }

  lemma SweepKeepsDirectory(s: State)
    requires Inv(s) && DirectoryInv(s) && Sweep(s).Some?
    ensures DirectoryInv(Sweep(s).value)
  {
    hide FilesKnown;
  }

  lemma SupervisedKeepsDirectory(s: State, ok: bool)
    requires Inv(s) && DirectoryInv(s) && Supervised(s, ok).Some?
    ensures DirectoryInv(Supervised(s, ok).value)
  {
    hide Inv, DirectoryInv, Startup, Launch, Register, Await, Handle, Clean, Sweep;
    if Startup(s, ok).Some? {
      StartupKeepsDirectory(s, ok);
    } else if Launch(s, ok).Some? {
      LaunchKeepsDirectory(s, ok);
    } else if Register(s, ok).Some? {
      RegisterKeepsDirectory(s, ok);
    } else if Await(s).Some? {
      AwaitKeepsDirectory(s);
    } else if Handle(s).Some? {
      HandleKeepsDirectory(s);
    } else if Clean(s).Some? {
      CleanKeepsDirectory(s);
    } else {
      SweepKeepsDirectory(s);
    }
  }

  lemma OthersKeepDirectory(s: State, e: Event)
    requires Inv(s) && DirectoryInv(s) && Next(s, e).Some? && !e.Supervise?
    ensures DirectoryInv(Next(s, e).value)
  {
    hide FilesKnown, Cleaned, Wire.Watched;
  }

  lemma StepKeepsDirectory(s: State, e: Event)
    requires Inv(s) && DirectoryInv(s) && Next(s, e).Some?
    ensures DirectoryInv(Next(s, e).value)
  {
    if e.Supervise? {
      SupervisedKeepsDirectory(s, e.ok);
      hide Supervised, Inv, DirectoryInv;
    } else {
      OthersKeepDirectory(s, e);
      hide Next, Inv, DirectoryInv;
    }
  }

  // Once a signal was handled inside cleanup.

  /** From then on the supervisor removes nothing: only the watcher can still
      remove the directory. */
  lemma LateStep(s: State, e: Event)
    requires Inv(s) && s.vars.late && Next(s, e).Some?
    ensures var t := Next(s, e).value;
            && t.vars.late && t.log.registered == s.log.registered
            && (t.files.dir <==> s.files.dir && !e.WatcherSweeps?)
  {
    if e.Supervise? {
      LateSupervised(s, e.ok);
      hide Supervised, Inv;
    } else {
      LateElsewhere(s, e);
      hide Next, Inv;
    }
  }

  lemma LateElsewhere(s: State, e: Event)
    requires Inv(s) && s.vars.late && Next(s, e).Some? && !e.Supervise?
    ensures var t := Next(s, e).value;
            && t.vars.late && t.log.registered == s.log.registered
            && (t.files.dir <==> s.files.dir && !e.WatcherSweeps?)
  {
    assert !s.pc.Mkfifo?;
    hide Inv, ChildMoves, LauncherMoves, WireMoves;
    if ChildMoves(s, e).Some? {
      ChildLeavesFiles(s, e);
    } else if LauncherMoves(s, e).Some? {
      LauncherLeavesDirectory(s, e);
    } else if WireMoves(s, e).Some? {
      WireLeavesFiles(s, e);
    }
  }

  lemma ChildLeavesFiles(s: State, e: Event)
    requires ChildMoves(s, e).Some?
    ensures var t := ChildMoves(s, e).value;
            t.vars == s.vars && t.files == s.files && t.log.registered == s.log.registered && !e.WatcherSweeps?
  {
  }

  lemma LauncherLeavesDirectory(s: State, e: Event)
    requires LauncherMoves(s, e).Some?
    ensures var t := LauncherMoves(s, e).value;
            t.vars == s.vars && t.log == s.log && (t.files.dir <==> s.files.dir && !e.WatcherSweeps?)
  {
    hide Wire.Watched;
  }

  lemma WireLeavesFiles(s: State, e: Event)
    requires WireMoves(s, e).Some?
    ensures var t := WireMoves(s, e).value;
            t.vars == s.vars && t.files == s.files && t.log == s.log && !e.WatcherSweeps?
  {
  }

  lemma LateSupervised(s: State, ok: bool)
    requires Inv(s) && s.vars.late && Supervised(s, ok).Some?
    ensures Supervised(s, ok) == Handle(s)
  {
    hide GroupKnown, Ordered, FilesKnown;
  }

  /** The events that end a launcher or watcher after that: its own end, its
      failure to read the gate, the end of its sweep, and SIGKILL to the group
      while it is in it. */
  predicate EndsLauncher(s: State, e: Event) {
    || e.LauncherDies?
    || (e.LauncherReads? && !e.ok)
    || e.WatcherSweeps?
    || (e.Supervise? && s.pc.HandlerKill? && s.group.launcher.InGroup())
  }

  lemma LateLauncher(s: State, e: Event)
    requires Inv(s) && s.vars.late && s.log.registered && Next(s, e).Some?
    ensures Next(s, e).value.group.launcher.Gone() <==> s.group.launcher.Gone() || EndsLauncher(s, e)
  {
    hide FilesKnown, Wire.Watched;
    if e.Supervise? {
      LateSupervised(s, e.ok);
      hide Supervised;
    }
  }

  /** A launcher that outlives the supervisor was registered. */
  lemma SurvivorWasRegistered(s: State)
    requires Inv(s) && s.pc.Dead? && !s.group.launcher.Gone()
    ensures s.log.registered
  {
  }

  // What the watcher does once the channel is lost.

  /** Nothing of the group is alive, and nothing can be started in it again. */
  predicate GoneForGood(g: Group) {
    g.Gone() && g.child.Ended? && !g.launcher.NoLauncher?
  }

  lemma SupervisedLeavesGone(s: State, ok: bool)
    requires GoneForGood(s.group) && !s.pc.Fork? && Supervised(s, ok).Some?
    ensures GoneForGood(Supervised(s, ok).value.group)
  {
    hide Startup, Launch, Register, Await, Handle, Clean, Sweep, GoneForGood;
    if Startup(s, ok).Some? {
      StartupLeavesGone(s, ok);
    } else if Launch(s, ok).Some? {
      LaunchLeavesGone(s, ok);
    } else if Register(s, ok).Some? {
      RegisterLeavesGone(s, ok);
    } else if Await(s).Some? {
      AwaitLeavesGone(s);
    } else if Handle(s).Some? {
      HandleLeavesGone(s);
    } else if Clean(s).Some? {
      CleanLeavesGone(s);
    } else {
      SweepLeavesGone(s);
    }
  }

  lemma StartupLeavesGone(s: State, ok: bool)
    requires Startup(s, ok).Some?
    ensures Startup(s, ok).value.group == s.group
  {
    hide Wire.SizeRead;
  }

  lemma LaunchLeavesGone(s: State, ok: bool)
    requires Launch(s, ok).Some? && !s.pc.Fork?
    ensures Launch(s, ok).value.group == s.group
  {
  }

  lemma RegisterLeavesGone(s: State, ok: bool)
    requires Register(s, ok).Some?
    ensures Register(s, ok).value.group == s.group
  {
    hide Wire.Copied;
  }

  lemma AwaitLeavesGone(s: State)
    requires GoneForGood(s.group) && Await(s).Some?
    ensures GoneForGood(Await(s).value.group)
  {
  }

  lemma HandleLeavesGone(s: State)
    requires GoneForGood(s.group) && Handle(s).Some?
    ensures GoneForGood(Handle(s).value.group)
  {
  }

  lemma CleanLeavesGone(s: State)
    requires GoneForGood(s.group) && Clean(s).Some?
    ensures GoneForGood(Clean(s).value.group)
  {
  }

  lemma SweepLeavesGone(s: State)
    requires Sweep(s).Some?
    ensures Sweep(s).value.group == s.group
  {
  }

  lemma OthersLeaveGone(s: State, e: Event)
    requires GoneForGood(s.group) && Next(s, e).Some? && !e.Supervise?
    ensures GoneForGood(Next(s, e).value.group)
  {
    hide Wire.Watched;
  }

  lemma StaysGone(s: State, e: Event)
    requires Inv(s) && GoneForGood(s.group) && Next(s, e).Some?
    ensures GoneForGood(Next(s, e).value.group)
  {
    assert !s.pc.Fork?;
    hide Inv, GoneForGood;
    if e.Supervise? {
      SupervisedLeavesGone(s, e.ok);
      hide Supervised;
    } else {
      OthersLeaveGone(s, e);
      hide Next;
    }
  }

  lemma KillEmptiesGroup(s: State)
    requires Inv(s) && Next(s, WatcherKills).Some?
    ensures Next(s, WatcherKills).value == s.(group := Group(Ended, false, Sweeping))
  {
    hide FilesKnown, Cleaned;
  }

  lemma WatcherSees(s: State)
    requires WireInv(s) && s.group.launcher.Watching? && s.wire.ended
    ensures s.wire.Watched().Some?
    ensures Next(s, WatcherFires) == Some(s.(group := s.group.(launcher := Firing), wire := s.wire.Watched().value))
  {
    hide Wire.Rest;
  }

  /** A watcher outside the group fires exactly if the channel has ended, or a line
      has come over it that nobody has read. */
  lemma WatcherFiresExactly(s: State)
    ensures Next(s, WatcherFires).Some? <==> s.group.launcher.Watching? && (s.wire.ended || NEWLINE in s.wire.Rest())
  {
    hide Wire.Rest;
    var line := ReadLine(s.wire.Rest());
    if line.Some? {
      assert NEWLINE in s.wire.Rest();
    }
  }

  lemma WatcherEnds(s: State)
    requires s.group.launcher.Sweeping?
    ensures Next(s, WatcherSweeps) == Some(s.(group := s.group.(launcher := Stopped), files := Files(false, false, false, false)))
  {
  }

  /** A watcher whose channel has ended can always fire, kill and sweep, whatever
      the supervisor is doing and whatever is left of the command; after that the
      group is empty, the directory and the FIFOs are gone, and so is the watcher. */
  lemma ChannelLossCleansUp(s: State)
    requires Inv(s) && WireInv(s) && s.group.launcher.Watching? && s.wire.ended
    ensures Next(s, WatcherFires).Some?
    ensures var fired := Next(s, WatcherFires).value;
            && Next(fired, WatcherKills).Some?
            && Next(Next(fired, WatcherKills).value, WatcherSweeps).Some?
            && var swept := Next(Next(fired, WatcherKills).value, WatcherSweeps).value;
               && swept.group == Group(Ended, false, Stopped)
               && swept.files == Files(false, false, false, false)
               && swept.pc == s.pc
  {
    WatcherSees(s);
    StepKeeps(s, WatcherFires);
    var fired := Next(s, WatcherFires).value;
    WatcherShoots(fired);
    KillEmptiesGroup(fired);
    WatcherEnds(fired.(group := Group(Ended, false, Sweeping)));
    hide Inv, WireInv, Wire.Watched, Next;
  }

  lemma WatcherShoots(s: State)
    requires s.group.launcher.Firing?
    ensures Next(s, WatcherKills).Some?
  {
  }
}
