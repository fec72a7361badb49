/** The main results about runs of the remote supervisor. */
module SupervisorRuns {
  import opened Options
  import opened Bytes
  import opened Framing
  import opened Supervisor
  import opened SupervisorInvariant
  import opened SupervisorCleanup

  lemma RunStep(ss: seq<State>, es: seq<Event>, i: nat)
    requires IsRun(ss, es) && i < |es|
    ensures Next(ss[i], es[i]).Some? && Next(ss[i], es[i]).value == ss[i + 1]
  {
    assert Follows(ss, es, i);
  }

  lemma {:induction false} RunInv(ss: seq<State>, es: seq<Event>, i: nat)
    requires IsRun(ss, es) && i < |ss|
    ensures Inv(ss[i]) && WireInv(ss[i]) && DirectoryInv(ss[i])
  {
    if i > 0 {
      hide Inv, WireInv, DirectoryInv, Next;
      RunInv(ss, es, i - 1);
      RunStep(ss, es, i - 1);
      StepKeeps(ss[i - 1], es[i - 1]);
      WireStepKeeps(ss[i - 1], es[i - 1]);
      StepKeepsDirectory(ss[i - 1], es[i - 1]);
    }
  }

  /** Outside the command's process group, and alive. */
  predicate Detached(launcher: Launcher) {
    !launcher.InGroup() && !launcher.Gone()
  }

  /** In every run the watcher is outside the command's process group only after
      its pid was registered and the command was sent the whole payload, or all
      of it that came before the channel ended. */
  lemma WatcherLeavesLast(ss: seq<State>, es: seq<Event>, i: nat)
    requires IsRun(ss, es) && i < |ss| && Detached(ss[i].group.launcher)
    ensures var w := ss[i].wire;
            && ss[i].log.registered
            && w.Countable() && w.sent.Some?
            && (|w.sent.value| == Value(w.line.value) || (|w.sent.value| < Value(w.line.value) && w.ended))
  {
    RunInv(ss, es, i);
  }

  /** What was sent to the command is what Framing says of the whole channel, and
      what the watcher may read is the rest. */
  lemma SentIsAccepted(ss: seq<State>, es: seq<Event>, i: nat)
    requires IsRun(ss, es) && i < |ss| && ss[i].wire.sent.Some?
    ensures var w := ss[i].wire;
            && w.line.Some? && |w.line.value| + 1 + |w.sent.value| <= w.taken <= |w.arrived|
            && Framing.Supervise(w.arrived) == Accepted(w.sent.value, w.arrived[|w.line.value| + 1 + |w.sent.value|..])
  {
    RunInv(ss, es, i);
    var w := ss[i].wire;
    var start := |w.line.value| + 1;
    assert w.arrived[start..][..|w.sent.value|] == w.sent.value;
    assert w.arrived[start..][|w.sent.value|..] == w.arrived[start + |w.sent.value|..];
  }

  /** The command is sent the whole payload exactly when that many bytes follow
      the size line. */
  lemma WholePayloadExactly(ss: seq<State>, es: seq<Event>, i: nat)
    requires IsRun(ss, es) && i < |ss| && ss[i].wire.sent.Some?
    ensures var w := ss[i].wire;
            && w.Countable()
            && (|w.sent.value| == Value(w.line.value) <==> |w.arrived| >= |w.line.value| + 1 + Value(w.line.value))
  {
    RunInv(ss, es, i);
  }

  /** From the client's end: of a framed payload, cut anywhere or followed by
      anything, the command is sent the payload exactly when all of the frame
      has come. */
  lemma FramedPayloadExactly(ss: seq<State>, es: seq<Event>, i: nat, payload: Bytes)
    requires IsRun(ss, es) && i < |ss| && ss[i].wire.sent.Some?
    requires ss[i].wire.arrived <= Frame(payload) || Frame(payload) <= ss[i].wire.arrived
    ensures ss[i].wire.sent == Some(payload) <==> Frame(payload) <= ss[i].wire.arrived
  {
    RunInv(ss, es, i);
    if Frame(payload) <= ss[i].wire.arrived {
      WholeFrame(ss[i].wire, payload);
    } else {
      CutFrameSent(ss[i].wire, payload);
    }
  }

  lemma WholeFrame(w: Wire, payload: Bytes)
    requires WireOk(w) && w.sent.Some? && Frame(payload) <= w.arrived
    ensures w.sent == Some(payload)
  {
    var size, frame := Decimal(|payload|), Frame(payload);
    ReadLineIs(size, payload);
    DecimalValue(|payload|);
    ReadLineExtends(frame, w.arrived[|frame|..]);
    assert frame + w.arrived[|frame|..] == w.arrived;
    hide Decimal;
    assert w.arrived[|size| + 1..|frame|] == payload;
  }

  lemma CutFrameSent(w: Wire, payload: Bytes)
    requires WireOk(w) && w.sent.Some? && w.arrived <= Frame(payload) && w.arrived != Frame(payload)
    ensures |w.sent.value| < |payload|
  {
    var frame := Frame(payload);
    ReadLineIs(Decimal(|payload|), payload);
    ReadLineExtends(w.arrived, frame[|w.arrived|..]);
    assert w.arrived + frame[|w.arrived|..] == frame;
  }

  /** Step `m` is a signal handled between two commands of cleanup. */
  ghost predicate Interrupts(ss: seq<State>, es: seq<Event>, m: nat)
    requires |ss| == |es| + 1 && m < |es|
  {
    es[m].Signal? && Cleaning(ss[m].pc)
  }

  lemma {:induction false} NeverLate(ss: seq<State>, es: seq<Event>, k: nat)
    requires IsRun(ss, es) && k < |ss| && forall m | 0 <= m < k :: !Interrupts(ss, es, m)
    ensures !ss[k].vars.late
  {
    if k > 0 {
      NeverLate(ss, es, k - 1);
      RunInv(ss, es, k - 1);
      RunStep(ss, es, k - 1);
      assert !Interrupts(ss, es, k - 1);
      hide Inv, Next, WireInv, DirectoryInv;
      StepKeeps(ss[k - 1], es[k - 1]);
    }
  }

  /** The watcher finished its sweep between two states of a run. */
  predicate Swept(es: seq<Event>, m: nat, k: nat)
    requires m <= k <= |es|
  {
    exists i | m <= i < k :: es[i].WatcherSweeps?
  }

  /** A signal inside cleanup is final: the supervisor removes nothing more. */
  lemma {:induction false} LateRun(ss: seq<State>, es: seq<Event>, m: nat, k: nat)
    requires IsRun(ss, es) && m < k < |ss| && Interrupts(ss, es, m)
    ensures ss[k].vars.late && ss[k].log.registered == ss[m].log.registered
    ensures ss[k].files.dir <==> ss[m].files.dir && !Swept(es, m, k)
  {
    hide Inv, Next, WireInv, DirectoryInv, Follows;
    SweptNext(es, m, k - 1);
    if k == m + 1 {
      AtSignal(ss, es, m);
    } else {
      RunInv(ss, es, k - 1);
      RunStep(ss, es, k - 1);
      LateRun(ss, es, m, k - 1);
      LateStep(ss[k - 1], es[k - 1]);
    }
  }

  lemma AtSignal(ss: seq<State>, es: seq<Event>, m: nat)
    requires IsRun(ss, es) && m < |es| && Interrupts(ss, es, m)
    ensures ss[m + 1].vars.late && ss[m + 1].log == ss[m].log
    ensures ss[m + 1].files == ss[m].files && ss[m + 1].group == ss[m].group
  {
    RunInv(ss, es, m);
    RunStep(ss, es, m);
    hide WireInv, DirectoryInv;
    assert Next(ss[m], es[m]) == Signalled(ss[m]);
    SignalledLate(ss[m]);
  }

  lemma SweptNext(es: seq<Event>, m: nat, k: nat)
    requires m <= k < |es|
    ensures Swept(es, m, k + 1) <==> Swept(es, m, k) || es[k].WatcherSweeps?
  {
  }

  lemma SignalledLate(s: State)
    requires Inv(s) && Cleaning(s.pc) && Signalled(s).Some?
    ensures var t := Signalled(s).value;
            && t.vars.late && t.log == s.log && t.files == s.files
            && t.group == s.group
  {
  }

  predicate NoFiles(s: State) {
    s.files == Files(false, false, false, false)
  }

  lemma NoFilesMeansNoDirectory(s: State)
    requires DirectoryInv(s)
    ensures NoFiles(s) <==> !s.files.dir
    ensures NoFiles(s) ==> s.group.launcher.Gone()
  {
  }

  /** When the supervisor is gone, by whatever route and whenever signals came:
      no process of the command's group is alive unless the command had already
      ended and been let go; every FIFO and the runtime directory are gone exactly
      if no signal met cleanup, or met it with nothing left to remove, or the
      watcher has swept since; and then the launcher and watcher are gone too. */
  lemma ExitIsClean(ss: seq<State>, es: seq<Event>, k: nat)
    requires IsRun(ss, es) && k < |ss| && ss[k].pc.Dead?
    ensures !ss[k].log.released ==> ss[k].group.Gone()
    ensures NoFiles(ss[k]) <==>
              forall m | 0 <= m < k && Interrupts(ss, es, m) :: NoFiles(ss[m]) || Swept(es, m, k)
    ensures NoFiles(ss[k]) ==> ss[k].group.launcher.Gone()
  {
    RunInv(ss, es, k);
    NoFilesMeansNoDirectory(ss[k]);
    assert !ss[k].vars.late ==> NoFiles(ss[k]);
    forall m | 0 <= m < k && Interrupts(ss, es, m)
      ensures NoFiles(ss[k]) <==> NoFiles(ss[m]) || Swept(es, m, k)
    {
      hide Inv, WireInv, DirectoryInv;
      RunInv(ss, es, m);
      NoFilesMeansNoDirectory(ss[m]);
      LateRun(ss, es, m, k);
    }
    hide Inv, WireInv, DirectoryInv, NoFiles;
    if forall m | 0 <= m < k :: !Interrupts(ss, es, m) {
      NeverLate(ss, es, k);
    }
  }

  /** Something ended the launcher or watcher between two states of a run. */
  predicate LauncherEnded(ss: seq<State>, es: seq<Event>, m: nat, k: nat)
    requires |ss| == |es| + 1 && m <= k <= |es|
  {
    exists i | m <= i < k :: EndsLauncher(ss[i], es[i])
  }

  lemma {:induction false} LauncherRun(ss: seq<State>, es: seq<Event>, m: nat, k: nat)
    requires IsRun(ss, es) && m < k < |ss| && Interrupts(ss, es, m) && ss[m].log.registered
    ensures ss[k].group.launcher.Gone() <==> ss[m].group.launcher.Gone() || LauncherEnded(ss, es, m, k)
  {
    hide Inv, Next, WireInv, DirectoryInv, Follows, Launcher.Gone;
    EndedNext(ss, es, m, k - 1);
    if k == m + 1 {
      AtSignal(ss, es, m);
      assert !EndsLauncher(ss[m], es[m]);
    } else {
      hide EndsLauncher;
      RunInv(ss, es, k - 1);
      RunStep(ss, es, k - 1);
      LauncherRun(ss, es, m, k - 1);
      LateRun(ss, es, m, k - 1);
      LateLauncher(ss[k - 1], es[k - 1]);
    }
  }

  lemma EndedNext(ss: seq<State>, es: seq<Event>, m: nat, k: nat)
    requires |ss| == |es| + 1 && m <= k < |es|
    ensures LauncherEnded(ss, es, m, k + 1) <==> LauncherEnded(ss, es, m, k) || EndsLauncher(ss[k], es[k])
  {
    hide EndsLauncher;
  }

  /** Nobody in cleanup's place stops the watcher: after a signal inside cleanup a
      registered launcher or watcher outlives the supervisor exactly if it was
      alive at the signal and nothing else ended it since; an unregistered one
      never does. */
  lemma LauncherGoneExactly(ss: seq<State>, es: seq<Event>, m: nat, k: nat)
    requires IsRun(ss, es) && m < k < |ss| && Interrupts(ss, es, m) && ss[k].pc.Dead?
    ensures ss[k].group.launcher.Gone() <==>
              !ss[m].log.registered || ss[m].group.launcher.Gone() || LauncherEnded(ss, es, m, k)
  {
    RunInv(ss, es, k);
    LateRun(ss, es, m, k);
    if !ss[k].group.launcher.Gone() {
      SurvivorWasRegistered(ss[k]);
    }
    hide Inv, WireInv, DirectoryInv, Launcher.Gone;
    if ss[m].log.registered {
      LauncherRun(ss, es, m, k);
    }
  }

  /** The supervisor alone, for up to `n` commands that succeed. */
  function Alone(s: State, n: nat): State
    decreases n
  {
    if n == 0 || Supervised(s, true).None? then s else Alone(Supervised(s, true).value, n - 1)
  }

  lemma OnlyHandles(s: State)
    requires s.pc.HandlerTerm? || s.pc.HandlerKill? || s.pc.HandlerWait?
    ensures Supervised(s, true) == Handle(s)
  {
  }

  lemma OnlyDead(s: State)
    requires s.pc.Dead?
    ensures Supervised(s, true) == None
  {
  }

  /** One command of a handler that interrupted cleanup. */
  lemma HandlerSteps(s: State) returns (t: State)
    requires Inv(s) && DirectoryInv(s) && s.vars.late && (s.pc.HandlerTerm? || s.pc.HandlerKill? || s.pc.HandlerWait?)
    ensures Supervised(s, true) == Some(t) && Inv(t) && DirectoryInv(t)
    ensures t.files == s.files && t.vars.late
    ensures s.pc.HandlerTerm? && s.vars.child ==> t.pc.HandlerKill?
    ensures s.pc.HandlerKill? ==> t.pc.HandlerWait?
    ensures s.pc.HandlerWait? || (s.pc.HandlerTerm? && !s.vars.child) ==> t.pc.Dead?
  {
    OnlyHandles(s);
    HandleKeeps(s);
    HandleKeepsDirectory(s);
    t := Handle(s).value;
  }

  /** Both exceptions are real. First, a signal at any command of cleanup ends the
      supervisor, left alone, within three more of its commands, with every file
      it had not yet removed. */
  lemma SignalInCleanupLeavesFiles(s: State)
    requires Inv(s) && DirectoryInv(s) && Cleaning(s.pc)
    ensures Signalled(s).Some?
    ensures var end := Alone(Signalled(s).value, 3);
            end.pc.Dead? && end.files == s.files && DirectoryInv(end)
  {
    SignalKeeps(s);
    SignalledLate(s);
    hide Inv, DirectoryKept;
    var h := Signalled(s).value;
    var t := HandlerSteps(h);
    if s.vars.child {
      var k := HandlerSteps(t);
      var d := HandlerSteps(k);
      assert Alone(k, 1) == d;
      assert Alone(t, 2) == d;
    } else {
      OnlyDead(t);
      assert Alone(t, 2) == t;
    }
  }

  /** So a supervisor left alone after such a signal leaves neither a file nor a
      launcher exactly when the signal found nothing left to remove. */
  lemma InterruptedCleansExactly(ss: seq<State>, es: seq<Event>, k: nat)
    requires IsRun(ss, es) && k < |es| && Interrupts(ss, es, k)
    ensures var end := Alone(ss[k + 1], 3);
            end.pc.Dead? && (NoFiles(end) && end.group.launcher.Gone() <==> NoFiles(ss[k]))
  {
    RunInv(ss, es, k);
    RunStep(ss, es, k);
    assert Next(ss[k], es[k]) == Signalled(ss[k]);
    SignalInCleanupLeavesFiles(ss[k]);
    NoFilesMeansNoDirectory(Alone(ss[k + 1], 3));
  }

  /** Second, once the command was let go the supervisor spares its group: what
      the command left running in the background is still running after any
      further command of the supervisor, and after any signal. */
  lemma ReleasedGroupIsSpared(s: State, e: Event)
    requires Inv(s) && s.log.released && (e.Supervise? || e.FifosFail? || e.Signal?) && Next(s, e).Some?
    ensures Next(s, e).value.log.released
    ensures Next(s, e).value.group.others == s.group.others
  {
    hide FilesKnown, Cleaned;
  }

  lemma {:induction false} StaysGoneRun(ss: seq<State>, es: seq<Event>, i: nat, j: nat)
    requires IsRun(ss, es) && i <= j < |ss|
    requires GoneForGood(ss[i].group)
    ensures GoneForGood(ss[j].group)
  {
    if i < j {
      StaysGoneRun(ss, es, i, j - 1);
      RunInv(ss, es, j - 1);
      RunStep(ss, es, j - 1);
      hide Inv, WireInv, DirectoryInv;
      StaysGone(ss[j - 1], es[j - 1]);
    }
  }

  /** Nothing of the command's group outlives the watcher's SIGKILL: neither the
      command, nor its descendants, nor what was left running after it. */
  lemma NothingOutlivesTheWatcher(ss: seq<State>, es: seq<Event>, i: nat, j: nat)
    requires IsRun(ss, es) && i < j < |ss| && es[i].WatcherKills?
    ensures ss[j].group.Gone()
  {
    RunInv(ss, es, i);
    RunStep(ss, es, i);
    KillEmptiesGroup(ss[i]);
    StaysGoneRun(ss, es, i + 1, j);
  }

  // What a signal does.

  /** On its way out: handling a signal, cleaning up, or about to notice one that
      came in a critical section. */
  predicate Leaving(s: State) {
    || Rank(s.pc) >= 30
    || (s.vars.pending && (2 <= Rank(s.pc) <= 5 || 10 <= Rank(s.pc) <= 13))
  }

  /** The commands left, at most. */
  function Left(s: State): nat {
    var r := Rank(s.pc);
    if r == 48 then 0
    else if r >= 40 then 48 - r
    else if r >= 30 then 12 + 32 - r
    else if r >= 10 then 12 + 14 - r
    else if r <= 5 then 12 + 6 - r
    else 0
  }

  predicate LeavesOn(s: State, t: State) {
    Leaving(t) && Left(t) < Left(s) && t.log.released == s.log.released
  }

  lemma StartupLeaves(s: State)
    requires Inv(s) && s.vars.pending && 2 <= Rank(s.pc) <= 5
    ensures Startup(s, true).Some? && LeavesOn(s, Startup(s, true).value)
  {
    hide GroupKnown, Ordered, FilesKnown;
  }

  lemma LaunchLeaves(s: State)
    requires Inv(s) && s.vars.pending && 10 <= Rank(s.pc) <= 13
    ensures Startup(s, true) == None && Launch(s, true).Some? && LeavesOn(s, Launch(s, true).value)
  {
    hide GroupKnown, Ordered, FilesKnown;
  }

  lemma HandlerLeaves(s: State)
    requires Inv(s) && 30 <= Rank(s.pc) <= 32
    ensures Supervised(s, true) == Handle(s) && Handle(s).Some? && LeavesOn(s, Handle(s).value)
  {
    OnlyHandles(s);
    hide Supervised, FilesKnown, Ordered, Cleaned;
    if s.pc.HandlerTerm? {
      TermLeaves(s);
      hide Handle, LeavesOn;
    }
  }

  lemma TermLeaves(s: State)
    requires s.pc.HandlerTerm?
    ensures Handle(s).Some? && LeavesOn(s, Handle(s).value)
  {
    assert Handle(s).value.log == s.log;
    assert Handle(s).value.pc == HandlerKill || Handle(s).value.pc == Dead || Handle(s).value.pc == CleanTerm;
    hide Handle;
  }

  lemma CleanLeaves(s: State)
    requires Inv(s) && 40 <= Rank(s.pc) <= 43
    ensures Clean(s).Some? && LeavesOn(s, Clean(s).value)
    ensures Startup(s, true) == None && Launch(s, true) == None && Register(s, true) == None && Await(s) == None && Handle(s) == None
  {
    hide FilesKnown, Ordered, Cleaned;
  }

  lemma SweepLeaves(s: State)
    requires 44 <= Rank(s.pc) <= 47
    ensures Sweep(s).Some? && LeavesOn(s, Sweep(s).value)
    ensures Startup(s, true) == None && Launch(s, true) == None && Register(s, true) == None && Await(s) == None
    ensures Handle(s) == None && Clean(s) == None
  {
  }

  lemma LeavesByOne(s: State)
    requires Inv(s) && Leaving(s) && !s.pc.Dead?
    ensures Supervised(s, true).Some? && LeavesOn(s, Supervised(s, true).value)
  {
    hide Inv, LeavesOn, Startup, Launch, Register, Await, Handle, Clean, Sweep;
    var r := Rank(s.pc);
    if r <= 5 {
      StartupLeaves(s);
    } else if r <= 13 {
      LaunchLeaves(s);
    } else if r <= 32 {
      HandlerLeaves(s);
    } else if r <= 43 {
      CleanLeaves(s);
    } else {
      SweepLeaves(s);
    }
  }

  lemma {:induction false} LeavesAlone(s: State, n: nat)
    requires Inv(s) && Leaving(s) && Left(s) <= n
    ensures Alone(s, n).pc.Dead? && Alone(s, n).log.released == s.log.released && Inv(Alone(s, n))
    decreases n
  {
    if s.pc.Dead? {
      OnlyDead(s);
      hide Inv, Supervised;
    } else {
      hide Inv, Leaving, Left, Supervised, Alone;
      LeavesByOne(s);
      SupervisedKeeps(s);
      AloneStep(s, n);
      LeavesAlone(Supervised(s, true).value, n - 1);
    }
  }

  lemma AloneStep(s: State, n: nat)
    requires n > 0 && Supervised(s, true).Some?
    ensures Alone(s, n) == Alone(Supervised(s, true).value, n - 1)
  {
    hide Supervised;
  }

  lemma SupervisedKeeps(s: State)
    requires Inv(s) && Supervised(s, true).Some?
    ensures Inv(Supervised(s, true).value)
  {
    StepKeeps(s, Supervise(true));
    hide Inv, Supervised;
  }

  /** HUP, INT or TERM at any point, critical or not, ends the supervisor: left
      alone it is gone after at most sixteen more commands, without waiting for
      the command or letting it go. */
  lemma SignalEndsSupervisor(s: State)
    requires Inv(s) && !s.pc.Dead?
    ensures Signalled(s).Some?
    ensures var end := Alone(Signalled(s).value, 16);
            end.pc.Dead? && end.log.released == s.log.released && (!s.log.released ==> end.group.Gone())
  {
    SignalKeeps(s);
    SignalLeaves(s);
    LeavesAlone(Signalled(s).value, 16);
    hide Signalled, Alone, Left, Leaving;
    DeadIsClean(Alone(Signalled(s).value, 16));
    hide Inv;
  }

  lemma DeadIsClean(s: State)
    requires Inv(s) && s.pc.Dead?
    ensures !s.log.released ==> s.group.Gone()
  {
  }

  lemma SignalLeaves(s: State)
    requires Inv(s) && !s.pc.Dead?
    ensures Signalled(s).Some? && Leaving(Signalled(s).value) && Left(Signalled(s).value) <= 16
    ensures Signalled(s).value.log == s.log
  {
    hide GroupKnown, Ordered, Cleaned;
  }
}
