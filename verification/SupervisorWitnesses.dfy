/** Runs of the remote supervisor, from its start, on a channel that carries the
    first `k` bytes of a payload: a lost channel, and what the exceptions in
    SupervisorRuns look like. */
module SupervisorWitnesses {
  import opened Options
  import opened Bytes
  import opened Framing
  import opened Supervisor

  lemma Extend(ss: seq<State>, es: seq<Event>, e: Event, s: State) returns (ss': seq<State>, es': seq<Event>)
    requires IsRun(ss, es) && Next(ss[|es|], e) == Some(s)
    ensures IsRun(ss', es') && ss' == ss + [s] && es' == es + [e] && ss'[|es'|] == s
  {
    hide Next;
    ss', es' := ss + [s], es + [e];
    forall i | 0 <= i < |es'| ensures Follows(ss', es', i) {
      if i < |es| {
        assert Follows(ss, es, i);
      }
    }
  }

  const GO := Supervise(true)

  function Channel(payload: Bytes, k: nat): Bytes
    requires k <= |payload|
  {
    Decimal(|payload|) + [NEWLINE] + payload[..k]
  }

  /** The channel before it is read, with its size line read, and all read. */
  function Full(payload: Bytes, k: nat, ended: bool): Wire
    requires k <= |payload|
  {
    Wire(Channel(payload, k), ended, 0, None, None)
  }

  function Sized(payload: Bytes, k: nat, ended: bool): Wire
    requires k <= |payload|
  {
    Full(payload, k, ended).(taken := |Decimal(|payload|)| + 1, line := Some(Decimal(|payload|)))
  }

  function Copied(payload: Bytes, k: nat, ended: bool): Wire
    requires k <= |payload|
  {
    Sized(payload, k, ended).(taken := |Channel(payload, k)|, sent := Some(payload[..k]))
  }

  lemma WireReads(payload: Bytes, k: nat, ended: bool)
    requires k <= |payload| <= DD_MAX_COUNT && (ended || k == |payload|)
    ensures Full(payload, k, ended).SizeRead() == Some(Sized(payload, k, ended))
    ensures Sized(payload, k, ended).Countable() && Sized(payload, k, ended).Copied() == Some(Copied(payload, k, ended))
  {
    var size := Decimal(|payload|);
    ReadLineIs(size, payload[..k]);
    DecimalValue(|payload|);
    assert Full(payload, k, ended).Rest() == Channel(payload, k);
    assert Sized(payload, k, ended).Rest() == payload[..k];
    assert payload[..k][..k] == payload[..k];
  }

  /** The supervisor with its directory, its FIFOs, its child. */
  function WithDirectory(w: Wire): State {
    INITIAL.(
      pc := NamePaths, vars := Vars(false, false, true, true, false, false, false, false),
      files := Files(true, false, false, false), wire := w)
  }

  function WithFifos(w: Wire): State {
    INITIAL.(
      pc := OpenEnds, vars := Vars(false, false, true, true, true, false, false, false),
      files := Files(true, true, true, true), wire := w)
  }

  function WithChild(w: Wire): State {
    WithFifos(w).(
      pc := ReadPid, vars := WithFifos(w).vars.(child := true), group := Group(Forked, false, NoLauncher))
  }

  /** Armed and waiting for the command. */
  function WithCommand(w: Wire, child: Child): State {
    WithChild(w).(
      pc := Wait, vars := WithChild(w).vars.(watcher := true), files := Files(true, true, true, false),
      group := Group(child, false, Blocked), log := Log(true, true, true, false))
  }

  lemma SizeLineRead(payload: Bytes, k: nat, ended: bool) returns (ss: seq<State>, es: seq<Event>)
    requires k <= |payload| <= DD_MAX_COUNT && (ended || k == |payload|)
    ensures IsRun(ss, es) && ss[|es|] == INITIAL.(pc := EnterMkdir, wire := Sized(payload, k, ended))
  {
    WireReads(payload, k, ended);
    hide Decimal, Wire.SizeRead, ReadLine;
    ss, es := ChannelFull(payload, k, ended);
    ss, es := Extend(ss, es, GO, INITIAL.(pc := EnterMkdir, wire := Sized(payload, k, ended)));
  }

  lemma ChannelFull(payload: Bytes, k: nat, ended: bool) returns (ss: seq<State>, es: seq<Event>)
    requires k <= |payload|
    ensures IsRun(ss, es) && ss[|es|] == INITIAL.(wire := Full(payload, k, ended))
  {
    hide Decimal, Channel;
    ss, es := [INITIAL], [];
    assert [] + Channel(payload, k) == Channel(payload, k);
    ss, es := Extend(ss, es, Arrives(Channel(payload, k)), INITIAL.(wire := Full(payload, k, false)));
    if ended {
      ss, es := Extend(ss, es, ChannelEnds, INITIAL.(wire := Full(payload, k, true)));
    }
  }

  lemma DirectoryMade(ss: seq<State>, es: seq<Event>, w: Wire) returns (ss': seq<State>, es': seq<Event>)
    requires IsRun(ss, es) && ss[|es|] == INITIAL.(pc := EnterMkdir, wire := w)
    ensures IsRun(ss', es') && ss'[|es'|] == WithDirectory(w)
  {
    var v := Vars(true, false, false, false, false, false, false, false);
    var s := INITIAL.(files := Files(true, false, false, false), wire := w);
    ss', es' := Extend(ss, es, GO, INITIAL.(pc := Mkdir, vars := v, wire := w));
    ss', es' := Extend(ss', es', GO, s.(pc := Adopt, vars := v.(made := true)));
    ss', es' := Extend(ss', es', GO, s.(pc := LeaveMkdir, vars := v.(made := true, dir := true)));
    ss', es' := Extend(ss', es', GO, s.(pc := TestMkdir, vars := WithDirectory(w).vars));
    ss', es' := Extend(ss', es', GO, WithDirectory(w));
  }

  lemma FifosMade(ss: seq<State>, es: seq<Event>, w: Wire) returns (ss': seq<State>, es': seq<Event>)
    requires IsRun(ss, es) && ss[|es|] == WithDirectory(w)
    ensures IsRun(ss', es') && ss'[|es'|] == WithFifos(w)
  {
    ss', es' := Extend(ss, es, GO, WithDirectory(w).(pc := Mkfifo, vars := WithFifos(w).vars));
    ss', es' := Extend(ss', es', GO, WithFifos(w));
  }

  lemma ChildForked(ss: seq<State>, es: seq<Event>, w: Wire) returns (ss': seq<State>, es': seq<Event>)
    requires IsRun(ss, es) && ss[|es|] == WithFifos(w)
    ensures IsRun(ss', es') && ss'[|es'|] == WithChild(w)
  {
    var s := WithFifos(w);
    var v := s.vars.(critical := true);
    var t := s.(group := Group(Forked, false, NoLauncher));
    ss', es' := Extend(ss, es, GO, s.(pc := EnterFork));
    ss', es' := Extend(ss', es', GO, s.(pc := Fork, vars := v));
    ss', es' := Extend(ss', es', GO, t.(pc := RecordChild, vars := v));
    ss', es' := Extend(ss', es', GO, t.(pc := LeaveFork, vars := v.(child := true)));
    ss', es' := Extend(ss', es', GO, WithChild(w).(pc := TestFork));
    ss', es' := Extend(ss', es', GO, WithChild(w));
  }

  lemma ChildReady(ss: seq<State>, es: seq<Event>, w: Wire) returns (ss': seq<State>, es': seq<Event>)
    requires IsRun(ss, es) && ss[|es|] == WithChild(w)
    ensures IsRun(ss', es')
    ensures ss'[|es'|] == WithChild(w).(group := Group(Leader, false, Blocked), log := Log(true, false, false, false))
  {
    var s := WithChild(w);
    ss', es' := Extend(ss, es, ChildLeads, s.(group := Group(Leader, false, NoLauncher)));
    ss', es' := Extend(ss', es', ChildLaunches, s.(group := Group(Leader, false, Blocked)));
    ss', es' := Extend(ss', es', ChildWritesPid(true),
                       s.(group := Group(Leader, false, Blocked), log := Log(true, false, false, false)));
  }

  lemma GateOpened(ss: seq<State>, es: seq<Event>, payload: Bytes, k: nat, ended: bool) returns (ss': seq<State>, es': seq<Event>)
    requires k <= |payload| <= DD_MAX_COUNT && (ended || k == |payload|)
    requires IsRun(ss, es)
    requires ss[|es|] == WithChild(Sized(payload, k, ended)).(group := Group(Leader, false, Blocked), log := Log(true, false, false, false))
    ensures IsRun(ss', es') && ss'[|es'|] == WithCommand(Copied(payload, k, ended), Leader)
  {
    hide Sized, Copied, Decimal;
    var s := WithCommand(Sized(payload, k, ended), Leader).(log := Log(true, true, false, false));
    ss', es' := Extend(ss, es, GO, s.(pc := DropPidPipe, files := Files(true, true, true, true)));
    ss', es' := Extend(ss', es', GO, s.(pc := WritePayload));
    PayloadWritten(s.(pc := WritePayload), payload, k, ended);
    ss', es' := Extend(ss', es', GO, s.(pc := Arm, wire := Copied(payload, k, ended)));
    ss', es' := Extend(ss', es', GO, WithCommand(Copied(payload, k, ended), Leader));
  }

  lemma PayloadWritten(s: State, payload: Bytes, k: nat, ended: bool)
    requires k <= |payload| <= DD_MAX_COUNT && (ended || k == |payload|)
    requires s.pc.WritePayload? && s.wire == Sized(payload, k, ended)
    ensures Next(s, GO) == Some(s.(pc := Arm, wire := Copied(payload, k, ended)))
  {
    WireReads(payload, k, ended);
    hide Sized, Copied, Decimal, Wire.Countable, Wire.Copied;
  }

  /** A run to the command's start, with the gate open. */
  lemma CommandStarted(payload: Bytes, k: nat, ended: bool) returns (ss: seq<State>, es: seq<Event>)
    requires k <= |payload| <= DD_MAX_COUNT && (ended || k == |payload|)
    ensures IsRun(ss, es) && ss[|es|] == WithCommand(Copied(payload, k, ended), Command)
  {
    ss, es := SizeLineRead(payload, k, ended);
    ss, es := DirectoryMade(ss, es, Sized(payload, k, ended));
    ss, es := FifosMade(ss, es, Sized(payload, k, ended));
    ss, es := ChildForked(ss, es, Sized(payload, k, ended));
    ss, es := ChildReady(ss, es, Sized(payload, k, ended));
    ss, es := GateOpened(ss, es, payload, k, ended);
    ss, es := Extend(ss, es, ChildExecs, WithCommand(Copied(payload, k, ended), Command));
  }

  /** Wherever the channel is cut inside a payload, there is a run in which the
      watcher leaves the group although the command was sent only what came
      before the cut. */
  lemma CutPayloadRun(payload: Bytes, k: nat) returns (ss: seq<State>, es: seq<Event>)
    requires k < |payload| <= DD_MAX_COUNT
    ensures IsRun(ss, es)
    ensures var s := ss[|es|];
            && s.wire.arrived == Decimal(|payload|) + [NEWLINE] + payload[..k] && s.wire.ended
            && s.group.child.Command? && s.group.launcher.Watching?
            && s.wire.sent == Some(payload[..k]) && s.wire.sent != Some(payload)
  {
    ss, es := CommandStarted(payload, k, true);
    var s := WithCommand(Copied(payload, k, true), Command);
    var f := s.files.(gate := false);
    ss, es := Extend(ss, es, LauncherReads(true), s.(group := Group(Command, false, Armed)));
    ss, es := Extend(ss, es, LauncherDropsGate, s.(group := Group(Command, false, Armed), files := f));
    ss, es := Extend(ss, es, LauncherDetaches, s.(group := Group(Command, false, Watching), files := f));
  }

  /** What the watcher is for. The command was sent its payload and has a process
      of its own; then the channel is lost. The watcher kills both and removes the
      files, while the supervisor has run no further command. */
  lemma ChannelLossRun(payload: Bytes) returns (ss: seq<State>, es: seq<Event>)
    requires |payload| <= DD_MAX_COUNT
    ensures IsRun(ss, es) && |es| >= 4
    ensures es[|es| - 4..] == [ChannelEnds, WatcherFires, WatcherKills, WatcherSweeps]
    ensures var s := ss[|es| - 4];
            && s.pc.Wait? && !s.wire.ended && s.wire.sent == Some(payload)
            && s.group == Group(Command, true, Watching) && s.files == Files(true, true, false, false)
    ensures var s := ss[|es|];
            s.pc.Wait? && s.group == Group(Ended, false, Stopped) && s.files == Files(false, false, false, false)
  {
    hide Next, IsRun, Decimal;
    var w := Copied(payload, |payload|, false);
    ss, es := CommandStarted(payload, |payload|, false);
    assert payload[..|payload|] == payload;
    var s: State;
    ss, es, s := BothAlive(ss, es, w);
    ss, es := Lost(ss, es, s);
  }

  lemma BothAlive(ss: seq<State>, es: seq<Event>, w: Wire) returns (ss': seq<State>, es': seq<Event>, t: State)
    requires IsRun(ss, es) && ss[|es|] == WithCommand(w, Command)
    ensures IsRun(ss', es') && ss'[|es'|] == t
    ensures t.pc.Wait? && t.wire == w && t.group == Group(Command, true, Watching) && t.files == Files(true, true, false, false)
  {
    var s := WithCommand(w, Command);
    t := s.(group := Group(Command, true, Watching), files := s.files.(gate := false));
    ss', es' := Extend(ss, es, OthersStart, s.(group := Group(Command, true, Blocked)));
    ss', es' := Extend(ss', es', LauncherReads(true), s.(group := Group(Command, true, Armed)));
    ss', es' := Extend(ss', es', LauncherDropsGate, t.(group := Group(Command, true, Armed)));
    ss', es' := Extend(ss', es', LauncherDetaches, t);
  }

  lemma NothingLeft(w: Wire)
    requires w.ended && w.taken == |w.arrived|
    ensures w.Watched() == Some(w)
  {
    assert w.Rest() == [];
  }

  lemma Lost(ss: seq<State>, es: seq<Event>, s: State) returns (ss': seq<State>, es': seq<Event>)
    requires IsRun(ss, es) && ss[|es|] == s && !s.wire.ended && s.wire.taken == |s.wire.arrived|
    requires s.group == Group(Command, true, Watching)
    ensures IsRun(ss', es') && es' == es + [ChannelEnds, WatcherFires, WatcherKills, WatcherSweeps] && ss'[|es|] == s
    ensures ss'[|es'|].pc == s.pc
    ensures ss'[|es'|].group == Group(Ended, false, Stopped) && ss'[|es'|].files == Files(false, false, false, false)
  {
    var t := s.(wire := s.wire.(ended := true));
    NothingLeft(t.wire);
    hide IsRun, Wire.Watched, Wire.Rest;
    var u := t.(files := Files(false, false, false, false), group := Group(Ended, false, Stopped));
    ss', es' := Extend(ss, es, ChannelEnds, t);
    ss', es' := Extend(ss', es', WatcherFires, t.(group := Group(Command, true, Firing)));
    ss', es' := Extend(ss', es', WatcherKills, t.(group := Group(Ended, false, Sweeping)));
    ss', es' := Extend(ss', es', WatcherSweeps, u);
  }

  /** Two signals, the second before cleanup has run a command: the supervisor is
      gone, the command too, and the watcher lives on beside the files. */
  lemma WatcherOutlivesRun(payload: Bytes) returns (ss: seq<State>, es: seq<Event>, t: State)
    requires |payload| <= DD_MAX_COUNT
    ensures IsRun(ss, es) && ss[|es|] == t
    ensures t.pc.Dead? && t.vars.late
    ensures t.group == Group(Ended, false, Watching) && t.files == Files(true, true, false, false)
    ensures t.wire.ended && t.wire.taken == |t.wire.arrived|
  {
    ss, es := CommandStarted(payload, |payload|, true);
    var s := WithCommand(Copied(payload, |payload|, true), Command);
    var f := s.files.(gate := false);
    ss, es := Extend(ss, es, LauncherReads(true), s.(group := Group(Command, false, Armed)));
    ss, es := Extend(ss, es, LauncherDropsGate, s.(group := Group(Command, false, Armed), files := f));
    var u := s.(group := Group(Command, false, Watching), files := f);
    ss, es := Extend(ss, es, LauncherDetaches, u);
    ss, es, t := TwoSignals(ss, es, u);
  }

  lemma TwoSignals(ss: seq<State>, es: seq<Event>, u: State) returns (ss': seq<State>, es': seq<Event>, t: State)
    requires IsRun(ss, es) && ss[|es|] == u
    requires u.pc.Wait? && u.vars.child && !u.vars.critical && !u.vars.late && u.group == Group(Command, false, Watching)
    ensures IsRun(ss', es') && ss'[|es'|] == t
    ensures t.pc.Dead? && t.vars.late && t.group == Group(Ended, false, Watching) && t.files == u.files && t.wire == u.wire
  {
    var v := u.(vars := u.vars.(child := false), group := Group(Ended, false, Watching));
    t := v.(pc := Dead, vars := v.vars.(late := true));
    ss', es' := FirstSignal(ss, es, u);
    ss', es' := Extend(ss', es', Signal, t.(pc := HandlerTerm));
    ss', es' := Extend(ss', es', GO, t);
  }

  /** The handler kills the command and exits into the cleanup. */
  lemma FirstSignal(ss: seq<State>, es: seq<Event>, u: State) returns (ss': seq<State>, es': seq<Event>)
    requires IsRun(ss, es) && ss[|es|] == u
    requires u.pc.Wait? && u.vars.child && !u.vars.critical && !u.vars.late && u.group == Group(Command, false, Watching)
    ensures IsRun(ss', es')
    ensures ss'[|es'|] == u.(pc := CleanTerm, vars := u.vars.(child := false), group := Group(Ended, false, Watching))
  {
    var v := u.(pc := HandlerWait, group := Group(Ended, false, Watching));
    ss', es' := Extend(ss, es, Signal, u.(pc := HandlerTerm));
    ss', es' := Extend(ss', es', GO, u.(pc := HandlerKill));
    Kills(u.(pc := HandlerKill));
    hide Next;
    ss', es' := Extend(ss', es', GO, v);
    Leaves(v);
    ss', es' := Extend(ss', es', GO, v.(pc := CleanTerm, vars := u.vars.(child := false)));
  }

  lemma Kills(s: State)
    requires s.pc.HandlerKill? && s.group == Group(Command, false, Watching)
    ensures Next(s, GO) == Some(s.(pc := HandlerWait, group := Group(Ended, false, Watching)))
  {
  }

  lemma Leaves(s: State)
    requires s.pc.HandlerWait? && s.group.child.Ended? && !s.vars.late
    ensures Next(s, GO) == Some(s.(pc := CleanTerm, vars := s.vars.(child := false)))
  {
  }

  /** In a longer run the watcher then finds the channel closed and sweeps: the
      same signals, and nothing is left. */
  lemma WatcherSweepsRun(payload: Bytes) returns (ss: seq<State>, es: seq<Event>)
    requires |payload| <= DD_MAX_COUNT
    ensures IsRun(ss, es)
    ensures var s := ss[|es|];
            s.pc.Dead? && s.vars.late && s.files == Files(false, false, false, false) && s.group == Group(Ended, false, Stopped)
  {
    var t: State;
    ss, es, t := WatcherOutlivesRun(payload);
    ss, es := Sweeps(ss, es, t);
  }

  lemma Sweeps(ss: seq<State>, es: seq<Event>, t: State) returns (ss': seq<State>, es': seq<Event>)
    requires IsRun(ss, es) && ss[|es|] == t
    requires t.group == Group(Ended, false, Watching) && t.wire.ended && t.wire.taken == |t.wire.arrived|
    ensures IsRun(ss', es')
    ensures ss'[|es'|] == t.(group := Group(Ended, false, Stopped), files := Files(false, false, false, false))
  {
    NothingLeft(t.wire);
    hide Wire.Watched;
    ss', es' := Extend(ss, es, WatcherFires, t.(group := Group(Ended, false, Firing)));
    ss', es' := Extend(ss', es', WatcherKills, t.(group := Group(Ended, false, Sweeping)));
    ss', es' := Extend(ss', es', WatcherSweeps, t.(group := Group(Ended, false, Stopped), files := Files(false, false, false, false)));
  }

  /** A command that ends with a process of its own in the background: the
      supervisor exits, all else is gone, and that process is still alive. */
  lemma BackgroundRun(payload: Bytes) returns (ss: seq<State>, es: seq<Event>)
    requires |payload| <= DD_MAX_COUNT
    ensures IsRun(ss, es)
    ensures var s := ss[|es|];
            && s.pc.Dead? && s.group.others && s.group.launcher.Gone() && s.files == Files(false, false, false, false)
            && s.wire.sent == Some(payload)
  {
    ss, es := CommandStarted(payload, |payload|, true);
    assert payload[..|payload|] == payload;
    var s := WithCommand(Copied(payload, |payload|, true), Command);
    var g := Group(Ended, true, Blocked);
    ss, es := Extend(ss, es, OthersStart, s.(group := Group(Command, true, Blocked)));
    ss, es := Extend(ss, es, ChildEnds, s.(group := g));
    ss, es := Extend(ss, es, GO, s.(group := g, pc := Release));
    var t := s.(group := g, vars := s.vars.(child := false), log := s.log.(released := true));
    ss, es := Extend(ss, es, GO, t.(pc := StopWatcher));
    ss, es := BackgroundSwept(ss, es, t);
  }

  lemma BackgroundSwept(ss: seq<State>, es: seq<Event>, t: State) returns (ss': seq<State>, es': seq<Event>)
    requires IsRun(ss, es) && ss[|es|] == t.(pc := StopWatcher)
    requires t.vars == Vars(false, false, true, true, true, false, true, false) && t.files == Files(true, true, true, false)
    requires t.group == Group(Ended, true, Blocked)
    ensures IsRun(ss', es')
    ensures ss'[|es'|] == t.(pc := Dead, vars := t.vars.(watcher := false), files := Files(false, false, false, false),
                             group := Group(Ended, true, Stopped))
  {
    var u := t.(vars := t.vars.(watcher := false), group := Group(Ended, true, Stopped));
    ss', es' := Extend(ss, es, GO, u.(pc := CleanTerm));
    ss', es' := Extend(ss', es', GO, u.(pc := CleanStop));
    ss', es' := Extend(ss', es', GO, u.(pc := CleanPayload));
    ss', es' := Extend(ss', es', GO, u.(pc := CleanGate, files := Files(true, false, true, false)));
    ss', es' := Extend(ss', es', GO, u.(pc := CleanPid, files := Files(true, false, false, false)));
    ss', es' := Extend(ss', es', GO, u.(pc := CleanDir, files := Files(true, false, false, false)));
    ss', es' := Extend(ss', es', GO, u.(pc := Dead, files := Files(false, false, false, false)));
  }

  /** A redirection fails once the FIFOs are made, and a signal meets the cleanup
      before its first command: all that was made is left behind. */
  lemma InterruptedCleanup(payload: Bytes) returns (ss: seq<State>, es: seq<Event>)
    requires |payload| <= DD_MAX_COUNT
    ensures IsRun(ss, es) && ss[|es|].pc.Dead? && ss[|es|].files == Files(true, true, true, true)
  {
    hide Next;
    var w := Sized(payload, |payload|, true);
    ss, es := SizeLineRead(payload, |payload|, true);
    ss, es := DirectoryMade(ss, es, w);
    ss, es := FifosMade(ss, es, w);
    ss, es := RedirectionFails(ss, es, w);
  }

  lemma RedirectionFails(ss: seq<State>, es: seq<Event>, w: Wire) returns (ss': seq<State>, es': seq<Event>)
    requires IsRun(ss, es) && ss[|es|] == WithFifos(w)
    ensures IsRun(ss', es') && ss'[|es'|].pc.Dead? && ss'[|es'|].files == Files(true, true, true, true)
  {
    var late := WithFifos(w).vars.(late := true);
    ss', es' := Extend(ss, es, Supervise(false), WithFifos(w).(pc := CleanTerm));
    ss', es' := Extend(ss', es', Signal, WithFifos(w).(pc := HandlerTerm, vars := late));
    ss', es' := Extend(ss', es', GO, WithFifos(w).(pc := Dead, vars := late));
  }
}
