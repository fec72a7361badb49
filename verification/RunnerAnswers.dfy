/** What a run of the command runner ends with, and why. */
module RunnerAnswers {
  import opened Options
  import opened RunnerWorld

  lemma RunStep(ws: seq<World>, es: seq<Event>, i: nat)
    requires IsRun(ws, es) && i < |es|
    ensures Next(ws[i], es[i]).Some? && Next(ws[i], es[i]).value == ws[i + 1]
  {
    assert Follows(ws, es, i);
  }

  /** An event that ends run `r` in `w` with this result. */
  predicate Ends(w: World, e: Event, r: nat, result: Result) {
    match result
    case Answered => (e == Check(r, false) && !w.books.closed) || e == Rechecked(r, false)
    case ConnectionLost =>
      || ((e == TakeLock(r) || (e.Check? && e.r == r)) && w.books.closed)
      || e == Rechecked(r, true)
    case Cancelled =>
      || e == SpawnFails(r, Cancelled) || e == CancelRun(r) || e == UntrackCancelled(r)
      || (e == Untrack(r) && r in w.runs && w.runs[r].Untracking? && w.runs[r].how.WasCancelled?)
    case SpawnError => e == SpawnFails(r, SpawnError)
  }

  predicate HasEnded(w: World, r: nat, result: Result) {
    r in w.runs && w.runs[r] == Finished(result)
  }

  /** A run has ended with a result exactly from the step on that gives it. */
  lemma EndsStep(w: World, e: Event, r: nat, result: Result)
    requires Next(w, e).Some?
    ensures HasEnded(Next(w, e).value, r, result) <==> HasEnded(w, r, result) || Ends(w, e, r, result)
  {
  }

  ghost predicate EndedBy(ws: seq<World>, es: seq<Event>, k: nat, r: nat, result: Result)
    requires |ws| == |es| + 1 && k < |ws|
  {
    exists i | 0 <= i < k :: Ends(ws[i], es[i], r, result)
  }

  /** In every run of the system: whoever lost its connection met a closed runner
      or a master that was gone; whoever was answered met neither; and so for
      the other results. */
  lemma {:induction false} ResultHasCause(ws: seq<World>, es: seq<Event>, k: nat, r: nat, result: Result)
    requires IsRun(ws, es) && k < |ws| && HasEnded(ws[k], r, result)
    ensures EndedBy(ws, es, k, r, result)
  {
    RunStep(ws, es, k - 1);
    EndsStep(ws[k - 1], es[k - 1], r, result);
    hide Next, Ends;
    if HasEnded(ws[k - 1], r, result) {
      ResultHasCause(ws, es, k - 1, r, result);
      var i :| 0 <= i < k - 1 && Ends(ws[i], es[i], r, result);
      assert Ends(ws[i], es[i], r, result);
    }
  }

  /** Nobody loses the connection of a runner that was never closed, unless the
      master is found gone after an exit status of 255. */
  lemma ConnectionLostExactly(ws: seq<World>, es: seq<Event>, k: nat, r: nat)
    requires IsRun(ws, es) && k < |ws| && HasEnded(ws[k], r, ConnectionLost)
    ensures ws[k].books.closed || exists i | 0 <= i < k :: es[i] == Rechecked(r, true)
  {
    ResultHasCause(ws, es, k, r, ConnectionLost);
    var i :| 0 <= i < k && Ends(ws[i], es[i], r, ConnectionLost);
    if ws[i].books.closed {
      NothingAfterClose(ws, es, i, k);
    }
  }

  lemma {:induction false} EndedStays(ws: seq<World>, es: seq<Event>, i: nat, j: nat, r: nat, result: Result)
    requires IsRun(ws, es) && i <= j < |ws| && HasEnded(ws[i], r, result)
    ensures HasEnded(ws[j], r, result)
  {
    if i < j {
      EndedStays(ws, es, i, j - 1, r, result);
      RunStep(ws, es, j - 1);
      EndsStep(ws[j - 1], es[j - 1], r, result);
    }
  }

  lemma {:induction false} RechecksUntilEnd(ws: seq<World>, es: seq<Event>, i: nat, j: nat, r: nat)
    requires IsRun(ws, es) && i <= j < |ws| && r in ws[i].runs && ws[i].runs[r].Rechecking?
    ensures r in ws[j].runs
    ensures forall m | i <= m < j :: es[m] != Check(r, true) && es[m] != Check(r, false)
    ensures ws[j].runs[r].Rechecking? || ws[j].runs[r].Finished?
    ensures HasEnded(ws[j], r, Answered) <==> exists m | i <= m < j :: es[m] == Rechecked(r, false)
  {
    if i < j {
      RechecksUntilEnd(ws, es, i, j - 1, r);
      RunStep(ws, es, j - 1);
      RechecksStep(ws[j - 1], es[j - 1], r);
      hide Next;
    }
  }

  lemma RechecksStep(w: World, e: Event, r: nat)
    requires Next(w, e).Some? && r in w.runs && (w.runs[r].Rechecking? || w.runs[r].Finished?)
    ensures var w' := Next(w, e).value;
            && r in w'.runs && (w'.runs[r].Rechecking? || w'.runs[r].Finished?)
            && e != Check(r, true) && e != Check(r, false)
            && (HasEnded(w', r, Answered) <==> HasEnded(w, r, Answered) || e == Rechecked(r, false))
  {
  }

  lemma CheckStep(w: World, r: nat, exit255: bool)
    requires Next(w, Check(r, exit255)).Some? && !w.books.closed
    ensures var w' := Next(w, Check(r, exit255)).value;
            r in w'.runs && w'.runs[r] == if exit255 then Rechecking else Finished(Answered)
  {
  }

  /** A run that is checked while the runner is open is answered exactly when its
      exit status is not 255 or the master is then found to be there. */
  lemma AnsweredExactly(ws: seq<World>, es: seq<Event>, i: nat, j: nat, r: nat, exit255: bool)
    requires IsRun(ws, es) && i < j < |ws| && es[i] == Check(r, exit255) && !ws[i].books.closed
    ensures HasEnded(ws[j], r, Answered) <==> !exit255 || exists m | i < m < j :: es[m] == Rechecked(r, false)
  {
    RunStep(ws, es, i);
    CheckStep(ws[i], r, exit255);
    hide Next;
    if exit255 {
      RechecksUntilEnd(ws, es, i + 1, j, r);
    } else {
      EndedStays(ws, es, i + 1, j, r, Answered);
    }
  }

  lemma Extend(ws: seq<World>, es: seq<Event>, e: Event, w: World) returns (ws': seq<World>, es': seq<Event>)
    requires IsRun(ws, es) && Next(ws[|es|], e) == Some(w)
    ensures IsRun(ws', es') && ws'[|es'|] == w
  {
    hide Next;
    ws', es' := ws + [w], es + [e];
    forall i | 0 <= i < |es'| ensures Follows(ws', es', i) {
      if i < |es| {
        assert Follows(ws, es, i);
      }
    }
  }

  /** One run, `r`, at a point, with process `p` tracked and alive or not. */
  function Only(r: nat, at: Point, p: nat, tracked: bool, alive: bool): World {
    INITIAL.(runs := map[r := at], spawned := {p}, alive := if alive then {p} else {},
             books := INITIAL.books.(tracked := if tracked then {p} else {}))
  }

  lemma Moves(ws: seq<World>, es: seq<Event>, e: Event, r: nat, a: Point, b: Point, p: nat, tracked: bool, alive: bool)
    returns (ws': seq<World>, es': seq<Event>)
    requires IsRun(ws, es) && ws[|es|] == Only(r, a, p, tracked, alive)
    requires Next(ws[|es|], e) == Some(Go(ws[|es|], r, b))
    ensures IsRun(ws', es') && ws'[|es'|] == Only(r, b, p, tracked, alive)
  {
    assert map[r := a][r := b] == map[r := b];
    ws', es' := Extend(ws, es, e, Only(r, b, p, tracked, alive));
  }

  lemma Started(r: nat, p: nat) returns (ws: seq<World>, es: seq<Event>)
    ensures IsRun(ws, es) && ws[|es|] == Only(r, Waiting(p), p, true, true)
  {
    var w := INITIAL.(runs := map[r := BeforeLock]);
    assert map[r := BeforeLock][r := Spawning] == map[r := Spawning];
    assert map[r := Spawning][r := Waiting(p)] == map[r := Waiting(p)];
    ws, es := [INITIAL], [];
    ws, es := Extend(ws, es, Begin(r), w);
    ws, es := Extend(ws, es, TakeLock(r), w.(runs := map[r := Spawning], books := INITIAL.books.(holder := Some(r))));
    var none: set<nat> := {};
    assert none + {p} == {p};
    ws, es := Extend(ws, es, Spawned(r, p), Only(r, Waiting(p), p, true, true));
  }

  lemma Left(r: nat, p: nat, how: How) returns (ws: seq<World>, es: seq<Event>)
    ensures IsRun(ws, es) && ws[|es|] == Only(r, Untracking(p, how), p, true, false)
  {
    ws, es := Started(r, p);
    assert {p} - {p} == {};
    if how.Exited? {
      ws, es := Extend(ws, es, Dies(p), Only(r, Waiting(p), p, true, false));
      ws, es := Moves(ws, es, Leaves(r, how), r, Waiting(p), Untracking(p, how), p, true, false);
    } else {
      ws, es := Moves(ws, es, Leaves(r, how), r, Waiting(p), Killing(p, how), p, true, true);
      ws, es := Extend(ws, es, Dies(p), Only(r, Killing(p, how), p, true, false));
      ws, es := Moves(ws, es, KillDone(r), r, Killing(p, how), Untracking(p, how), p, true, false);
    }
  }

  /** A command from its start to its answer: it is run, found done, forgotten and
      answered, whether it ended by itself or was killed at its timeout; and a
      cancelled one is killed and ends cancelled. */
  lemma OrdinaryRun(r: nat, p: nat, how: How) returns (ws: seq<World>, es: seq<Event>)
    ensures IsRun(ws, es) && !ws[|es|].books.closed
    ensures ws[|es|].alive == {} && ws[|es|].books.tracked == {}
    ensures HasEnded(ws[|es|], r, if how.WasCancelled? then Cancelled else Answered)
  {
    ws, es := Left(r, p, how);
    assert {p} - {p} == {};
    var at := if how.WasCancelled? then Finished(Cancelled) else Collecting;
    assert map[r := Untracking(p, how)][r := at] == map[r := at];
    ws, es := Extend(ws, es, Untrack(r), Only(r, at, p, false, false));
    if !how.WasCancelled? {
      ws, es := Moves(ws, es, Check(r, false), r, Collecting, Finished(Answered), p, false, false);
    }
  }

  lemma Killed(w: World, p: nat)
    requires p in w.snapshot && !w.returned
    ensures Next(w, CloseKills(p)) == Some(w.(alive := w.alive - {p}, killed := w.killed + {p}))
  {
  }

  lemma {:induction false} AllKilled(ws: seq<World>, es: seq<Event>, left: set<nat>)
    returns (ws': seq<World>, es': seq<Event>)
    requires IsRun(ws, es) && ws[|es|].books.closed && !ws[|es|].returned
    requires left <= ws[|es|].snapshot <= ws[|es|].killed + left
    ensures IsRun(ws', es') && ws'[|es'|].books.closed && !ws'[|es'|].returned && ws'[|es'|].failed == ws[|es|].failed
    ensures ws'[|es'|].snapshot <= ws'[|es'|].killed
    decreases left
  {
    ws', es' := ws, es;
    if left != {} {
      var w := ws[|es|];
      var p :| p in left;
      Killed(w, p);
      ws', es' := Extend(ws, es, CloseKills(p), w.(alive := w.alive - {p}, killed := w.killed + {p}));
      ws', es' := AllKilled(ws', es', left - {p});
    }
  }

  /** From every state of every run in which a `close` has begun and not returned,
      it can return with no process left alive. */
  lemma CloseCanReturn(ws: seq<World>, es: seq<Event>) returns (ws': seq<World>, es': seq<Event>)
    requires IsRun(ws, es) && ws[|es|].books.closed && !ws[|es|].returned
    ensures IsRun(ws', es') && ws'[|es'|].returned && ws'[|es'|].alive == {}
  {
    ws', es' := AllKilled(ws, es, ws[|es|].snapshot);
    var w := ws'[|es'|];
    RunInv(ws', es', |es'|);
    assert w.alive <= w.snapshot;
    ws', es' := Extend(ws', es', CloseReturns, w.(returned := true));
  }
}
