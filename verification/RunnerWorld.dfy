/** The command runner's lock, its process set and its close as a transition
    system (remote_ssh_mcp/commands.py). Runs and closers are any number of
    concurrent calls; a run may be cancelled wherever it waits, but for a second
    time while it kills its process. */
module RunnerWorld {
  import opened Options

  datatype Result = Answered | ConnectionLost | Cancelled | SpawnError

  /** How a run left the wait for its process. */
  datatype How = Exited | TimedOut | WasCancelled

  /** Where one `run_script` stands. */
  datatype Point =
    | BeforeLock
    | Spawning                         // holds the lock
    | Waiting(p: nat)
    | Killing(p: nat, how: How)
    | Untracking(p: nat, how: How)     // waits for the lock again
    | Collecting                       // its streams, before the closed-check
    | Rechecking                       // exit 255: asks the master, after the check
    | Finished(result: Result)

  /** What the lock protects. */
  datatype Books = Books(closed: bool, holder: Option<nat>, tracked: set<nat>)

  datatype World = World(
    books: Books,
    alive: set<nat>,                   // live processes
    spawned: set<nat>,                 // every process ever spawned
    runs: map<nat, Point>,
    snapshot: set<nat>,                // what the first `close` terminates
    killed: set<nat>,                  // terminated by it
    failed: set<nat>,                  // whose termination raised
    returned: bool)                    // the first `close` has returned

  const INITIAL := World(Books(false, None, {}), {}, {}, map[], {}, {}, {}, false)

  datatype Event =
    | Begin(r: nat)
    | TakeLock(r: nat)
    | Spawned(r: nat, p: nat)
    | SpawnFails(r: nat, result: Result)
    | Dies(p: nat)
    | Leaves(r: nat, how: How)
    | KillDone(r: nat)
    | Untrack(r: nat)
    | UntrackCancelled(r: nat)
    | Check(r: nat, exit255: bool)
    | Rechecked(r: nat, lost: bool)
    | CancelRun(r: nat)                // while it waits for the lock, its streams or the master
    | Close
    | CloseKills(p: nat)
    | CloseKillRaises(p: nat)
    | CloseReturns

  /** `async with self._process_lock` up to the spawn: the closed-check. */
  function Admit(b: Books, r: nat): (Books, Point) {
    if b.closed then (b, Finished(ConnectionLost)) else (b.(holder := Some(r)), Spawning)
  }

  /** Back from the spawn, still under the lock. */
  function Track(b: Books, p: nat): Books {
    b.(holder := None, tracked := b.tracked + {p})
  }

  function Forget(b: Books, p: nat): Books {
    b.(tracked := b.tracked - {p})
  }

  predicate At(w: World, r: nat, p: Point) {
    r in w.runs && w.runs[r] == p
  }

  function Go(w: World, r: nat, p: Point): World {
    w.(runs := w.runs[r := p])
  }

  function Next(w: World, e: Event): Option<World> {
    match e
    case Begin(r) => if r in w.runs then None else Some(Go(w, r, BeforeLock))
    case TakeLock(r) =>
      if !At(w, r, BeforeLock) || w.books.holder.Some? then None
      else Some(Go(w, r, Admit(w.books, r).1).(books := Admit(w.books, r).0))
    case Spawned(r, p) =>
      if !At(w, r, Spawning) || p in w.spawned then None
      else Some(Go(w, r, Waiting(p)).(books := Track(w.books, p), alive := w.alive + {p}, spawned := w.spawned + {p}))
    case SpawnFails(r, result) =>
      // a spawn that raises or is cancelled leaves no process behind
      if !At(w, r, Spawning) || !(result.SpawnError? || result.Cancelled?) then None
      else Some(Go(w, r, Finished(result)).(books := w.books.(holder := None)))
    case Dies(p) => if p in w.alive then Some(w.(alive := w.alive - {p})) else None
    case Leaves(r, how) =>
      if r !in w.runs || !w.runs[r].Waiting? then None
      else if how.Exited? then
        if w.runs[r].p in w.alive then None else Some(Go(w, r, Untracking(w.runs[r].p, how)))
      else Some(Go(w, r, Killing(w.runs[r].p, how)))
    case KillDone(r) =>
      if r !in w.runs || !w.runs[r].Killing? || w.runs[r].p in w.alive then None
      else Some(Go(w, r, Untracking(w.runs[r].p, w.runs[r].how)))
    case Untrack(r) =>
      if r !in w.runs || !w.runs[r].Untracking? || w.books.holder.Some? then None
      else Some(Go(w, r, if w.runs[r].how.WasCancelled? then Finished(Cancelled) else Collecting)
                .(books := Forget(w.books, w.runs[r].p)))
    case UntrackCancelled(r) =>
      if r !in w.runs || !w.runs[r].Untracking? then None else Some(Go(w, r, Finished(Cancelled)))
    case Check(r, exit255) =>
      if !At(w, r, Collecting) then None
      else Some(Go(w, r, if w.books.closed then Finished(ConnectionLost) else if exit255 then Rechecking else Finished(Answered)))
    case Rechecked(r, lost) =>
      if !At(w, r, Rechecking) then None else Some(Go(w, r, Finished(if lost then ConnectionLost else Answered)))
    case CancelRun(r) =>
      if At(w, r, BeforeLock) || At(w, r, Collecting) || At(w, r, Rechecking) then Some(Go(w, r, Finished(Cancelled)))
      else None
    case Close =>
      if w.books.holder.Some? then None
      else if w.books.closed then Some(w)
      else Some(w.(books := w.books.(closed := true), snapshot := w.books.tracked))
    case CloseKills(p) =>
      if p in w.snapshot && !w.returned then Some(w.(alive := w.alive - {p}, killed := w.killed + {p})) else None
    case CloseKillRaises(p) =>
      if p in w.snapshot && !w.returned then Some(w.(failed := w.failed + {p})) else None
    case CloseReturns =>
      if w.books.closed && w.snapshot <= w.killed + w.failed then Some(w.(returned := true)) else None
  }

  /** A run's process was spawned, and is dead before it is forgotten. */
  predicate PointOk(alive: set<nat>, spawned: set<nat>, p: Point) {
    && (p.Waiting? || p.Killing? || p.Untracking? ==> p.p in spawned)
    && (p.Untracking? ==> p.p !in alive)
  }

  /** Every live process is tracked; the lock is held exactly by the run inside
      its spawn; and nobody is inside a spawn once the runner is closed. */
  ghost predicate Inv(w: World) {
    && w.alive <= w.books.tracked <= w.spawned
    && (forall r | r in w.runs :: w.runs[r].Spawning? <==> w.books.holder == Some(r))
    && (w.books.holder.Some? ==> w.books.holder.value in w.runs && !w.books.closed)
    && (forall r | r in w.runs :: PointOk(w.alive, w.spawned, w.runs[r]))
    && (w.books.closed ==> w.books.tracked <= w.snapshot)
    && (!w.books.closed ==> w.snapshot == {})
    && w.killed !! w.alive && w.killed <= w.spawned
    && (w.returned ==> w.books.closed && w.snapshot <= w.killed + w.failed)
    && w.snapshot <= w.spawned
  }

  predicate OfClose(e: Event) {
    e.Dies? || e.Close? || e.CloseKills? || e.CloseKillRaises? || e.CloseReturns?
  }

  predicate OfSpawn(e: Event) {
    e.Begin? || e.TakeLock? || e.Spawned? || e.SpawnFails?
  }

  lemma SpawnKeeps(w: World, e: Event)
    requires Inv(w) && Next(w, e).Some? && OfSpawn(e)
    ensures Inv(Next(w, e).value)
  {
  }

  lemma CloseKeeps(w: World, e: Event)
    requires Inv(w) && Next(w, e).Some? && OfClose(e)
    ensures Inv(Next(w, e).value)
  {
  }

  lemma LeaveKeeps(w: World, e: Event)
    requires Inv(w) && Next(w, e).Some? && !OfSpawn(e) && !OfClose(e)
    ensures Inv(Next(w, e).value)
  {
  }

  lemma StepKeeps(w: World, e: Event)
    requires Inv(w) && Next(w, e).Some?
    ensures Inv(Next(w, e).value)
  {
    hide Inv, Next;
    if OfSpawn(e) {
      SpawnKeeps(w, e);
    } else if OfClose(e) {
      CloseKeeps(w, e);
    } else {
      LeaveKeeps(w, e);
    }
  }

  ghost predicate Follows(ws: seq<World>, es: seq<Event>, i: nat)
    requires |ws| == |es| + 1 && i < |es|
  {
    Next(ws[i], es[i]) == Some(ws[i + 1])
  }

  ghost predicate IsRun(ws: seq<World>, es: seq<Event>) {
    && |ws| == |es| + 1
    && ws[0] == INITIAL
    && forall i | 0 <= i < |es| :: Follows(ws, es, i)
  }

  lemma {:induction false} RunInv(ws: seq<World>, es: seq<Event>, i: nat)
    requires IsRun(ws, es) && i < |ws|
    ensures Inv(ws[i])
  {
    if i > 0 {
      RunInv(ws, es, i - 1);
      assert Follows(ws, es, i - 1);
      StepKeeps(ws[i - 1], es[i - 1]);
    }
  }

  predicate PastCheck(p: Point) {
    p.Rechecking? || (p.Finished? && p.result.Answered?)
  }

  lemma ClosedStep(w: World, e: Event)
    requires Inv(w) && Next(w, e).Some? && w.books.closed
    ensures var w' := Next(w, e).value;
            && w'.books.closed && w'.spawned == w.spawned && w'.snapshot == w.snapshot
            && w'.alive <= w.alive && w.failed <= w'.failed && (w.returned ==> w'.returned && w'.failed == w.failed)
            && (forall r | r in w'.runs && PastCheck(w'.runs[r]) :: r in w.runs && PastCheck(w.runs[r]))
  {
  }

  /** From the moment the runner is closed nothing is spawned, what it will
      terminate is fixed, processes only die, and no run gets past its
      closed-check that had not passed it before. */
  lemma {:induction false} NothingAfterClose(ws: seq<World>, es: seq<Event>, i: nat, j: nat)
    requires IsRun(ws, es) && i <= j < |ws| && ws[i].books.closed
    ensures ws[j].books.closed && ws[j].spawned == ws[i].spawned && ws[j].snapshot == ws[i].snapshot
    ensures ws[j].alive <= ws[i].alive && ws[j].books.tracked <= ws[i].snapshot
    ensures ws[i].returned ==> ws[j].returned && ws[j].failed == ws[i].failed
    ensures forall r | r in ws[j].runs && PastCheck(ws[j].runs[r]) :: r in ws[i].runs && PastCheck(ws[i].runs[r])
  {
    RunInv(ws, es, j);
    if i < j {
      NothingAfterClose(ws, es, i, j - 1);
      RunInv(ws, es, j - 1);
      assert Follows(ws, es, j - 1);
      ClosedStep(ws[j - 1], es[j - 1]);
    }
  }

  /** At the moment of closing, everything alive is among what gets terminated. */
  lemma SnapshotCoversLive(ws: seq<World>, es: seq<Event>, k: nat)
    requires IsRun(ws, es) && k < |ws| && ws[k].books.closed
    ensures ws[k].alive <= ws[k].snapshot
  {
    RunInv(ws, es, k);
  }

  /** After `close` returned, the only processes that can be alive, then or ever,
      are those whose termination raised. */
  lemma ClosedLeavesNoProcess(ws: seq<World>, es: seq<Event>, i: nat, j: nat)
    requires IsRun(ws, es) && i <= j < |ws| && ws[i].returned
    ensures ws[j].alive <= ws[i].failed
  {
    RunInv(ws, es, i);
    RunInv(ws, es, j);
    NothingAfterClose(ws, es, i, j);
  }

  /** A run that had not passed its closed-check when the runner was closed never
      answers: if it ends, it ends cancelled, unspawned or with
      connection_lost. */
  lemma LateRunsLoseConnection(ws: seq<World>, es: seq<Event>, i: nat, j: nat, r: nat)
    requires IsRun(ws, es) && i <= j < |ws| && ws[i].books.closed
    requires r in ws[j].runs && ws[j].runs[r].Finished?
    requires r !in ws[i].runs || !PastCheck(ws[i].runs[r])
    ensures !ws[j].runs[r].result.Answered?
  {
    NothingAfterClose(ws, es, i, j);
  }
}
