/** The objects of remote_ssh_mcp/transfers.py. Every method is one stretch of
    source between two suspension points, proved against TransferRecords; the
    manager's lock is not modelled because no stretch that holds it suspends. */
module TransferManager {
  import opened Options
  import R = TransferRecords

  /** The destinations claimed across all sessions of one process. */
  class TransferReservations {
    var claimed: set<string>

    constructor ()
      ensures claimed == {}
    {
      claimed := {};
    }

    method Claim(key: string) returns (ok: bool)
      modifies this
      ensures ok == (key !in old(claimed))
      ensures claimed == old(claimed) + {key}
    {
      if key in claimed {
        return false;
      }
      claimed := claimed + {key};
      return true;
    }

    method Release(key: string)
      modifies this
      ensures claimed == old(claimed) - {key}
    {
      claimed := claimed - {key};
    }
  }

  class TransferOperation {
    const id: string
    const key: string
    var state: R.State
    var startedAt: Option<nat>
    var finishedAt: Option<nat>
    var reserved: bool
    var hasTask: bool
    var cancelEvent: bool       // the event the hashing thread polls
    var cancelRequested: bool   // `task.cancel()` was called

    ghost function View(): R.Record
      reads this
    {
      R.Record(key, state, startedAt, finishedAt, reserved)
    }

    constructor (id: string, key: string)
      ensures this.id == id && View() == R.NewRecord(key)
      ensures !hasTask && !cancelEvent && !cancelRequested
    {
      this.id, this.key := id, key;
      state, startedAt, finishedAt, reserved := R.Pending, None, None, false;
      hasTask, cancelEvent, cancelRequested := false, false, false;
    }
  }

  class TransferManager {
    const reservations: TransferReservations
    const maxTransfers: nat
    const completedTtl: nat
    var operations: map<string, TransferOperation>
    var closed: bool

    /** Every operation is registered under its own id. */
    ghost predicate Valid()
      reads this, operations.Values
    {
      forall id | id in operations :: operations[id].id == id
    }

    ghost function Records(): map<string, R.Record>
      reads this, operations.Values
    {
      map id | id in operations :: operations[id].View()
    }

    constructor (reservations: TransferReservations, maxTransfers: nat, completedTtl: nat)
      ensures Valid() && Records() == map[] && !closed
      ensures this.reservations == reservations
      ensures this.maxTransfers == maxTransfers && this.completedTtl == completedTtl
    {
      this.reservations, this.maxTransfers, this.completedTtl := reservations, maxTransfers, completedTtl;
      operations, closed := map[], false;
    }

    method SetState(op: TransferOperation, s: R.State, now: nat)
      modifies op`state, op`startedAt, op`finishedAt, op`reserved, reservations
      ensures (op.View(), reservations.claimed) == R.SetState(old(op.View()), old(reservations.claimed), s, now)
    {
      op.state := s;
      if s.Running? && op.startedAt.None? {
        op.startedAt := Some(now);
      }
      if s.Final() {
        op.finishedAt := Some(now);
        if op.reserved {
          op.reserved := false;
          reservations.Release(op.key);
        }
      }
    }

    method Prune(now: nat)
      requires Valid()
      modifies this`operations
      ensures Valid() && Records() == R.Pruned(old(Records()), now, completedTtl)
      ensures operations.Values <= old(operations.Values)
    {
      var pending := operations.Keys;
      var expired: set<string> := {};
      while pending != {}
        invariant pending <= operations.Keys
        invariant expired == set id | id in operations.Keys - pending && R.Expires(operations[id].View(), now, completedTtl)
        decreases pending
      {
        var id :| id in pending;
        var op := operations[id];
        if op.finishedAt.Some? && now - op.finishedAt.value >= completedTtl {
          expired := expired + {id};
        }
        pending := pending - {id};
      }
      operations := operations - expired;
    }

    method ActiveCount() returns (n: nat)
      ensures n == |R.ActiveIds(Records())|
    {
      var pending := operations.Keys;
      ghost var active: set<string> := {};
      n := 0;
      while pending != {}
        invariant pending <= operations.Keys
        invariant active == set id | id in operations.Keys - pending && !operations[id].state.Final()
        invariant n == |active|
        decreases pending
      {
        var id :| id in pending;
        if !operations[id].state.Final() {
          n := n + 1;
          active := active + {id};
        }
        pending := pending - {id};
      }
      assert active == R.ActiveIds(Records());
    }

    method Register(op: TransferOperation, now: nat) returns (outcome: R.Outcome)
      requires Valid()
      requires op !in operations.Values
      modifies this`operations, op`reserved, reservations
      ensures Valid()
      ensures var r := R.Register(old(Records()), old(reservations.claimed), closed,
                                  maxTransfers, completedTtl, now, op.id, old(op.View()));
              outcome == r.outcome && reservations.claimed == r.claimed && Records() == r.records
      ensures outcome.Registered? ==> op.reserved && op.id in operations && operations[op.id] == op
      ensures !outcome.Registered? ==> op.View() == old(op.View())
      ensures operations.Values <= old(operations.Values) + (if outcome.Registered? then {op} else {})
    {
      hide R.Pruned, R.ActiveIds;
      if closed {
        return R.ManagerClosed;
      }
      Prune(now);
      var active := ActiveCount();
      if active >= maxTransfers {
        return R.LimitReached;
      }
      ghost var kept := Records();
      var claimed := reservations.Claim(op.key);
      assert Records() == kept && op.View() == old(op.View());
      if !claimed {
        return R.Conflict;
      }
      Enter(op);
      return R.Registered;
    }

    /** Into the dictionary, with the claim in hand. */
    method Enter(op: TransferOperation)
      requires Valid() && op !in operations.Values
      modifies this`operations, op`reserved
      ensures Valid() && operations == old(operations)[op.id := op]
      ensures op.View() == old(op.View()).(reserved := true)
      ensures Records() == old(Records())[op.id := op.View()]
    {
      op.reserved := true;
      operations := operations[op.id := op];
    }

    /** Every registered operation has its task. */
    ghost predicate Tasked()
      reads this, operations.Values
    {
      forall id | id in operations :: operations[id].hasTask
    }

    /** `start_download` and `start_upload` under their lock: no suspension
        separates the registration from the creation of the task. */
    method Start(op: TransferOperation, now: nat) returns (outcome: R.Outcome)
      requires Valid() && Tasked()
      requires op !in operations.Values && !op.hasTask
      modifies this`operations, op`reserved, op`hasTask, reservations
      ensures Valid() && Tasked()
      ensures var r := R.Register(old(Records()), old(reservations.claimed), closed,
                                  maxTransfers, completedTtl, now, op.id, old(op.View()));
              outcome == r.outcome && reservations.claimed == r.claimed && Records() == r.records
      ensures op.hasTask <==> outcome.Registered?
      ensures outcome.Registered? ==> op.reserved && op.id in operations && operations[op.id] == op
      ensures !outcome.Registered? ==> op.View() == old(op.View())
    {
      outcome := Register(op, now);
      if outcome.Registered? {
        op.hasTask := true;
      }
      forall id | id in operations ensures operations[id].hasTask {
        assert operations[id] in operations.Values;
        if operations[id] != op {
          var i :| i in old(operations) && old(operations)[i] == operations[id];
        }
      }
    }

    /** `cancel` up to its suspension: the operation to wait for, or the answer
        at once. */
    method BeginCancel(id: string) returns (op: TransferOperation?, wait: bool)
      requires Valid()
      modifies operations.Values
      ensures op == null <==> id !in operations
      ensures op != null ==> op == operations[id]
      ensures wait <==> op != null && !op.state.Final() && op.hasTask
      ensures wait ==> op.cancelEvent && op.cancelRequested
      ensures Valid() && Records() == old(Records())
      ensures forall o | o in operations.Values && (o != op || !wait) ::
                o.cancelRequested == old(o.cancelRequested) && o.cancelEvent == old(o.cancelEvent)
    {
      if id !in operations {
        return null, false;
      }
      op := operations[id];
      if op.state.Final() || !op.hasTask {
        return op, false;
      }
      op.cancelEvent := true;
      op.cancelRequested := true;
      wait := true;
    }

    /** `cancel` after its task has finished. */
    method FinishCancel(op: TransferOperation, now: nat) returns (state: R.State)
      modifies op`state, op`startedAt, op`finishedAt, op`reserved, reservations
      ensures state.Final() && op.state == state
      ensures (op.View(), reservations.claimed)
           == if old(op.state).Final() then (old(op.View()), old(reservations.claimed))
              else R.SetState(old(op.View()), old(reservations.claimed), R.Cancelled, now)
    {
      if !op.state.Final() {
        SetState(op, R.Cancelled, now);
      }
      state := op.state;
    }

    /** `close` up to its suspension: the operations whose tasks it waits for. */
    method BeginClose() returns (waiting: set<TransferOperation>)
      requires Valid()
      modifies this`closed, operations.Values`cancelEvent, operations.Values`cancelRequested
      ensures closed && Valid() && Records() == old(Records())
      ensures waiting == if old(closed) then {}
                         else set op | op in operations.Values && op.hasTask && !op.state.Final()
      ensures forall op | op in operations.Values :: op.cancelRequested == (old(op.cancelRequested) || op in waiting)
      ensures forall op | op in operations.Values :: op.cancelEvent == (old(op.cancelEvent) || op in waiting)
    {
      waiting := {};
      if closed {
        return;
      }
      closed := true;
      waiting := set op | op in operations.Values && op.hasTask && !op.state.Final();
      var pending := waiting;
      while pending != {}
        invariant closed && pending <= waiting
        invariant forall op | op in operations.Values ::
                    op.cancelRequested == (old(op.cancelRequested) || op in waiting - pending)
        invariant forall op | op in operations.Values ::
                    op.cancelEvent == (old(op.cancelEvent) || op in waiting - pending)
        decreases pending
      {
        var op :| op in pending;
        op.cancelEvent := true;
        op.cancelRequested := true;
        pending := pending - {op};
      }
    }

    /** One turn of the loop at the end of `close`. */
    method FinishOne(op: TransferOperation, waited: bool, now: nat)
      modifies op`state, op`startedAt, op`finishedAt, op`reserved, reservations
      ensures op.View() == R.CloseFallback(old(op.View()), waited, now)
      ensures reservations.claimed == old(reservations.claimed) - R.CloseReleases(old(op.View()), waited)
    {
      if waited && !op.state.Final() {
        SetState(op, R.Cancelled, now);
      }
    }

    /** `close` after every task it waited for has finished: whatever is still
        unfinished among them is cancelled and its claim given back. */
    method FinishClose(waiting: set<TransferOperation>, now: nat)
      requires Valid()
      modifies operations.Values, reservations
      ensures Valid() && operations == old(operations)
      ensures forall op | op in operations.Values :: op.View() == R.CloseFallback(old(op.View()), op in waiting, now)
      ensures forall key :: key in reservations.claimed <==>
                key in old(reservations.claimed)
                && forall op | op in operations.Values :: key !in R.CloseReleases(old(op.View()), op in waiting)
    {
      hide R.CloseFallback, R.CloseReleases;
      var pending := operations.Values;
      while pending != {}
        invariant pending <= operations.Values && Valid()
        invariant forall op | op in pending :: op.View() == old(op.View())
        invariant forall op | op in operations.Values - pending ::
                    op.View() == R.CloseFallback(old(op.View()), op in waiting, now)
        invariant forall key :: key in reservations.claimed <==>
                    key in old(reservations.claimed)
                    && forall op | op in operations.Values - pending :: key !in R.CloseReleases(old(op.View()), op in waiting)
        decreases pending
      {
        var op :| op in pending;
        FinishOne(op, op in waiting, now);
        pending := pending - {op};
      }
    }
  }
}
