/** The stretches of `CommandRunner` that hold its lock
    (remote_ssh_mcp/commands.py). */
module CommandRunner {
  import opened Options
  import W = RunnerWorld

  class CommandRunner {
    var processes: set<nat>
    var holder: Option<nat>     // the call inside the lock
    var closed: bool

    ghost function Books(): W.Books
      reads this
    {
      W.Books(closed, holder, processes)
    }

    constructor ()
      ensures Books() == W.INITIAL.books
    {
      processes, holder, closed := {}, None, false;
    }

    /** Acquire the lock and check; on success it stays held over the spawn. */
    method Admit(r: nat) returns (admitted: bool)
      requires holder.None?
      modifies this`holder
      ensures (Books(), if admitted then W.Spawning else W.Finished(W.ConnectionLost)) == W.Admit(old(Books()), r)
    {
      if closed {
        return false;
      }
      holder := Some(r);
      return true;
    }

    /** Register the spawned process and leave the lock. */
    method Track(p: nat)
      requires holder.Some?
      modifies this`holder, this`processes
      ensures Books() == W.Track(old(Books()), p)
    {
      processes := processes + {p};
      holder := None;
    }

    method Untrack(p: nat)
      requires holder.None?
      modifies this`processes
      ensures Books() == W.Forget(old(Books()), p)
    {
      processes := processes - {p};
    }

    /** `close` inside the lock: the processes it terminates, or nothing when
        another call already closed. */
    method BeginClose() returns (snapshot: set<nat>)
      requires holder.None?
      modifies this`closed
      ensures Books() == old(Books()).(closed := true)
      ensures snapshot == if old(closed) then {} else processes
    {
      if closed {
        return {};
      }
      closed := true;
      return processes;
    }
  }
}
