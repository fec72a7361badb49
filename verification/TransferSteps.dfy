/** The remaining events of TransferWorld, and every run: the invariant holds in
    each state, and no operation ever moves backwards. */
module TransferSteps {
  import opened PartialNames
  import opened TransferWorld
  import opened TransferInvariant
  import R = TransferRecords

  lemma RequestMoves(w: World, ids: set<string>, w': World)
    requires Operations(w) && w'.ops == RequestCancel(w.ops, ids) && w'.managers.Keys == w.managers.Keys
    ensures SameAccounts(w, w') && Operations(w') && AllEvolve(w, w')
    ensures forall id | id in w.ops && id in ids && !w.ops[id].rec.state.Final() :: Doomed(w'.ops[id])
  {
    forall id | id in w.ops
      ensures SameAccount(w.ops[id], w'.ops[id]) && OperationOk(w'.ops[id]) && Evolves(w.ops[id], w'.ops[id])
      ensures id in ids && !w.ops[id].rec.state.Final() ==> Doomed(w'.ops[id])
    {
      assert OperationOk(w.ops[id]);
    }
  }

  /** The unfinished operations of a manager are all in its dictionary. */
  lemma ActiveAreRegistered(w: World, m: ManagerId)
    requires Operations(w) && Registered(w)
    ensures R.ActiveIds(Records(w, m)) == ActiveOf(w, m)
  {
    forall id | id in ActiveOf(w, m) ensures id in Records(w, m) {
      assert OperationOk(w.ops[id]);
    }
  }

  lemma PrunedActive(cfg: Config, w: World, m: ManagerId)
    requires Operations(w) && Registered(w)
    ensures R.ActiveIds(R.Pruned(Records(w, m), w.clock, cfg.ttl)) == ActiveOf(w, m)
  {
    ActiveAreRegistered(w, m);
    forall id | id in Records(w, m) ensures Records(w, m)[id].finishedAt.Some? ==> Records(w, m)[id].state.Final() {
      assert OperationOk(w.ops[id]);
    }
    R.PruneKeepsActive(Records(w, m), w.clock, cfg.ttl);
  }

  /** Pruning a dictionary. */
  lemma DroppingKeeps(cfg: Config, w: World, m: ManagerId, kept: set<string>, w': World)
    requires Inv(cfg, w)
    requires w' == w.(registered := kept)
    requires kept == set i | i in w.registered && i in w.ops
                          && (w.ops[i].manager == m ==> i in R.Pruned(Records(w, m), w.clock, cfg.ttl))
    ensures Inv(cfg, w') && AllEvolve(w, w')
  {
    PrunedActive(cfg, w, m);
    forall id | id in w.registered && w.ops[id].rec.reserved ensures id in kept {
      if w.ops[id].manager == m {
        assert OperationOk(w.ops[id]);
        assert id in ActiveOf(w, m);
      }
    }
    MovingKeeps(cfg, w, w');
    WaitsKeep(w, w');
  }

  /** `w'` is `w` with one new operation that holds a key nobody held. */
  ghost predicate Adds(cfg: Config, w: World, id: string, op: Operation, w': World) {
    && id !in w.ops
    && w'.ops == w.ops[id := op]
    && OperationOk(op) && op.rec.reserved && op.manager in w.managers
    && op.rec.key !in w.claimed
    && w'.claimed == w.claimed + {op.rec.key}
    && w'.registered == w.registered + {id}
    && w'.managers == w.managers && w'.calls == w.calls && w'.reports == w.reports
    && w.managers[op.manager].Open?
    && |ActiveOf(w, op.manager)| < cfg.maxTransfers
  }

  lemma AddingActive(cfg: Config, w: World, id: string, op: Operation, w': World, m: ManagerId)
    requires Adds(cfg, w, id, op, w')
    ensures ActiveOf(w', m) == ActiveOf(w, m) + if m == op.manager then {id} else {}
  {
  }

  lemma AddingClaims(cfg: Config, w: World, id: string, op: Operation, w': World)
    requires ClaimsExact(w) && Exclusive(w) && Adds(cfg, w, id, op, w')
    ensures ClaimsExact(w') && Exclusive(w')
  {
    forall x ensures x in HeldKeys(w') <==> x in HeldKeys(w) || x == op.rec.key {
      if x in HeldKeys(w) {
        var i :| i in w.ops && w.ops[i].rec.reserved && w.ops[i].rec.key == x;
        assert w'.ops[i].rec.key == x;
      }
      assert w'.ops[id] == op;
    }
    forall i | i in w.ops && w.ops[i].rec.reserved ensures w.ops[i].rec.key in HeldKeys(w) {
    }
  }

  lemma AddingBounds(cfg: Config, w: World, id: string, op: Operation, w': World)
    requires Bounded(cfg, w) && Closings(w) && Adds(cfg, w, id, op, w')
    ensures Bounded(cfg, w') && Closings(w')
  {
    forall m
      ensures ActiveOf(w', m) == ActiveOf(w, m) + if m == op.manager then {id} else {}
    {
      AddingActive(cfg, w, id, op, w', m);
    }
  }

  lemma AddingKeeps(cfg: Config, w: World, id: string, op: Operation, w': World)
    requires Inv(cfg, w) && Adds(cfg, w, id, op, w')
    ensures Inv(cfg, w') && AllEvolve(w, w')
  {
    hide ClaimsExact, Exclusive, Bounded, Closings, Waits, OperationOk;
    AddingClaims(cfg, w, id, op, w');
    AddingBounds(cfg, w, id, op, w');
    AddingRest(cfg, w, id, op, w');
    WaitsKeep(w, w');
  }

  lemma AddingRest(cfg: Config, w: World, id: string, op: Operation, w': World)
    requires Operations(w) && Registered(w) && Adds(cfg, w, id, op, w')
    ensures Operations(w') && Registered(w') && AllEvolve(w, w')
  {
    hide OperationOk;
  }

  lemma NewIsOk(m: ManagerId, ends: Endpoints, overwrite: bool)
    ensures OperationOk(NewOperation(m, ends, overwrite, R.NewRecord(ResourceKey(ends)).(reserved := true)))
  {
  }

  /** `_register`, seen from the world: the dictionary pruned, and the new
      operation in it unless the registration was refused. */
  lemma StartMeaning(cfg: Config, w: World, m: ManagerId, id: string, ends: Endpoints, overwrite: bool, pruned: World)
    requires Inv(cfg, w) && Started(cfg, w, m, id, ends, overwrite).Some? && w.managers[m].Open?
    requires pruned == w.(registered := set i | i in w.registered && i in w.ops
                          && (w.ops[i].manager == m ==> i in R.Pruned(Records(w, m), w.clock, cfg.ttl)))
    requires Inv(cfg, pruned) && ActiveOf(pruned, m) == ActiveOf(w, m)
    ensures var w', op := Started(cfg, w, m, id, ends, overwrite).value,
                          NewOperation(m, ends, overwrite, R.NewRecord(ResourceKey(ends)).(reserved := true));
            if |ActiveOf(w, m)| < cfg.maxTransfers && op.rec.key !in w.claimed
            then Adds(cfg, pruned, id, op, w') else w' == pruned
  {
    NewIsOk(m, ends, overwrite);
    hide Exclusive, ClaimsExact, Bounded, Cancels, Closings, Waits, OperationOk;
    PrunedActive(cfg, w, m);
    var rec := R.NewRecord(ResourceKey(ends));
    R.RegisterMeaning(Records(w, m), w.claimed, cfg.maxTransfers, cfg.ttl, w.clock, id, rec);
    var r := R.Register(Records(w, m), w.claimed, false, cfg.maxTransfers, cfg.ttl, w.clock, id, rec);
    hide R.Register, R.Pruned, R.ActiveIds;
    assert id !in Records(w, m);
    assert pruned.registered == set i | i in w.registered && i in w.ops && (w.ops[i].manager == m ==> i in r.records);
  }

  lemma StartKeeps(cfg: Config, w: World, m: ManagerId, id: string, ends: Endpoints, overwrite: bool)
    requires Inv(cfg, w) && Started(cfg, w, m, id, ends, overwrite).Some?
    ensures Inv(cfg, Started(cfg, w, m, id, ends, overwrite).value)
    ensures AllEvolve(w, Started(cfg, w, m, id, ends, overwrite).value)
  {
    if w.managers[m].Open? {
      OpenStartKeeps(cfg, w, m, id, ends, overwrite);
    } else {
      assert Started(cfg, w, m, id, ends, overwrite).value == w;
    }
  }

  lemma OpenStartKeeps(cfg: Config, w: World, m: ManagerId, id: string, ends: Endpoints, overwrite: bool)
    requires Inv(cfg, w) && Started(cfg, w, m, id, ends, overwrite).Some? && w.managers[m].Open?
    ensures Inv(cfg, Started(cfg, w, m, id, ends, overwrite).value)
    ensures AllEvolve(w, Started(cfg, w, m, id, ends, overwrite).value)
  {
    var kept := set i | i in w.registered && i in w.ops
                     && (w.ops[i].manager == m ==> i in R.Pruned(Records(w, m), w.clock, cfg.ttl));
    var pruned := w.(registered := kept);
    DroppingKeeps(cfg, w, m, kept, pruned);
    StartMeaning(cfg, w, m, id, ends, overwrite, pruned);
    var w' := Started(cfg, w, m, id, ends, overwrite).value;
    hide Inv, Started, R.Pruned;
    if w' != pruned {
      AddingKeeps(cfg, pruned, id, w'.ops[id], w');
    }
  }

  lemma RequestKeeps(cfg: Config, w: World, ids: set<string>, w': World)
    requires Inv(cfg, w)
    requires w' == w.(ops := RequestCancel(w.ops, ids))
    ensures Inv(cfg, w') && AllEvolve(w, w')
    ensures forall id | id in w.ops && id in ids && !w.ops[id].rec.state.Final() :: Doomed(w'.ops[id])
    ensures forall m :: ActiveOf(w', m) == ActiveOf(w, m)
  {
    RequestMoves(w, ids, w');
    MovingKeeps(cfg, w, w');
    WaitsKeep(w, w');
  }

  /** The accounts do not depend on who is waiting for a cancellation. */
  lemma CallsKeep(cfg: Config, w: World, w': World)
    requires Inv(cfg, w) && w' == w.(calls := w'.calls, reports := w'.reports) && Cancels(w')
    ensures Inv(cfg, w') && AllEvolve(w, w')
  {
    hide OperationOk, Doomed;
    forall m ensures ActiveOf(w', m) == ActiveOf(w, m) {
    }
    assert AllEvolve(w, w') by {
      forall id | id in w.ops ensures Evolves(w.ops[id], w'.ops[id]) {
      }
    }
    assert Waits(w') by {
      forall m | m in w'.managers && w'.managers[m].Closing? ensures AllDoomed(w', w'.managers[m].waiting) {
        assert AllDoomed(w, w.managers[m].waiting);
      }
    }
  }

  lemma RecordCallKeeps(cfg: Config, w: World, call: nat, id: string)
    requires Inv(cfg, w) && id in w.ops && Doomed(w.ops[id])
    ensures Inv(cfg, w.(calls := w.calls[call := id])) && AllEvolve(w, w.(calls := w.calls[call := id]))
  {
    CallsKeep(cfg, w, w.(calls := w.calls[call := id]));
  }

  lemma DropCallKeeps(cfg: Config, w: World, call: nat)
    requires Inv(cfg, w)
    ensures Inv(cfg, w.(calls := w.calls - {call})) && AllEvolve(w, w.(calls := w.calls - {call}))
  {
    CallsKeep(cfg, w, w.(calls := w.calls - {call}));
  }

  lemma AnswerCallKeeps(cfg: Config, w: World, call: nat, s: R.State)
    requires Inv(cfg, w) && s.Final()
    ensures Inv(cfg, w.(calls := w.calls - {call}, reports := w.reports[call := s]))
    ensures AllEvolve(w, w.(calls := w.calls - {call}, reports := w.reports[call := s]))
  {
    CallsKeep(cfg, w, w.(calls := w.calls - {call}, reports := w.reports[call := s]));
  }

  lemma BeginCancelKeeps(cfg: Config, w: World, call: nat, m: ManagerId, id: string)
    requires Inv(cfg, w) && CancelBegun(w, call, m, id).Some?
    ensures Inv(cfg, CancelBegun(w, call, m, id).value)
    ensures AllEvolve(w, CancelBegun(w, call, m, id).value)
  {
    hide Operations, Registered, Exclusive, ClaimsExact, Bounded, Closings, Waits;
    var w' := CancelBegun(w, call, m, id).value;
    if w.ops[id].rec.state.Final() {
      CallsKeep(cfg, w, w');
    } else {
      var w1 := w.(ops := RequestCancel(w.ops, {id}));
      RequestKeeps(cfg, w, {id}, w1);
      RecordCallKeeps(cfg, w1, call, id);
    }
  }

  lemma AbandonCancelKeeps(cfg: Config, w: World, call: nat)
    requires Inv(cfg, w) && CancelAbandoned(w, call).Some?
    ensures Inv(cfg, CancelAbandoned(w, call).value)
    ensures AllEvolve(w, CancelAbandoned(w, call).value)
  {
    var ids := {w.calls[call]};
    var w1 := w.(ops := RequestCancel(w.ops, ids));
    RequestKeeps(cfg, w, ids, w1);
    DropCallKeeps(cfg, w1, call);
  }

  /** `cancel`'s fallback, or `close`'s, on an operation whose task is over. */
  lemma FallbackFinishes(w: World, id: string)
    requires id in w.ops && OperationOk(w.ops[id]) && w.ops[id].at.Done? && !w.ops[id].rec.state.Final()
    ensures Finishes(w, id, SetState(w, id, R.Cancelled))
  {
  }

  /** A `cancel` that waited answers `cancelled`. */
  lemma FinishCancelKeeps(cfg: Config, w: World, call: nat)
    requires Inv(cfg, w) && CancelFinished(w, call).Some?
    ensures Inv(cfg, CancelFinished(w, call).value) && AllEvolve(w, CancelFinished(w, call).value)
    ensures CancelFinished(w, call).value.reports == w.reports[call := R.Cancelled]
    ensures CancelFinished(w, call).value.ops[w.calls[call]].rec.state.Cancelled?
  {
    var w' := CancelFinished(w, call).value;
    var id := w.calls[call];
    assert Doomed(w.ops[id]);
    if w.ops[id].rec.state.Final() {
      AnswerCallKeeps(cfg, w, call, R.Cancelled);
    } else {
      var w1 := SetState(w, id, R.Cancelled);
      FallbackFinishes(w, id);
      FinishingKeeps(cfg, w, id, w1);
      AnswerCallKeeps(cfg, w1, call, R.Cancelled);
    }
  }

  /** Changing the phase of one manager. */
  lemma PhaseKeeps(cfg: Config, w: World, m: ManagerId, phase: Phase, w': World)
    requires Inv(cfg, w) && w' == w.(managers := w.managers[m := phase])
    requires phase.Closing? ==> ActiveOf(w, m) <= phase.waiting && AllDoomed(w, phase.waiting)
    requires phase.Closed? || m !in w.managers ==> ActiveOf(w, m) == {}
    ensures Inv(cfg, w') && AllEvolve(w, w')
    ensures ActiveOf(w', m) == ActiveOf(w, m)
  {
    hide OperationOk, Doomed;
    forall i ensures ActiveOf(w', i) == ActiveOf(w, i) {
    }
    assert AllEvolve(w, w') by {
      forall id | id in w.ops ensures Evolves(w.ops[id], w'.ops[id]) {
      }
    }
    assert Waits(w') by {
      forall i | i in w'.managers && w'.managers[i].Closing? ensures AllDoomed(w', w'.managers[i].waiting) {
        assert i != m ==> AllDoomed(w, w.managers[i].waiting);
      }
    }
  }

  lemma BeginCloseKeeps(cfg: Config, w: World, m: ManagerId)
    requires Inv(cfg, w) && CloseBegun(w, m).Some?
    ensures Inv(cfg, CloseBegun(w, m).value) && AllEvolve(w, CloseBegun(w, m).value)
  {
    if w.managers[m].Open? {
      ActiveAreRegistered(w, m);
      var ids := ActiveOf(w, m);
      var w1 := w.(ops := RequestCancel(w.ops, ids));
      RequestKeeps(cfg, w, ids, w1);
      PhaseKeeps(cfg, w1, m, Closing(ids), CloseBegun(w, m).value);
    }
  }

  lemma AbandonCloseKeeps(cfg: Config, w: World, m: ManagerId)
    requires Inv(cfg, w) && CloseAbandoned(w, m).Some?
    ensures Inv(cfg, CloseAbandoned(w, m).value) && AllEvolve(w, CloseAbandoned(w, m).value)
  {
    var w1 := w.(ops := RequestCancel(w.ops, w.managers[m].waiting));
    RequestKeeps(cfg, w, w.managers[m].waiting, w1);
    PhaseKeeps(cfg, w1, m, Abandoned, CloseAbandoned(w, m).value);
  }

  lemma FinishCloseOneKeeps(cfg: Config, w: World, m: ManagerId, id: string)
    requires Inv(cfg, w) && CloseFinishedOne(w, m, id).Some?
    ensures Inv(cfg, CloseFinishedOne(w, m, id).value)
    ensures AllEvolve(w, CloseFinishedOne(w, m, id).value)
  {
    FallbackFinishes(w, id);
    FinishingKeeps(cfg, w, id, SetState(w, id, R.Cancelled));
  }

  /** When `close` returns, the manager has nothing unfinished. */
  lemma FinishCloseKeeps(cfg: Config, w: World, m: ManagerId)
    requires Inv(cfg, w) && CloseFinished(w, m).Some?
    ensures Inv(cfg, CloseFinished(w, m).value) && AllEvolve(w, CloseFinished(w, m).value)
    ensures ActiveOf(CloseFinished(w, m).value, m) == {}
  {
    assert ActiveOf(w, m) == {} by {
      assert ActiveOf(w, m) <= w.managers[m].waiting;
    }
    PhaseKeeps(cfg, w, m, Closed, CloseFinished(w, m).value);
  }

  lemma NewManagerKeeps(cfg: Config, w: World, m: ManagerId)
    requires Inv(cfg, w) && ManagerMade(w, m).Some?
    ensures Inv(cfg, ManagerMade(w, m).value) && AllEvolve(w, ManagerMade(w, m).value)
  {
    assert ActiveOf(w, m) == {};
    PhaseKeeps(cfg, w, m, Open, ManagerMade(w, m).value);
  }

  /** Every event keeps the invariant and moves no operation backwards. */
  lemma StepKeeps(cfg: Config, w: World, e: Event)
    requires Inv(cfg, w) && Next(cfg, w, e).Some?
    ensures Inv(cfg, Next(cfg, w, e).value) && AllEvolve(w, Next(cfg, w, e).value)
  {
    hide Inv, AllEvolve, Started, Moved, CancelBegun, CancelFinished, CancelAbandoned, CloseBegun, CloseFinishedOne,
         CloseFinished, CloseAbandoned, ManagerMade;
    match e
    case NewManager(m) => NewManagerKeeps(cfg, w, m);
    case Start(m, id, ends, overwrite) => StartKeeps(cfg, w, m, id, ends, overwrite);
    case Body(id, b) => BodyKeeps(cfg, w, id, b);
    case Prune(m) => DroppingKeeps(cfg, w, m, Next(cfg, w, e).value.registered, Next(cfg, w, e).value);
    case BeginCancel(call, m, id) => BeginCancelKeeps(cfg, w, call, m, id);
    case FinishCancel(call) => FinishCancelKeeps(cfg, w, call);
    case AbandonCancel(call) => AbandonCancelKeeps(cfg, w, call);
    case BeginClose(m) => BeginCloseKeeps(cfg, w, m);
    case FinishCloseOne(m, id) => FinishCloseOneKeeps(cfg, w, m, id);
    case FinishClose(m) => FinishCloseKeeps(cfg, w, m);
    case AbandonClose(m) => AbandonCloseKeeps(cfg, w, m);
    case Elsewhere(key, node) => ElsewhereKeeps(cfg, w, Next(cfg, w, e).value);
    case Tick => ElsewhereKeeps(cfg, w, Next(cfg, w, e).value);
  }

  /** Destinations and the clock concern no account. */
  lemma ElsewhereKeeps(cfg: Config, w: World, w': World)
    requires Inv(cfg, w) && w' == w.(nodes := w'.nodes, clock := w'.clock)
    ensures Inv(cfg, w') && AllEvolve(w, w')
  {
    hide OperationOk;
    MovingKeeps(cfg, w, w');
    WaitsKeep(w, w');
  }
}
