/** The main results about runs of TransferWorld. */
module TransferRuns {
  import opened PartialNames
  import opened TransferWorld
  import opened TransferInvariant
  import opened TransferSteps
  import R = TransferRecords

  /** Every operation is named by its endpoints. */
  ghost predicate Named(w: World) {
    forall id | id in w.ops :: w.ops[id].ends.Valid() && w.ops[id].rec.key == ResourceKey(w.ops[id].ends)
  }

  lemma EvolvesTrans(a: Operation, b: Operation, c: Operation)
    requires Evolves(a, b) && Evolves(b, c)
    ensures Evolves(a, c)
  {
  }

  /** Only starting a transfer makes an operation. */
  lemma OnlyStartAdds(cfg: Config, w: World, e: Event)
    requires Next(cfg, w, e).Some? && !e.Start?
    ensures Next(cfg, w, e).value.ops.Keys == w.ops.Keys
  {
  }

  lemma StartNames(cfg: Config, w: World, m: ManagerId, id: string, ends: Endpoints, overwrite: bool)
    requires Started(cfg, w, m, id, ends, overwrite).Some?
    ensures var w' := Started(cfg, w, m, id, ends, overwrite).value;
            && w.ops.Keys <= w'.ops.Keys <= w.ops.Keys + {id}
            && (id in w'.ops ==> w'.ops[id].ends == ends && ends.Valid() && w'.ops[id].rec.key == ResourceKey(ends))
  {
    hide ResourceKey, Endpoints.Valid, R.Pruned, R.ActiveIds;
  }

  lemma NamedKeeps(w: World, w': World)
    requires Named(w) && AllEvolve(w, w')
    requires forall id | id in w'.ops && id !in w.ops ::
               w'.ops[id].ends.Valid() && w'.ops[id].rec.key == ResourceKey(w'.ops[id].ends)
    ensures Named(w')
  {
    forall id | id in w'.ops ensures w'.ops[id].ends.Valid() && w'.ops[id].rec.key == ResourceKey(w'.ops[id].ends) {
      if id in w.ops {
        assert Evolves(w.ops[id], w'.ops[id]);
      }
    }
  }

  lemma NewNamed(cfg: Config, w: World, e: Event)
    requires Next(cfg, w, e).Some?
    ensures var w' := Next(cfg, w, e).value;
            forall id | id in w'.ops && id !in w.ops ::
              w'.ops[id].ends.Valid() && w'.ops[id].rec.key == ResourceKey(w'.ops[id].ends)
  {
    assert e.Start? ==> Next(cfg, w, e) == Started(cfg, w, e.m, e.id, e.ends, e.overwrite);
    hide Next, Started, ResourceKey, Endpoints.Valid;
    if e.Start? {
      StartNames(cfg, w, e.m, e.id, e.ends, e.overwrite);
    } else {
      OnlyStartAdds(cfg, w, e);
    }
  }

  lemma NamedStep(cfg: Config, w: World, e: Event)
    requires Inv(cfg, w) && Named(w) && Next(cfg, w, e).Some?
    ensures Named(Next(cfg, w, e).value)
  {
    hide Inv, Next, Named, ResourceKey, Endpoints.Valid;
    StepKeeps(cfg, w, e);
    NewNamed(cfg, w, e);
    NamedKeeps(w, Next(cfg, w, e).value);
  }

  lemma InitialOk(cfg: Config)
    ensures Inv(cfg, INITIAL) && Named(INITIAL)
  {
  }

  lemma RunStep(cfg: Config, ws: seq<World>, es: seq<Event>, i: nat)
    requires IsRun(cfg, ws, es) && i < |es|
    ensures Next(cfg, ws[i], es[i]).Some? && Next(cfg, ws[i], es[i]).value == ws[i + 1]
  {
    assert Follows(cfg, ws, es, i);
  }

  lemma {:induction false} RunInv(cfg: Config, ws: seq<World>, es: seq<Event>, i: nat)
    requires IsRun(cfg, ws, es) && i < |ws|
    ensures Inv(cfg, ws[i]) && Named(ws[i])
  {
    if i == 0 {
      InitialOk(cfg);
    } else {
      RunInv(cfg, ws, es, i - 1);
      RunStep(cfg, ws, es, i - 1);
      StepKeeps(cfg, ws[i - 1], es[i - 1]);
      NamedStep(cfg, ws[i - 1], es[i - 1]);
    }
  }

  lemma {:induction false} RunEvolves(cfg: Config, ws: seq<World>, es: seq<Event>, i: nat, j: nat)
    requires IsRun(cfg, ws, es) && i <= j < |ws|
    ensures AllEvolve(ws[i], ws[j])
  {
    if i < j {
      RunEvolves(cfg, ws, es, i, j - 1);
      RunInv(cfg, ws, es, j - 1);
      RunStep(cfg, ws, es, j - 1);
      StepKeeps(cfg, ws[j - 1], es[j - 1]);
      forall id | id in ws[i].ops ensures Evolves(ws[i].ops[id], ws[j].ops[id]) {
        EvolvesTrans(ws[i].ops[id], ws[j - 1].ops[id], ws[j].ops[id]);
      }
    }
  }

  predicate Unfinished(w: World, id: string) {
    id in w.ops && !w.ops[id].rec.state.Final()
  }

  /** The unfinished operations of one manager. */
  function UnfinishedOf(w: World, m: ManagerId): set<string> {
    set id | id in w.ops && w.ops[id].manager == m && Unfinished(w, id)
  }

  lemma UnfinishedIsReserved(w: World, id: string)
    requires Operations(w) && id in w.ops
    ensures Unfinished(w, id) <==> w.ops[id].rec.reserved
  {
    assert OperationOk(w.ops[id]);
  }

  /** In every state of every run the claimed keys are exactly the keys of the
      unfinished operations, which are exactly the reserved ones and are all in
      a dictionary. */
  lemma ClaimsAreExact(cfg: Config, ws: seq<World>, es: seq<Event>, k: nat)
    requires IsRun(cfg, ws, es) && k < |ws|
    ensures ws[k].claimed == set id | id in ws[k].ops && Unfinished(ws[k], id) :: ResourceKey(ws[k].ops[id].ends)
    ensures forall id | id in ws[k].ops :: Unfinished(ws[k], id) <==> ws[k].ops[id].rec.reserved
    ensures forall id | id in ws[k].ops && Unfinished(ws[k], id) :: id in ws[k].registered
  {
    RunInv(cfg, ws, es, k);
    var w := ws[k];
    forall id | id in w.ops ensures Unfinished(w, id) <==> w.ops[id].rec.reserved {
      UnfinishedIsReserved(w, id);
    }
    assert HeldKeys(w) == set id | id in w.ops && Unfinished(w, id) :: ResourceKey(w.ops[id].ends);
  }

  /** Never do two unfinished operations, of whatever sessions, write to the
      same destination. */
  lemma DestinationsAreExclusive(cfg: Config, ws: seq<World>, es: seq<Event>, k: nat, i: string, j: string)
    requires IsRun(cfg, ws, es) && k < |ws|
    requires Unfinished(ws[k], i) && Unfinished(ws[k], j) && i != j
    ensures !SameDestination(ws[k].ops[i].ends, ws[k].ops[j].ends)
  {
    RunInv(cfg, ws, es, k);
    UnfinishedIsReserved(ws[k], i);
    UnfinishedIsReserved(ws[k], j);
    ResourceKeyMeaning(ws[k].ops[i].ends, ws[k].ops[j].ends);
  }

  /** No session ever has more than the configured number of transfers. */
  lemma TransfersAreBounded(cfg: Config, ws: seq<World>, es: seq<Event>, k: nat, m: ManagerId)
    requires IsRun(cfg, ws, es) && k < |ws| && m in ws[k].managers
    ensures |UnfinishedOf(ws[k], m)| <= cfg.maxTransfers
  {
    RunInv(cfg, ws, es, k);
    assert ActiveOf(ws[k], m) == UnfinishedOf(ws[k], m);
  }

  /** Along every run an operation only moves forward; once final, its state,
      its finishing time and its released claim never change again, whoever
      else tries to finish it. */
  lemma FinalIsAbsorbing(cfg: Config, ws: seq<World>, es: seq<Event>, i: nat, j: nat, id: string)
    requires IsRun(cfg, ws, es) && i <= j < |ws| && id in ws[i].ops
    ensures id in ws[j].ops
    ensures ws[i].ops[id].rec.state.Rank() <= ws[j].ops[id].rec.state.Rank()
    ensures !Unfinished(ws[i], id) ==> ws[j].ops[id].rec == ws[i].ops[id].rec
    ensures !ws[i].ops[id].rec.reserved ==> !ws[j].ops[id].rec.reserved
  {
    RunEvolves(cfg, ws, es, i, j);
    assert Evolves(ws[i].ops[id], ws[j].ops[id]);
  }

  /** A `cancel` that found its operation unfinished decides its fate: from then
      on the operation never completes or fails. */
  lemma CancelDecides(cfg: Config, ws: seq<World>, es: seq<Event>, i: nat, j: nat, call: nat)
    requires IsRun(cfg, ws, es) && i <= j < |ws| && call in ws[i].calls
    ensures var id := ws[i].calls[call];
            id in ws[j].ops && (Unfinished(ws[j], id) || ws[j].ops[id].rec.state.Cancelled?)
  {
    RunInv(cfg, ws, es, i);
    RunEvolves(cfg, ws, es, i, j);
    var id := ws[i].calls[call];
    assert Evolves(ws[i].ops[id], ws[j].ops[id]);
  }

  /** When such a call returns it answers `cancelled`, and that is the state,
      even if the task was cancelled before its first statement ran. */
  lemma CancelAnswers(cfg: Config, ws: seq<World>, es: seq<Event>, i: nat, call: nat)
    requires IsRun(cfg, ws, es) && i < |es| && es[i] == FinishCancel(call)
    ensures call in ws[i].calls && ws[i + 1].reports == ws[i].reports[call := R.Cancelled]
    ensures var id := ws[i].calls[call];
            id in ws[i + 1].ops && ws[i + 1].ops[id].rec.state.Cancelled?
  {
    RunInv(cfg, ws, es, i);
    RunStep(cfg, ws, es, i);
    FinishCancelKeeps(cfg, ws[i], call);
  }

  lemma {:induction false} ClosedStays(cfg: Config, ws: seq<World>, es: seq<Event>, i: nat, j: nat, m: ManagerId)
    requires IsRun(cfg, ws, es) && i <= j < |ws|
    requires m in ws[i].managers && ws[i].managers[m].Closed?
    ensures m in ws[j].managers && ws[j].managers[m].Closed?
  {
    if i < j {
      ClosedStays(cfg, ws, es, i, j - 1, m);
      RunStep(cfg, ws, es, j - 1);
      ClosedStep(cfg, ws[j - 1], es[j - 1], m);
    }
  }

  lemma ClosedStep(cfg: Config, w: World, e: Event, m: ManagerId)
    requires Next(cfg, w, e).Some? && m in w.managers && w.managers[m].Closed?
    ensures m in Next(cfg, w, e).value.managers && Next(cfg, w, e).value.managers[m].Closed?
  {
  }

  /** After a `close` that returned, its manager never again has an unfinished
      operation, however many starts were suspended when it began. */
  lemma ClosedIsIdle(cfg: Config, ws: seq<World>, es: seq<Event>, i: nat, j: nat, m: ManagerId)
    requires IsRun(cfg, ws, es) && i <= j < |ws|
    requires m in ws[i].managers && ws[i].managers[m].Closed?
    ensures forall id | Unfinished(ws[j], id) :: ws[j].ops[id].manager != m
  {
    ClosedStays(cfg, ws, es, i, j, m);
    RunInv(cfg, ws, es, j);
    assert forall id | Unfinished(ws[j], id) :: id in ActiveOf(ws[j], ws[j].ops[id].manager);
  }

  lemma PartialsDiffer(cfg: Config, w: World, i: string, j: string)
    requires Inv(cfg, w) && Named(w)
    requires Unfinished(w, i) && Unfinished(w, j) && i != j
    requires DigestSeparates(cfg.token, w.ops[i].ends, w.ops[j].ends)
    ensures PartialName(cfg.token, w.ops[i].ends) != PartialName(cfg.token, w.ops[j].ends)
  {
    var a, b := w.ops[i], w.ops[j];
    assert OperationOk(a) && OperationOk(b);
    if PartialName(cfg.token, a.ends) == PartialName(cfg.token, b.ends) {
      SamePartialSameEndpoints(cfg.token, a.ends, b.ends);
    }
  }

  /** Two unfinished operations never use the same partial file, unless the
      digest collides on their names. */
  lemma PartialsAreExclusive(cfg: Config, ws: seq<World>, es: seq<Event>, k: nat, i: string, j: string)
    requires IsRun(cfg, ws, es) && k < |ws|
    requires Unfinished(ws[k], i) && Unfinished(ws[k], j) && i != j
    requires DigestSeparates(cfg.token, ws[k].ops[i].ends, ws[k].ops[j].ends)
    ensures PartialName(cfg.token, ws[k].ops[i].ends) != PartialName(cfg.token, ws[k].ops[j].ends)
  {
    RunInv(cfg, ws, es, k);
    PartialsDiffer(cfg, ws[k], i, j);
  }
}
