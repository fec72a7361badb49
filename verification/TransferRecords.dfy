/** The accounting part of a transfer operation as a value, and what each piece
    of bookkeeping in remote_ssh_mcp/transfers.py does to it. The classes in
    TransferManager and the interleavings in TransferWorld share these. */
module TransferRecords {
  import opened Options

  datatype State = Pending | Running | Verifying | Completed | Failed | Cancelled
  {
    predicate Final() { Completed? || Failed? || Cancelled? }

    /** Position in the life of an operation. */
    function Rank(): nat {
      if Pending? then 0 else if Running? then 1 else if Verifying? then 2 else 3
    }
  }

  datatype Record = Record(
    key: string,
    state: State,
    startedAt: Option<nat>,
    finishedAt: Option<nat>,
    reserved: bool)

  function NewRecord(key: string): Record {
    Record(key, Pending, None, None, false)
  }

  /** `_set_state`: entering a final state stamps the record and gives its
      claim back if it still holds one. */
  function SetState(r: Record, claimed: set<string>, s: State, now: nat): (Record, set<string>) {
    var started := if s.Running? && r.startedAt.None? then Some(now) else r.startedAt;
    if s.Final() then
      (r.(state := s, startedAt := started, finishedAt := Some(now), reserved := false),
       if r.reserved then claimed - {r.key} else claimed)
    else
      (r.(state := s, startedAt := started), claimed)
  }

  /** What `close` makes of an operation once the tasks it waited for are over. */
  function CloseFallback(r: Record, waited: bool, now: nat): Record {
    if waited && !r.state.Final() then SetState(r, {}, Cancelled, now).0 else r
  }

  function CloseReleases(r: Record, waited: bool): set<string> {
    if waited && !r.state.Final() && r.reserved then {r.key} else {}
  }

  predicate Expires(r: Record, now: nat, ttl: nat) {
    r.finishedAt.Some? && now - r.finishedAt.value >= ttl
  }

  /** The registered records that survive `_prune`. */
  function Pruned(records: map<string, Record>, now: nat, ttl: nat): map<string, Record> {
    map id | id in records && !Expires(records[id], now, ttl) :: records[id]
  }

  function ActiveIds(records: map<string, Record>): set<string> {
    set id | id in records && !records[id].state.Final()
  }

  datatype Outcome = Registered | ManagerClosed | LimitReached | Conflict

  datatype Registration = Registration(records: map<string, Record>, claimed: set<string>, outcome: Outcome)

  /** `_register`. Expired records are pruned even when the registration is
      then refused. */
  function Register(
    records: map<string, Record>, claimed: set<string>, closed: bool,
    maxTransfers: nat, ttl: nat, now: nat, id: string, r: Record): Registration
  {
    if closed then Registration(records, claimed, ManagerClosed)
    else
      var kept := Pruned(records, now, ttl);
      if |ActiveIds(kept)| >= maxTransfers then Registration(kept, claimed, LimitReached)
      else if r.key in claimed then Registration(kept, claimed, Conflict)
      else Registration(kept[id := r.(reserved := true)], claimed + {r.key}, Registered)
  }

  /** What registration does when the manager is open. */
  lemma RegisterMeaning(
    records: map<string, Record>, claimed: set<string>, maxTransfers: nat, ttl: nat, now: nat, id: string, rec: Record)
    ensures var r := Register(records, claimed, false, maxTransfers, ttl, now, id, rec);
            var kept := Pruned(records, now, ttl);
            if |ActiveIds(kept)| < maxTransfers && rec.key !in claimed
            then r == Registration(kept[id := rec.(reserved := true)], claimed + {rec.key}, Registered)
            else !r.outcome.Registered? && r.records == kept && r.claimed == claimed
  {
  }

  /** Pruning never takes an operation that is still in progress. */
  lemma PruneKeepsActive(records: map<string, Record>, now: nat, ttl: nat)
    requires forall id | id in records :: records[id].finishedAt.Some? ==> records[id].state.Final()
    ensures ActiveIds(Pruned(records, now, ttl)) == ActiveIds(records)
  {
  }

  /** Which refusal is given: a closed manager comes first, then too many
      operations in progress, then a claimed destination. */
  lemma RefusalExactly(
    records: map<string, Record>, claimed: set<string>, closed: bool,
    maxTransfers: nat, ttl: nat, now: nat, id: string, rec: Record)
    requires forall i | i in records :: records[i].finishedAt.Some? ==> records[i].state.Final()
    ensures var outcome := Register(records, claimed, closed, maxTransfers, ttl, now, id, rec).outcome;
            var inProgress := set i | i in records && !records[i].state.Final();
            && (outcome == ManagerClosed <==> closed)
            && (outcome == LimitReached <==> !closed && |inProgress| >= maxTransfers)
            && (outcome == Conflict <==> !closed && |inProgress| < maxTransfers && rec.key in claimed)
            && (outcome == Registered <==> !closed && |inProgress| < maxTransfers && rec.key !in claimed)
  {
    PruneKeepsActive(records, now, ttl);
    assert ActiveIds(records) == set i | i in records && !records[i].state.Final();
  }
}
