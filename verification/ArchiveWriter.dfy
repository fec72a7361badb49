/** The writing half of tools/container_payload.py: which inputs are accepted,
    in what order they are written, and how long the archive gets. */
module ArchiveWriter {
  import opened Options
  import opened Bytes
  import opened ArchivePaths
  import opened Canonical
  import opened Splitting

  const BLOCK: nat := 512
  const RECORD: nat := 10240

  /** What `stat` tells one state of one file from another by. */
  datatype Identity = Identity(device: nat, inode: nat, mtime: int, ctime: int)

  /** What `stat` and a read show of one path at one moment. */
  datatype Input =
    | Missing
    | Present(regular: bool, links: nat, mode: nat, content: Bytes, identity: Identity)

  type Entry = Named<Input>

  datatype Error =
    | InvalidLimits | Unsafe | Duplicate | CannotInspect | NotRegular
    | MultipleLinks | TooManyMembers | TooManyBytes | Empty
    | CannotRead | Changed | Disappeared | ChangedWhileStreaming

  datatype Frozen = Ok(entries: seq<Entry>) | Err(error: Error)

  function Size(e: Entry): nat {
    if e.value.Present? then |e.value.content| else 0
  }

  function TotalBytes(entries: seq<Entry>): nat {
    if entries == [] then 0 else TotalBytes(entries[..|entries| - 1]) + Size(entries[|entries| - 1])
  }

  /** An input that can be written by itself. */
  predicate Writable(e: Entry) {
    && SafeArchivePath(e.name).Some?
    && e.value.Present? && e.value.regular && e.value.links == 1
  }

  predicate AllWritable(entries: seq<Entry>) {
    forall i | 0 <= i < |entries| :: Writable(entries[i])
  }

  /** Inputs that can be written together. */
  ghost predicate Fits(entries: seq<Entry>, maxMembers: int, maxBytes: int) {
    && AllWritable(entries)
    && Distinct(entries)
    && |entries| <= maxMembers
    && TotalBytes(entries) <= maxBytes
  }

  ghost predicate Freezable(entries: seq<Entry>, maxMembers: int, maxBytes: int, allowEmpty: bool) {
    && maxMembers > 0 && maxBytes >= 0
    && Fits(entries, maxMembers, maxBytes)
    && (entries == [] ==> allowEmpty)
  }

  predicate Taken(before: seq<Entry>, name: Bytes) {
    exists k | 0 <= k < |before| :: before[k].name == name
  }

  /** What is wrong with `e` after the entries `before` it, in the order in which
      it is looked for. */
  function Fault(before: seq<Entry>, e: Entry, maxMembers: int, maxBytes: int): Option<Error> {
    if SafeArchivePath(e.name).None? then Some(Unsafe)
    else if Taken(before, e.name) then Some(Duplicate)
    else if e.value.Missing? then Some(CannotInspect)
    else if !e.value.regular then Some(NotRegular)
    else if e.value.links != 1 then Some(MultipleLinks)
    else if |before| >= maxMembers then Some(TooManyMembers)
    else if TotalBytes(before) + Size(e) > maxBytes then Some(TooManyBytes)
    else None
  }

  /** Which fault is found: every other one that applies is looked for later. */
  lemma FaultExactly(before: seq<Entry>, e: Entry, maxMembers: int, maxBytes: int)
    ensures var f := Fault(before, e, maxMembers, maxBytes);
            var named := exists path :: OrdinaryPath(path) && e.name == Join(path, SLASH);
            var free := named && forall k | 0 <= k < |before| :: before[k].name != e.name;
            && (f == Some(Unsafe) <==> !named)
            && (f == Some(Duplicate) <==> named && !free)
            && (f == Some(CannotInspect) <==> free && e.value.Missing?)
            && (f == Some(NotRegular) <==> free && e.value.Present? && !e.value.regular)
            && (f == Some(MultipleLinks) <==> free && e.value.Present? && e.value.regular && e.value.links != 1)
            && (f == Some(TooManyMembers) <==> free && Writable(e) && |before| >= maxMembers)
            && (f == Some(TooManyBytes) <==>
                  free && Writable(e) && |before| < maxMembers && TotalBytes(before) + |e.value.content| > maxBytes)
  {
    NamedExactly(e.name);
    hide SafeArchivePath, OrdinaryPath, Join, TotalBytes;
  }

  lemma NamedExactly(name: Bytes)
    ensures SafeArchivePath(name).Some? <==> exists path :: OrdinaryPath(path) && name == Join(path, SLASH)
  {
    if SafeArchivePath(name).Some? {
      SafeMeaning(name, SafeArchivePath(name).value);
    }
    forall path | OrdinaryPath(path) && name == Join(path, SLASH) ensures SafeArchivePath(name) == Some(path) {
      SafeMeaning(name, path);
    }
    hide SafeArchivePath, OrdinaryPath, Join;
  }

  /** The reason given is the first there is. */
  ghost predicate Refused(entries: seq<Entry>, maxMembers: int, maxBytes: int, allowEmpty: bool, error: Error) {
    if maxMembers <= 0 || maxBytes < 0 then error == InvalidLimits
    else if entries == [] then !allowEmpty && error == Empty
    else
      exists i | 0 <= i < |entries| ::
        && Fits(entries[..i], maxMembers, maxBytes)
        && Fault(entries[..i], entries[i], maxMembers, maxBytes) == Some(error)
  }

  lemma TotalSnoc(before: seq<Entry>, e: Entry)
    ensures TotalBytes(before + [e]) == TotalBytes(before) + Size(e)
  {
    assert (before + [e])[..|before|] == before;
  }

  lemma DistinctSnoc(before: seq<Entry>, e: Entry)
    requires Distinct(before)
    ensures Distinct(before + [e]) <==> !Taken(before, e.name)
  {
    var after := before + [e];
    if Taken(before, e.name) {
      var k :| 0 <= k < |before| && before[k].name == e.name;
      assert after[k].name == after[|before|].name;
    }
  }

  lemma WritableSnoc(before: seq<Entry>, e: Entry)
    ensures AllWritable(before + [e]) <==> AllWritable(before) && Writable(e)
  {
    var after := before + [e];
    if AllWritable(after) {
      assert Writable(after[|before|]);
      assert forall i | 0 <= i < |before| :: after[i] == before[i];
    }
  }

  lemma FaultNone(before: seq<Entry>, e: Entry, maxMembers: int, maxBytes: int)
    ensures Fault(before, e, maxMembers, maxBytes).None? <==>
              && Writable(e) && !Taken(before, e.name)
              && |before| < maxMembers && TotalBytes(before) + Size(e) <= maxBytes
  {
    hide SafeArchivePath;
  }

  lemma FitsStep(before: seq<Entry>, e: Entry, maxMembers: int, maxBytes: int)
    requires Fits(before, maxMembers, maxBytes)
    ensures Fault(before, e, maxMembers, maxBytes).None? <==> Fits(before + [e], maxMembers, maxBytes)
  {
    hide SafeArchivePath;
    FaultNone(before, e, maxMembers, maxBytes);
    TotalSnoc(before, e);
    DistinctSnoc(before, e);
    WritableSnoc(before, e);
  }

  lemma {:induction false} FitsPrefix(entries: seq<Entry>, i: nat, maxMembers: int, maxBytes: int)
    requires i <= |entries| && Fits(entries, maxMembers, maxBytes)
    ensures Fits(entries[..i], maxMembers, maxBytes)
    decreases |entries|
  {
    hide SafeArchivePath;
    if i < |entries| {
      var n := |entries| - 1;
      FitsPrefix(entries[..n], i, maxMembers, maxBytes);
      assert entries[..n][..i] == entries[..i];
    } else {
      assert entries[..i] == entries;
    }
  }

  /** The first fault refuses the whole. */
  lemma FaultRefuses(entries: seq<Entry>, i: nat, maxMembers: int, maxBytes: int, allowEmpty: bool)
    requires i < |entries| && maxMembers > 0 && maxBytes >= 0 && Fits(entries[..i], maxMembers, maxBytes)
    ensures var fault := Fault(entries[..i], entries[i], maxMembers, maxBytes);
            match fault
            case None => Fits(entries[..i + 1], maxMembers, maxBytes)
            case Some(error) =>
              !Fits(entries, maxMembers, maxBytes) && Refused(entries, maxMembers, maxBytes, allowEmpty, error)
  {
    hide SafeArchivePath;
    assert entries[..i + 1] == entries[..i] + [entries[i]];
    FitsStep(entries[..i], entries[i], maxMembers, maxBytes);
    if Fits(entries, maxMembers, maxBytes) {
      FitsPrefix(entries, i + 1, maxMembers, maxBytes);
    }
  }

  /** The paths named by entries. */
  function Paths(entries: seq<Entry>): set<Path>
    requires AllWritable(entries)
  {
    set i | 0 <= i < |entries| :: SafeArchivePath(entries[i].name).value
  }

  /** Two spellings never name one path, so comparing paths compares names. */
  lemma DuplicatePath(before: seq<Entry>, e: Entry)
    requires AllWritable(before) && SafeArchivePath(e.name).Some?
    ensures SafeArchivePath(e.name).value in Paths(before) <==> Taken(before, e.name)
  {
    var p := SafeArchivePath(e.name).value;
    if p in Paths(before) {
      var k :| 0 <= k < |before| && SafeArchivePath(before[k].name).value == p;
      SafePathsDistinct(before[k].name, e.name);
    }
  }

  lemma PathsSnoc(before: seq<Entry>, e: Entry)
    requires AllWritable(before) && Writable(e)
    ensures AllWritable(before + [e])
    ensures Paths(before + [e]) == Paths(before) + {SafeArchivePath(e.name).value}
  {
    WritableSnoc(before, e);
    var after := before + [e];
    forall i | 0 <= i < |before| ensures SafeArchivePath(before[i].name).value in Paths(after) {
      assert after[i] == before[i];
    }
    assert after[|before|] == e;
  }

  /** The checks on one entry, given what the loop kept of those before it. */
  method Check(e: Entry, names: set<Path>, count: nat, total: nat, maxMembers: int, maxBytes: int, ghost before: seq<Entry>)
    returns (fault: Option<Error>)
    requires AllWritable(before) && names == Paths(before) && count == |before| && total == TotalBytes(before)
    ensures fault == Fault(before, e, maxMembers, maxBytes)
  {
    var name := SafeArchivePath(e.name);
    if name.None? {
      return Some(Unsafe);
    }
    DuplicatePath(before, e);
    if name.value in names {
      return Some(Duplicate);
    }
    if e.value.Missing? {
      return Some(CannotInspect);
    }
    if !e.value.regular {
      return Some(NotRegular);
    }
    if e.value.links != 1 {
      return Some(MultipleLinks);
    }
    if count >= maxMembers {
      return Some(TooManyMembers);
    }
    if total + |e.value.content| > maxBytes {
      return Some(TooManyBytes);
    }
    return None;
  }

  method FreezeEntries(entries: seq<Entry>, maxMembers: int, maxBytes: int, allowEmpty: bool) returns (r: Frozen)
    ensures r.Ok? <==> Freezable(entries, maxMembers, maxBytes, allowEmpty)
    ensures r.Ok? ==> r.entries == Sort(entries)
    ensures r.Err? ==> Refused(entries, maxMembers, maxBytes, allowEmpty, r.error)
  {
    hide SafeArchivePath;
    if maxMembers <= 0 || maxBytes < 0 {
      return Err(InvalidLimits);
    }
    var names: set<Path>, total, frozen: seq<Entry> := {}, 0, [];
    for i := 0 to |entries|
      invariant frozen == entries[..i] && Fits(frozen, maxMembers, maxBytes)
      invariant names == Paths(frozen) && total == TotalBytes(frozen)
    {
      var e := entries[i];
      FaultRefuses(entries, i, maxMembers, maxBytes, allowEmpty);
      var fault := Check(e, names, |frozen|, total, maxMembers, maxBytes, frozen);
      if fault.Some? {
        return Err(fault.value);
      }
      PathsSnoc(frozen, e);
      TotalSnoc(frozen, e);
      assert entries[..i + 1] == frozen + [e];
      names := names + {SafeArchivePath(e.name).value};
      total := total + Size(e);
      frozen := frozen + [e];
    }
    assert entries[..|entries|] == entries;
    if frozen == [] && !allowEmpty {
      return Err(Empty);
    }
    return Ok(Sort(frozen));
  }

  /** One archive member: the header fields the reader looks at, and the bytes
      that follow. */
  datatype Member = Member(
    name: Bytes, regular: bool, sparse: bool, pax: bool, size: int,
    uid: int, gid: int, uname: Bytes, gname: Bytes, mtime: int, mode: int, content: Bytes)

  const OWNER_ONLY: int := 384        // 0o600
  const OWNER_EXECUTABLE: int := 448  // 0o700

  /** 0o700 if the owner's execute bit (0o100) is set, else 0o600. */
  function NormalMode(mode: nat): int {
    if mode / 64 % 2 == 1 then OWNER_EXECUTABLE else OWNER_ONLY
  }

  /** What a class of users may do, and the digit that says so. */
  datatype Rights = Rights(read: bool, write: bool, execute: bool)
  {
    function Digit(): nat {
      (if read then 4 else 0) + (if write then 2 else 0) + (if execute then 1 else 0)
    }
  }

  /** The permission bits for the owner, its group and others. */
  function Permissions(owner: Rights, group: Rights, others: Rights): nat {
    64 * owner.Digit() + 8 * group.Digit() + others.Digit()
  }

  /** Whatever kind of file it is and whatever else is permitted, the member may be
      read and written by its owner, executed exactly if the owner could, and
      nothing is left to anybody else. */
  lemma NormalModeMeaning(kind: nat, owner: Rights, group: Rights, others: Rights)
    ensures var nobody := Rights(false, false, false);
            NormalMode(512 * kind + Permissions(owner, group, others))
            == Permissions(Rights(true, true, owner.execute), nobody, nobody)
  {
    var low := 8 * group.Digit() + others.Digit();
    var high := 8 * kind + owner.Digit();
    assert 512 * kind + Permissions(owner, group, others) == 64 * high + low && low < 64;
    OwnerBit(high, low);
    OwnerDigit(kind, owner);
  }

  lemma OwnerBit(high: nat, low: nat)
    requires low < 64
    ensures (64 * high + low) / 64 == high
  {
  }

  lemma OwnerDigit(kind: nat, owner: Rights)
    ensures (8 * kind + owner.Digit()) % 2 == if owner.execute then 1 else 0
  {
    var k := 4 * kind + (if owner.read then 2 else 0) + (if owner.write then 1 else 0);
    Parity(k);
    assert 8 * kind + owner.Digit() == 2 * k + (if owner.execute then 1 else 0);
    hide Rights.Digit;
  }

  lemma Parity(k: nat)
    ensures (2 * k) % 2 == 0 && (2 * k + 1) % 2 == 1
  {
  }

  function MemberOf(e: Entry): Member
    requires e.value.Present?
  {
    Member(e.name, true, false, false, |e.value.content|, 0, 0, [], [], 0, NormalMode(e.value.mode), e.value.content)
  }

  predicate AllPresent(entries: seq<Entry>) {
    forall i | 0 <= i < |entries| :: entries[i].value.Present?
  }

  function Members(entries: seq<Entry>): (members: seq<Member>)
    requires AllPresent(entries)
  {
    seq(|entries|, i requires 0 <= i < |entries| => MemberOf(entries[i]))
  }

  /** What the descriptor opened for streaming must still show. */
  predicate SameFile(frozen: Input, now: Input) {
    && frozen.Present? && now.Present? && now.regular && now.links == 1
    && now.identity == frozen.identity && |now.content| == |frozen.content|
  }

  /** What the path must still show once everything was streamed. */
  predicate StillThere(frozen: Input, now: Input) {
    SameFile(frozen, now) && now.mode == frozen.mode
  }

  /** The entries as they were found when opened for streaming. */
  function Reopened(entries: seq<Entry>, found: Bytes -> Input): seq<Entry> {
    seq(|entries|, i requires 0 <= i < |entries| => Named(entries[i].name, found(entries[i].name)))
  }

  predicate AllSame(entries: seq<Entry>, found: Bytes -> Input) {
    forall i | 0 <= i < |entries| :: SameFile(entries[i].value, found(entries[i].name))
  }

  predicate AllStillThere(entries: seq<Entry>, later: Bytes -> Input) {
    forall i | 0 <= i < |entries| :: StillThere(entries[i].value, later(entries[i].name))
  }

  datatype Written = Archive(members: seq<Member>) | Failed(error: Error)

  /** One member after another, each as it is found now. */
  method AddMembers(items: seq<Entry>, found: Bytes -> Input) returns (r: Written)
    ensures r.Archive? <==> AllSame(items, found)
    ensures r.Archive? ==> AllPresent(Reopened(items, found)) && r.members == Members(Reopened(items, found))
    ensures r.Failed? ==> r.error.CannotRead? || r.error.Changed?
  {
    var members: seq<Member> := [];
    for i := 0 to |items|
      invariant |members| == i
      invariant forall k | 0 <= k < i :: SameFile(items[k].value, found(items[k].name))
      invariant forall k | 0 <= k < i :: members[k] == MemberOf(Named(items[k].name, found(items[k].name)))
    {
      var now := found(items[i].name);
      if now.Missing? {
        return Failed(CannotRead);
      }
      if !SameFile(items[i].value, now) {
        return Failed(Changed);
      }
      members := members + [MemberOf(Named(items[i].name, now))];
    }
    return Archive(members);
  }

  /** The second look at every input. */
  method Recheck(items: seq<Entry>, later: Bytes -> Input) returns (fault: Option<Error>)
    ensures fault.None? <==> AllStillThere(items, later)
    ensures fault.Some? ==> fault.value.Disappeared? || fault.value.ChangedWhileStreaming?
  {
    for i := 0 to |items|
      invariant forall k | 0 <= k < i :: StillThere(items[k].value, later(items[k].name))
    {
      var now := later(items[i].name);
      if now.Missing? {
        return Some(Disappeared);
      }
      if !StillThere(items[i].value, now) {
        return Some(ChangedWhileStreaming);
      }
    }
    return None;
  }

  /** `write_archive`. `found` is what each path leads to when it is opened for
      streaming, `later` when everything was streamed. */
  method WriteArchive(
    entries: seq<Entry>, found: Bytes -> Input, later: Bytes -> Input, maxMembers: int, maxBytes: int, allowEmpty: bool)
    returns (r: Written)
    ensures r.Archive? <==>
              && Freezable(entries, maxMembers, maxBytes, allowEmpty)
              && AllSame(entries, found) && AllStillThere(entries, later)
    ensures r.Archive? ==>
              && AllPresent(Reopened(Sort(entries), found))
              && r.members == Members(Reopened(Sort(entries), found))
    ensures r.Failed? ==>
              match r.error
              case CannotRead => Freezable(entries, maxMembers, maxBytes, allowEmpty) && !AllSame(entries, found)
              case Changed => Freezable(entries, maxMembers, maxBytes, allowEmpty) && !AllSame(entries, found)
              case Disappeared => AllSame(entries, found) && !AllStillThere(entries, later)
              case ChangedWhileStreaming => AllSame(entries, found) && !AllStillThere(entries, later)
              case error => Refused(entries, maxMembers, maxBytes, allowEmpty, error)
  {
    hide Freezable, Refused, SameFile, StillThere;
    var frozen := FreezeEntries(entries, maxMembers, maxBytes, allowEmpty);
    if frozen.Err? {
      RefusedEarly(entries, maxMembers, maxBytes, allowEmpty, frozen.error);
      return Failed(frozen.error);
    }
    SortedSame(entries, found);
    SortedStillThere(entries, later);
    r := AddMembers(frozen.entries, found);
    if r.Archive? {
      var fault := Recheck(frozen.entries, later);
      if fault.Some? {
        r := Failed(fault.value);
      }
    }
  }

  lemma RefusedEarly(entries: seq<Entry>, maxMembers: int, maxBytes: int, allowEmpty: bool, error: Error)
    requires Refused(entries, maxMembers, maxBytes, allowEmpty, error)
    ensures !error.CannotRead? && !error.Changed? && !error.Disappeared? && !error.ChangedWhileStreaming?
  {
    hide SafeArchivePath;
  }

  lemma SortedSame(entries: seq<Entry>, found: Bytes -> Input)
    ensures AllSame(Sort(entries), found) <==> AllSame(entries, found)
  {
    hide SameFile;
    SortKeeps(entries);
    EverySame(entries, found);
    EverySame(Sort(entries), found);
  }

  lemma EverySame(entries: seq<Entry>, found: Bytes -> Input)
    ensures AllSame(entries, found) <==> forall e | e in Elements(entries) :: SameFile(e.value, found(e.name))
  {
    hide SameFile;
    if forall e | e in Elements(entries) :: SameFile(e.value, found(e.name)) {
      forall i | 0 <= i < |entries| ensures SameFile(entries[i].value, found(entries[i].name)) {
        assert entries[i] in Elements(entries);
      }
    }
  }

  lemma SortedStillThere(entries: seq<Entry>, later: Bytes -> Input)
    ensures AllStillThere(Sort(entries), later) <==> AllStillThere(entries, later)
  {
    hide StillThere;
    SortKeeps(entries);
    EveryStillThere(entries, later);
    EveryStillThere(Sort(entries), later);
  }

  lemma EveryStillThere(entries: seq<Entry>, later: Bytes -> Input)
    ensures AllStillThere(entries, later) <==> forall e | e in Elements(entries) :: StillThere(e.value, later(e.name))
  {
    hide StillThere;
    if forall e | e in Elements(entries) :: StillThere(e.value, later(e.name)) {
      forall i | 0 <= i < |entries| ensures StillThere(entries[i].value, later(entries[i].name)) {
        assert entries[i] in Elements(entries);
      }
    }
  }

  /** The states each inode of a file system has been in, one after another. */
  type Disk = (nat, nat) -> seq<Input>

  /** Every change of an inode, of its content, mode or links, moves its change
      time forward. */
  ghost predicate Stamps(disk: Disk) {
    forall d, n, i, j | 0 <= i < j < |disk(d, n)| :: Earlier(disk(d, n)[i], disk(d, n)[j])
  }

  predicate Earlier(a: Input, b: Input) {
    a.Present? && b.Present? && a.identity.ctime < b.identity.ctime
  }

  /** What was seen was a state of the inode it shows. */
  ghost predicate Seen(disk: Disk, x: Input) {
    x.Present? ==> x in disk(x.identity.device, x.identity.inode)
  }

  lemma LaterDiffers(disk: Disk, d: nat, n: nat, i: nat, j: nat)
    requires Stamps(disk) && i < |disk(d, n)| && j < |disk(d, n)|
    requires disk(d, n)[i].Present? && disk(d, n)[j].Present?
    ensures i < j ==> disk(d, n)[i].identity.ctime < disk(d, n)[j].identity.ctime
  {
    if i < j {
      assert Earlier(disk(d, n)[i], disk(d, n)[j]);
    }
  }

  /** Then equal device, inode and change time mean the same state. */
  lemma SameIdentity(disk: Disk, a: Input, b: Input)
    requires Stamps(disk) && Seen(disk, a) && Seen(disk, b) && a.Present? && b.Present? && a.identity == b.identity
    ensures a == b
  {
    var d, n := a.identity.device, a.identity.inode;
    var i :| 0 <= i < |disk(d, n)| && disk(d, n)[i] == a;
    var j :| 0 <= j < |disk(d, n)| && disk(d, n)[j] == b;
    hide Stamps;
    LaterDiffers(disk, d, n, i, j);
    LaterDiffers(disk, d, n, j, i);
  }

  /** On such a file system the check on opening is enough for what was streamed
      to be what was frozen. */
  lemma StreamedIsFrozen(entries: seq<Entry>, found: Bytes -> Input, disk: Disk)
    requires AllSame(entries, found) && Stamps(disk)
    requires forall i | 0 <= i < |entries| :: Seen(disk, entries[i].value) && Seen(disk, found(entries[i].name))
    ensures Reopened(entries, found) == entries
  {
    forall i | 0 <= i < |entries| ensures Reopened(entries, found)[i] == entries[i] {
      assert SameFile(entries[i].value, found(entries[i].name));
      SameIdentity(disk, entries[i].value, found(entries[i].name));
    }
  }

  lemma SortedPresent(entries: seq<Entry>)
    requires AllWritable(entries)
    ensures AllPresent(Sort(entries))
  {
    SortKeeps(entries);
    SameWritable(entries, Sort(entries));
  }

  // The same archive whatever the order of the entries.

  lemma {:induction false} TotalCons(e: Entry, s: seq<Entry>)
    ensures TotalBytes([e] + s) == Size(e) + TotalBytes(s)
  {
    if s == [] {
      assert [e] + s == [e];
      assert TotalBytes([e]) == TotalBytes([e][..0]) + Size(e);
    } else {
      var n := |s|;
      assert ([e] + s)[..n] == [e] + s[..n - 1];
      TotalCons(e, s[..n - 1]);
    }
  }

  lemma {:induction false} TotalInsert(e: Entry, s: seq<Entry>)
    ensures TotalBytes(Insert(e, s)) == Size(e) + TotalBytes(s)
  {
    if s == [] || Before(e.name, s[0].name) {
      TotalCons(e, s);
      assert s == [] ==> [e] + s == [e];
    } else {
      TotalInsert(e, s[1..]);
      TotalCons(s[0], s[1..]);
      TotalCons(s[0], Insert(e, s[1..]));
      assert [s[0]] + s[1..] == s;
    }
  }

  lemma {:induction false} TotalSort(s: seq<Entry>)
    ensures TotalBytes(Sort(s)) == TotalBytes(s)
  {
    if s != [] {
      TotalSort(s[..|s| - 1]);
      TotalInsert(s[|s| - 1], Sort(s[..|s| - 1]));
    }
  }

  lemma SortSame(a: seq<Entry>, b: seq<Entry>)
    requires Distinct(a) && Distinct(b) && Elements(a) == Elements(b)
    ensures Sort(a) == Sort(b) && |a| == |b| && TotalBytes(a) == TotalBytes(b)
  {
    SortForgetsOrder(a, b);
    TotalSort(a);
    TotalSort(b);
  }

  /** Every order of the same distinct entries is accepted or refused alike, and
      written to the same archive. */
  lemma ArchiveForgetsOrder(a: seq<Entry>, b: seq<Entry>, maxMembers: int, maxBytes: int, allowEmpty: bool)
    requires Distinct(a) && Distinct(b) && Elements(a) == Elements(b)
    ensures Freezable(a, maxMembers, maxBytes, allowEmpty) <==> Freezable(b, maxMembers, maxBytes, allowEmpty)
    ensures Sort(a) == Sort(b)
  {
    SortSame(a, b);
    if AllWritable(a) {
      SameWritable(a, b);
    }
    if AllWritable(b) {
      SameWritable(b, a);
    }
  }

  lemma SameWritable(a: seq<Entry>, b: seq<Entry>)
    requires Elements(a) == Elements(b) && AllWritable(a)
    ensures AllWritable(b)
  {
    forall i | 0 <= i < |b| ensures Writable(b[i]) {
      assert b[i] in Elements(b);
      assert b[i] in a;
    }
  }

  // Its length.

  function RoundUp(n: nat, unit: nat): (r: nat)
    requires unit > 0
    ensures n <= r < n + unit
  {
    if n % unit == 0 then n else n + (unit - n % unit)
  }

  /** One header block per member and its content filled up to whole blocks. */
  function MemberBytes(members: seq<Member>): nat {
    if members == [] then 0
    else
      var last := members[|members| - 1];
      MemberBytes(members[..|members| - 1]) + BLOCK + RoundUp(|last.content|, BLOCK)
  }

  /** Two zero blocks end an archive, filled up to whole records. */
  function RawLength(members: seq<Member>): nat {
    RoundUp(MemberBytes(members) + 2 * BLOCK, RECORD)
  }

  /** What the reader allows. */
  function RawLimit(maxMembers: nat, maxBytes: nat): nat {
    maxBytes + 8192 * maxMembers + RECORD
  }

  lemma {:induction false} MemberBytesBound(entries: seq<Entry>)
    requires AllPresent(entries)
    ensures MemberBytes(Members(entries)) <= TotalBytes(entries) + 1023 * |entries|
  {
    if entries != [] {
      var n := |entries| - 1;
      MemberBytesBound(entries[..n]);
      assert Members(entries)[..n] == Members(entries[..n]);
    }
  }

  /** Streaming keeps every frozen length, so the archive's length is that of the
      frozen entries. */
  lemma {:induction false} StreamedLength(entries: seq<Entry>, found: Bytes -> Input)
    requires AllSame(entries, found)
    ensures AllPresent(entries) && AllPresent(Reopened(entries, found))
    ensures MemberBytes(Members(Reopened(entries, found))) == MemberBytes(Members(entries))
  {
    if entries != [] {
      var n := |entries| - 1;
      StreamedLength(entries[..n], found);
      assert Reopened(entries, found)[..n] == Reopened(entries[..n], found);
      assert Members(entries)[..n] == Members(entries[..n]);
      assert Members(Reopened(entries, found))[..n] == Members(Reopened(entries[..n], found));
    }
  }

  lemma RoundsUp(n: nat)
    ensures RoundUp(n, BLOCK) % BLOCK == 0 && RoundUp(n, RECORD) % RECORD == 0
  {
    assert RoundUp(n, 512) % 512 == 0;
    assert RoundUp(n, 10240) % 10240 == 0;
  }

  lemma BlockMore(a: nat, b: nat)
    requires a % BLOCK == 0 && b % BLOCK == 0
    ensures (a + BLOCK + b) % BLOCK == 0
  {
    assert a == 512 * (a / 512) && b == 512 * (b / 512);
    assert a + BLOCK + b == 512 * (a / 512 + 1 + b / 512);
  }

  lemma {:induction false} WholeBlocks(entries: seq<Entry>)
    requires AllPresent(entries)
    ensures MemberBytes(Members(entries)) % BLOCK == 0
    ensures MemberBytes(Members(entries)) >= TotalBytes(entries) + BLOCK * |entries|
  {
    if entries != [] {
      var n := |entries| - 1;
      WholeBlocks(entries[..n]);
      assert Members(entries)[..n] == Members(entries[..n]);
      RoundsUp(|entries[n].value.content|);
      BlockMore(MemberBytes(Members(entries[..n])), RoundUp(|entries[n].value.content|, BLOCK));
      hide RoundUp;
    }
  }

  /** There is room for a header block and the content of each member and for the
      two blocks that end the archive, in whole records and not one more. */
  lemma RawLengthMeaning(entries: seq<Entry>)
    requires AllPresent(entries)
    ensures var members := Members(entries);
            && MemberBytes(members) % BLOCK == 0 && MemberBytes(members) >= TotalBytes(entries) + BLOCK * |entries|
            && RawLength(members) % RECORD == 0
            && MemberBytes(members) + 2 * BLOCK <= RawLength(members) < MemberBytes(members) + 2 * BLOCK + RECORD
  {
    WholeBlocks(entries);
    RoundsUp(MemberBytes(Members(entries)) + 2 * BLOCK);
    hide MemberBytes, RoundUp;
  }

  /** Whatever the writer accepts under two limits, the reader accepts the length
      of under the same limits. */
  lemma ArchiveFits(entries: seq<Entry>, maxMembers: nat, maxBytes: nat, allowEmpty: bool)
    requires Freezable(entries, maxMembers, maxBytes, allowEmpty)
    requires AllPresent(Sort(entries))
    ensures RawLength(Members(Sort(entries))) <= RawLimit(maxMembers, maxBytes)
  {
    MemberBytesBound(Sort(entries));
    TotalSort(entries);
  }

  /** And so it does for what was streamed. */
  lemma StreamedFits(entries: seq<Entry>, found: Bytes -> Input, maxMembers: nat, maxBytes: nat, allowEmpty: bool)
    requires Freezable(entries, maxMembers, maxBytes, allowEmpty) && AllSame(entries, found)
    ensures AllPresent(Reopened(Sort(entries), found))
    ensures RawLength(Members(Reopened(Sort(entries), found))) <= RawLimit(maxMembers, maxBytes)
  {
    hide SafeArchivePath, SameFile, AllSame, Freezable, MemberBytes, RoundUp, RawLimit, Members, Sort;
    SortedSame(entries, found);
    StreamedLength(Sort(entries), found);
    ArchiveFits(entries, maxMembers, maxBytes, allowEmpty);
  }
}
