/** The reading half of tools/container_payload.py: an archive becomes a new
    directory, whole or not at all. */
module ArchiveReader {
  import opened Options
  import opened Bytes
  import opened ArchivePaths
  import opened ArchiveWriter

  datatype File = File(content: Bytes, mode: int)

  /** The regular files of a directory, each by its path below it. The
      directories in between are those on the way to some file. */
  type Tree = map<Path, File>

  /** Permission bits, `stat.S_IMODE`. */
  function PermissionsOf(mode: int): int {
    mode % 4096
  }

  /** A member in the one form the writer gives members, with all its bytes. */
  predicate Plain(m: Member) {
    && m.regular && !m.sparse && !m.pax && m.size >= 0
    && m.uid == 0 && m.gid == 0 && m.uname == [] && m.gname == [] && m.mtime == 0
    && PermissionsOf(m.mode) in {OWNER_ONLY, OWNER_EXECUTABLE}
    && |m.content| == m.size
  }

  /** One path is the other, or leads through it. */
  predicate Comparable(a: Path, b: Path) {
    a <= b || b <= a
  }

  predicate Collides(tree: Tree, path: Path) {
    exists p | p in tree :: Comparable(p, path)
  }

  datatype Ending = Broken | Ends(trailing: Bytes)

  /** A stream as `tarfile` presents it: its members, whether it ends properly
      after them, and its length. */
  datatype Payload = Payload(members: seq<Member>, ending: Ending, rawLength: nat)

  /** What extraction makes of a member: its path if its name is safe, whether
      its header and content are as they must be, and the file it becomes. */
  datatype Item = Item(name: Bytes, path: Path, good: bool, size: int, file: File)

  function ItemOf(m: Member): (item: Item)
    ensures item.good ==> item.size >= 0
  {
    var file := File(m.content, PermissionsOf(m.mode));
    match SafeArchivePath(m.name)
    case None => Item(m.name, [], false, m.size, file)
    case Some(path) => Item(m.name, path, Plain(m), m.size, file)
  }

  function Items(members: seq<Member>): seq<Item> {
    seq(|members|, i requires 0 <= i < |members| => ItemOf(members[i]))
  }

  function TotalSize(items: seq<Item>): int {
    if items == [] then 0 else TotalSize(items[..|items| - 1]) + items[|items| - 1].size
  }

  predicate AllGood(items: seq<Item>) {
    forall i | 0 <= i < |items| :: items[i].good
  }

  /** No name is another or lies below it. */
  ghost predicate PrefixFree(items: seq<Item>) {
    forall i, j | 0 <= i < j < |items| :: !Comparable(items[i].path, items[j].path)
  }

  ghost predicate Within(items: seq<Item>, maxMembers: int, maxBytes: int) {
    && AllGood(items) && PrefixFree(items)
    && |items| <= maxMembers && TotalSize(items) <= maxBytes
  }

  /** What an archive must be to be extracted. */
  ghost predicate Acceptable(a: Payload, maxMembers: int, maxBytes: int, allowEmpty: bool) {
    && maxMembers > 0 && maxBytes >= 0
    && Within(Items(a.members), maxMembers, maxBytes)
    && (a.members == [] ==> allowEmpty)
    && a.ending.Ends? && (forall b | b in a.ending.trailing :: b == 0)
    && a.rawLength <= maxBytes + 8192 * maxMembers + 10240
  }

  function TreeOf(items: seq<Item>): Tree {
    if items == [] then map[]
    else
      var last := items[|items| - 1];
      TreeOf(items[..|items| - 1])[last.path := last.file]
  }

  function Digests(items: seq<Item>, digest: Bytes -> Bytes): map<Bytes, Bytes> {
    if items == [] then map[]
    else
      var last := items[|items| - 1];
      Digests(items[..|items| - 1], digest)[last.name := digest(last.file.content)]
  }

  /** A destination and the hidden partial directory beside it. */
  class Site {
    var destination: Option<Tree>
    var partial: Option<Tree>
    const parentIsDirectory: bool

    constructor (parentIsDirectory: bool)
      ensures destination == None && partial == None && this.parentIsDirectory == parentIsDirectory
    {
      destination, partial := None, None;
      this.parentIsDirectory := parentIsDirectory;
    }

    predicate Ready()
      reads this
    {
      parentIsDirectory && destination.None? && partial.None?
    }

    /** `_write_member`; `io` is whether the operating system cooperates. */
    method WriteMember(m: Member, io: bool) returns (written: bool)
      requires partial.Some?
      modifies this`partial
      ensures var item := ItemOf(m);
              && (written <==> io && item.good && !Collides(old(partial.value), item.path))
              && partial == Some(if written then old(partial.value)[item.path := item.file] else old(partial.value))
    {
      var tree := partial.value;
      var name := SafeArchivePath(m.name);
      if name.None? {
        return false;
      }
      if !m.regular || m.sparse || m.pax || m.size < 0 || m.uid != 0 || m.gid != 0 || m.uname != []
         || m.gname != [] || m.mtime != 0 || PermissionsOf(m.mode) !in {OWNER_ONLY, OWNER_EXECUTABLE} {
        return false;
      }
      // A parent is a file, or the target is a file or a directory.
      if (exists p | p in tree :: p < name.value) || (exists p | p in tree :: name.value <= p) || !io {
        return false;
      }
      partial := Some(tree[name.value := File(m.content, PermissionsOf(m.mode))]);
      if |m.content| != m.size {
        partial := Some(tree);
        return false;
      }
      return true;
    }

    /** The loop over the archive's members, into the partial directory. */
    method ExtractMembers(
      members: seq<Member>, maxMembers: int, maxBytes: int, faults: set<nat>, digest: Bytes -> Bytes)
      returns (digests: Option<map<Bytes, Bytes>>)
      requires partial == Some(map[]) && maxMembers > 0 && maxBytes >= 0
      modifies this`partial
      ensures partial.Some?
      ensures digests.Some? <==>
                && Within(Items(members), maxMembers, maxBytes)
                && forall i | 0 <= i < |members| :: i !in faults
      ensures digests.Some? ==>
                && partial.value == TreeOf(Items(members))
                && digests.value == Digests(Items(members), digest)
    {
      hide SafeArchivePath, Plain;
      var total, found := 0, map[];
      for i := 0 to |members|
        invariant partial.Some? && Received(partial.value, total, found, members, i, maxMembers, maxBytes, digest)
        invariant forall k | 0 <= k < i :: k !in faults
      {
        var m := members[i];
        ReceiveNext(partial.value, total, found, members, i, maxMembers, maxBytes, digest);
        total := total + m.size;
        if i + 1 > maxMembers || total > maxBytes {
          return None;
        }
        var written := WriteMember(m, i !in faults);
        if !written || m.name in found {
          return None;
        }
        found := found[m.name := digest(m.content)];
      }
      ReceivedAll(partial.value, total, found, members, maxMembers, maxBytes, digest);
      return Some(found);
    }

    /** `extract_archive`. `faults` says where the operating system fails: while
        writing that member, or, past the last one, when the partial directory is
        renamed. */
    method ExtractArchive(
      a: Payload, maxMembers: int, maxBytes: int, allowEmpty: bool, faults: set<nat>, digest: Bytes -> Bytes)
      returns (digests: Option<map<Bytes, Bytes>>)
      modifies this
      ensures digests.Some? <==>
                && old(Ready()) && Acceptable(a, maxMembers, maxBytes, allowEmpty)
                && forall i | 0 <= i <= |a.members| :: i !in faults
      ensures digests.Some? ==>
                && destination == Some(TreeOf(Items(a.members))) && partial == None
                && digests.value == Digests(Items(a.members), digest)
      ensures digests.None? ==> destination == old(destination) && partial == old(partial)
    {
      hide SafeArchivePath, Plain, Within;
      if maxMembers <= 0 || maxBytes < 0 {
        return None;
      }
      if destination.Some? || !parentIsDirectory || partial.Some? {
        return None;
      }
      partial := Some(map[]);
      digests := ExtractMembers(a.members, maxMembers, maxBytes, faults, digest);
      // Past the raw limit some read has failed by now, at the latest that of
      // the trailing bytes.
      if digests.None? || a.ending.Broken? || (a.members == [] && !allowEmpty)
         || a.rawLength > RawLimit(maxMembers, maxBytes)
         || (exists b | b in a.ending.trailing :: b != 0)
         || |a.members| in faults {
        partial := None;
        return None;
      }
      destination, partial := partial, None;
    }
  }

  function PathsOf(items: seq<Item>): set<Path> {
    set i | 0 <= i < |items| :: items[i].path
  }

  lemma PathsSnoc(items: seq<Item>)
    requires items != []
    ensures var n := |items| - 1; PathsOf(items) == PathsOf(items[..n]) + {items[n].path}
  {
    var n := |items| - 1;
    forall i | 0 <= i < |items| ensures items[i].path in PathsOf(items[..n]) + {items[n].path} {
      if i < n {
        assert items[..n][i] == items[i];
      }
    }
  }

  lemma {:induction false} TreeKeys(items: seq<Item>)
    ensures TreeOf(items).Keys == PathsOf(items)
  {
    if items != [] {
      TreeKeys(items[..|items| - 1]);
      PathsSnoc(items);
    }
  }

  lemma PrefixFreeSnoc(before: seq<Item>, item: Item)
    requires PrefixFree(before)
    ensures PrefixFree(before + [item]) <==> !Collides(TreeOf(before), item.path)
  {
    var after, n := before + [item], |before|;
    TreeKeys(before);
    if Collides(TreeOf(before), item.path) {
      var p :| p in TreeOf(before) && Comparable(p, item.path);
      assert p in PathsOf(before);
      var i :| 0 <= i < n && before[i].path == p;
      assert Comparable(after[i].path, after[n].path);
    } else {
      forall i, j | 0 <= i < j < |after| ensures !Comparable(after[i].path, after[j].path) {
        if j == n {
          assert after[i].path in PathsOf(before);
        }
      }
    }
  }

  lemma AllGoodSnoc(before: seq<Item>, item: Item)
    ensures AllGood(before + [item]) <==> AllGood(before) && item.good
  {
    var after := before + [item];
    assert after[|before|] == item && forall i | 0 <= i < |before| :: after[i] == before[i];
  }

  lemma WithinStep(before: seq<Item>, item: Item, maxMembers: int, maxBytes: int)
    requires Within(before, maxMembers, maxBytes)
    ensures Within(before + [item], maxMembers, maxBytes) <==>
              && item.good && !Collides(TreeOf(before), item.path)
              && |before| + 1 <= maxMembers && TotalSize(before) + item.size <= maxBytes
  {
    assert (before + [item])[..|before|] == before;
    PrefixFreeSnoc(before, item);
    AllGoodSnoc(before, item);
  }

  lemma {:induction false} WithinPrefix(items: seq<Item>, i: nat, maxMembers: int, maxBytes: int)
    requires i <= |items| && Within(items, maxMembers, maxBytes)
    requires forall k | 0 <= k < |items| :: items[k].size >= 0
    ensures Within(items[..i], maxMembers, maxBytes)
    decreases |items|
  {
    if i < |items| {
      var n := |items| - 1;
      WithinPrefix(items[..n], i, maxMembers, maxBytes);
      assert items[..n][..i] == items[..i];
    } else {
      assert items[..i] == items;
    }
  }

  lemma {:induction false} DigestsNames(items: seq<Item>, digest: Bytes -> Bytes, name: Bytes)
    requires name in Digests(items, digest)
    ensures exists i | 0 <= i < |items| :: items[i].name == name
  {
    var n := |items| - 1;
    if name != items[n].name {
      DigestsNames(items[..n], digest, name);
      var i :| 0 <= i < n && items[..n][i].name == name;
      assert items[i].name == name;
    }
  }

  /** A name seen before is a path seen before. */
  lemma NameTaken(members: seq<Member>, i: nat, digest: Bytes -> Bytes)
    requires i < |members| && AllGood(Items(members)[..i]) && ItemOf(members[i]).good
    requires members[i].name in Digests(Items(members)[..i], digest)
    ensures Collides(TreeOf(Items(members)[..i]), ItemOf(members[i]).path)
  {
    var before := Items(members)[..i];
    DigestsNames(before, digest, members[i].name);
    var k :| 0 <= k < i && before[k].name == members[i].name;
    SamePath(members[k], members[i]);
    TreeKeys(before);
    assert before[k].path in PathsOf(before);
  }

  lemma SamePath(a: Member, b: Member)
    ensures ItemOf(a).name == a.name
    ensures a.name == b.name ==> ItemOf(a).path == ItemOf(b).path
  {
  }

  /** What the loop has gathered from the first `i` members. */
  ghost predicate Received(
    tree: Tree, total: int, found: map<Bytes, Bytes>,
    members: seq<Member>, i: nat, maxMembers: int, maxBytes: int, digest: Bytes -> Bytes)
    requires i <= |members|
  {
    var before := Items(members)[..i];
    && Within(before, maxMembers, maxBytes)
    && tree == TreeOf(before) && total == TotalSize(before) && found == Digests(before, digest)
  }

  /** A member that does not fit after those before it spoils the archive. */
  lemma ReceiveNext(
    tree: Tree, total: int, found: map<Bytes, Bytes>,
    members: seq<Member>, i: nat, maxMembers: int, maxBytes: int, digest: Bytes -> Bytes)
    requires i < |members| && Received(tree, total, found, members, i, maxMembers, maxBytes, digest)
    ensures var m := members[i];
            var item := ItemOf(m);
            if item.good && !Collides(tree, item.path) && i + 1 <= maxMembers && total + m.size <= maxBytes then
              && m.name !in found
              && Received(tree[item.path := item.file], total + m.size, found[m.name := digest(m.content)],
                          members, i + 1, maxMembers, maxBytes, digest)
            else !Within(Items(members), maxMembers, maxBytes)
  {
    hide SafeArchivePath, Plain;
    var items := Items(members);
    var item := items[i];
    assert items[..i + 1] == items[..i] + [item];
    assert items[..i + 1][..i] == items[..i];
    SamePath(members[i], members[i]);
    WithinStep(items[..i], item, maxMembers, maxBytes);
    if Within(items, maxMembers, maxBytes) {
      WithinPrefix(items, i + 1, maxMembers, maxBytes);
    }
    if item.good && members[i].name in found {
      NameTaken(members, i, digest);
    }
  }

  lemma ReceivedAll(
    tree: Tree, total: int, found: map<Bytes, Bytes>,
    members: seq<Member>, maxMembers: int, maxBytes: int, digest: Bytes -> Bytes)
    requires Received(tree, total, found, members, |members|, maxMembers, maxBytes, digest)
    ensures Within(Items(members), maxMembers, maxBytes)
    ensures tree == TreeOf(Items(members)) && found == Digests(Items(members), digest)
  {
    assert Items(members)[..|members|] == Items(members);
  }
}
