/** What the reader makes of what the writer wrote. */
module ArchiveRoundTrip {
  import opened Bytes
  import opened ArchivePaths
  import opened Canonical
  import opened ArchiveWriter
  import opened ArchiveReader

  /** The member written for an entry comes back as the entry's file, with one
      of the two permitted modes. */
  function Delivered(e: Entry): File
    requires e.value.Present?
  {
    File(e.value.content, NormalMode(e.value.mode))
  }

  function PathNamed(name: Bytes): Path {
    match SafeArchivePath(name)
    case Some(path) => path
    case None => []
  }

  lemma WrittenItem(e: Entry)
    requires Writable(e)
    ensures ItemOf(MemberOf(e)) == Item(e.name, PathNamed(e.name), true, Size(e), Delivered(e))
  {
  }

  /** The members the reader takes are, one by one, those the writer makes, but for
      bits of the mode that are no permissions. */
  lemma TakenIsWritten(m: Member)
    ensures ItemOf(m).good <==> exists e :: Writable(e) && MemberOf(e) == m.(mode := PermissionsOf(m.mode))
  {
    hide SafeArchivePath;
    if ItemOf(m).good {
      var mode := if PermissionsOf(m.mode) == OWNER_EXECUTABLE then 64 else 0;
      var e := Named(m.name, Present(true, 1, mode, m.content, Identity(0, 0, 0, 0)));
      assert Writable(e) && MemberOf(e) == m.(mode := PermissionsOf(m.mode));
    }
    forall e | Writable(e) && MemberOf(e) == m.(mode := PermissionsOf(m.mode)) ensures ItemOf(m).good {
      WrittenItem(e);
    }
  }

  lemma WrittenItems(entries: seq<Entry>)
    requires AllWritable(entries)
    ensures AllPresent(entries)
    ensures var items := Items(Members(entries));
            |items| == |entries| && forall i | 0 <= i < |items| ::
              items[i] == Item(entries[i].name, PathNamed(entries[i].name), true, Size(entries[i]), Delivered(entries[i]))
  {
    forall i | 0 <= i < |entries|
      ensures ItemOf(MemberOf(entries[i]))
              == Item(entries[i].name, PathNamed(entries[i].name), true, Size(entries[i]), Delivered(entries[i]))
    {
      WrittenItem(entries[i]);
    }
  }

  lemma {:induction false} WrittenSize(entries: seq<Entry>)
    requires AllPresent(entries)
    ensures TotalSize(Items(Members(entries))) == TotalBytes(entries)
  {
    if entries != [] {
      var n := |entries| - 1;
      WrittenSize(entries[..n]);
      assert Items(Members(entries))[..n] == Items(Members(entries[..n]));
    }
  }

  /** No entry's path is another's or leads through it. */
  ghost predicate PathsPrefixFree(entries: seq<Entry>) {
    forall e, f | e in entries && f in entries && e.name != f.name ::
      !Comparable(PathNamed(e.name), PathNamed(f.name))
  }

  lemma PrefixFreeSame(entries: seq<Entry>)
    requires AllWritable(entries) && Ascending(entries)
    ensures AllPresent(entries)
    ensures PrefixFree(Items(Members(entries))) <==> PathsPrefixFree(entries)
  {
    hide SafeArchivePath, Before;
    WrittenItems(entries);
    var items := Items(Members(entries));
    forall i, j | 0 <= i < j < |entries| ensures entries[i].name != entries[j].name {
      BeforeTotal(entries[i].name, entries[j].name);
    }
    if PathsPrefixFree(entries) {
      forall i, j | 0 <= i < j < |items| ensures !Comparable(items[i].path, items[j].path) {
        assert entries[i] in entries && entries[j] in entries;
      }
    }
    if PrefixFree(items) {
      forall e, f | e in entries && f in entries && e.name != f.name
        ensures !Comparable(PathNamed(e.name), PathNamed(f.name))
      {
        var i :| 0 <= i < |entries| && entries[i] == e;
        var j :| 0 <= j < |entries| && entries[j] == f;
        assert !Comparable(items[if i < j then i else j].path, items[if i < j then j else i].path);
      }
    }
  }

  /** Distinct paths keep their files apart. */
  lemma {:induction false} TreeHolds(items: seq<Item>, k: nat)
    requires PrefixFree(items) && k < |items|
    ensures items[k].path in TreeOf(items) && TreeOf(items)[items[k].path] == items[k].file
  {
    var n := |items| - 1;
    if k < n {
      TreeHolds(items[..n], k);
      assert !Comparable(items[k].path, items[n].path);
    }
  }

  /** The archive as it arrives: its members, then zeros. */
  function Sent(entries: seq<Entry>, trailing: Bytes): Payload
    requires AllPresent(Sort(entries))
  {
    var members := Members(Sort(entries));
    Payload(members, Ends(trailing), RawLength(members))
  }

  /** What the writer accepts, the reader accepts under the same limits exactly
      when no path leads through another. */
  lemma AcceptedExactly(entries: seq<Entry>, maxMembers: nat, maxBytes: nat, allowEmpty: bool, trailing: Bytes)
    requires Freezable(entries, maxMembers, maxBytes, allowEmpty) && forall b | b in trailing :: b == 0
    ensures AllPresent(Sort(entries))
    ensures Acceptable(Sent(entries, trailing), maxMembers, maxBytes, allowEmpty) <==> PathsPrefixFree(entries)
  {
    hide SafeArchivePath, Before, Plain;
    SortedPresent(entries);
    SortedWritable(entries);
    var sorted := Sort(entries);
    SortAscends(entries);
    PrefixFreeSame(sorted);
    SameEntries(entries);
    WrittenItems(sorted);
    WrittenSize(sorted);
    TotalSort(entries);
    ArchiveFits(entries, maxMembers, maxBytes, allowEmpty);
  }

  lemma SortedWritable(entries: seq<Entry>)
    requires AllWritable(entries)
    ensures AllWritable(Sort(entries))
  {
    SortKeeps(entries);
    SameWritable(entries, Sort(entries));
  }

  lemma SameEntries(entries: seq<Entry>)
    ensures forall e :: e in Sort(entries) <==> e in entries
    ensures PathsPrefixFree(Sort(entries)) <==> PathsPrefixFree(entries)
  {
    hide SafeArchivePath;
    SortKeeps(entries);
    forall e: Entry ensures e in Sort(entries) <==> e in entries {
      assert e in Elements(Sort(entries)) <==> e in Elements(entries);
    }
  }

  /** And what it then extracts is every entry's bytes and normalised mode at its
      path, and nothing else. */
  lemma RoundTrip(entries: seq<Entry>, maxMembers: nat, maxBytes: nat, allowEmpty: bool)
    requires Freezable(entries, maxMembers, maxBytes, allowEmpty) && PathsPrefixFree(entries)
    ensures AllPresent(Sort(entries))
    ensures var tree := TreeOf(Items(Members(Sort(entries))));
            && (forall e | e in entries ::
                  e.value.Present? && PathNamed(e.name) in tree && tree[PathNamed(e.name)] == Delivered(e))
            && (forall p | p in tree :: exists e | e in entries :: PathNamed(e.name) == p)
  {
    hide SafeArchivePath, Before;
    SortedPresent(entries);
    SortedWritable(entries);
    var sorted := Sort(entries);
    SortAscends(entries);
    SameEntries(entries);
    PrefixFreeSame(sorted);
    WrittenItems(sorted);
    var items := Items(Members(sorted));
    TreeKeys(items);
    forall e | e in entries
      ensures e.value.Present? && PathNamed(e.name) in TreeOf(items) && TreeOf(items)[PathNamed(e.name)] == Delivered(e)
    {
      assert e in sorted;
      var i :| 0 <= i < |sorted| && sorted[i] == e;
      TreeHolds(items, i);
    }
    forall p | p in TreeOf(items) ensures exists e | e in entries :: PathNamed(e.name) == p {
      assert p in PathsOf(items);
      var i :| 0 <= i < |items| && items[i].path == p;
      assert sorted[i] in sorted;
    }
  }

  lemma {:induction false} DigestsHold(items: seq<Item>, digest: Bytes -> Bytes, k: nat)
    requires k < |items| && forall i, j | 0 <= i < j < |items| :: items[i].name != items[j].name
    ensures items[k].name in Digests(items, digest)
    ensures Digests(items, digest)[items[k].name] == digest(items[k].file.content)
  {
    var n := |items| - 1;
    if k < n {
      DigestsHold(items[..n], digest, k);
      assert items[k].name != items[n].name;
    }
  }

  /** And the digests it answers are those of the entries, by their names. */
  lemma DigestsRoundTrip(entries: seq<Entry>, maxMembers: nat, maxBytes: nat, allowEmpty: bool, digest: Bytes -> Bytes)
    requires Freezable(entries, maxMembers, maxBytes, allowEmpty)
    ensures AllPresent(Sort(entries))
    ensures var found := Digests(Items(Members(Sort(entries))), digest);
            && (forall e | e in entries ::
                  e.value.Present? && e.name in found && found[e.name] == digest(e.value.content))
            && (forall name | name in found :: exists e | e in entries :: e.name == name)
  {
    hide SafeArchivePath, Before;
    SortedPresent(entries);
    SortedWritable(entries);
    var sorted := Sort(entries);
    SortAscends(entries);
    SameEntries(entries);
    WrittenItems(sorted);
    var items := Items(Members(sorted));
    hide Items, Members, Sort, Freezable, AllWritable;
    forall i, j | 0 <= i < j < |items| ensures items[i].name != items[j].name {
      BeforeTotal(sorted[i].name, sorted[j].name);
    }
    forall e | e in entries
      ensures e.value.Present? && e.name in Digests(items, digest) && Digests(items, digest)[e.name] == digest(e.value.content)
    {
      assert e in sorted;
      var i :| 0 <= i < |sorted| && sorted[i] == e;
      DigestsHold(items, digest, i);
    }
    forall name | name in Digests(items, digest) ensures exists e | e in entries :: e.name == name {
      DigestsNames(items, digest, name);
      var i :| 0 <= i < |items| && items[i].name == name;
      assert sorted[i] in sorted;
    }
  }
}
