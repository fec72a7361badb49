/** `list_directory` of remote_ssh_mcp/inspection.py: NUL-separated `find` output
    read back as directory entries. */
module Listing {
  import opened Options
  import opened Bytes
  import opened Splitting
  import Capture

  const NUL: Byte := 0

  /** Each field followed by one NUL, as `-printf` writes them. */
  function Terminated(fields: seq<Bytes>): Bytes {
    if fields == [] then [] else fields[0] + [NUL] + Terminated(fields[1..])
  }

  /** The fields of an output: what is split off, without a last empty one. */
  function Fields(output: Bytes): (fields: seq<Bytes>)
    ensures Free(fields, NUL)
  {
    var all := Split(output, NUL);
    if all[|all| - 1] == [] then all[..|all| - 1] else all
  }

  lemma {:induction false} JoinSnoc(fields: seq<Bytes>, last: Bytes)
    ensures Join(fields + [last], NUL) == Terminated(fields) + last
  {
    if fields == [] {
      assert fields + [last] == [last];
    } else {
      assert (fields + [last])[1..] == fields[1..] + [last];
      JoinSnoc(fields[1..], last);
    }
  }

  lemma SplitTerminated(fields: seq<Bytes>, last: Bytes)
    requires Free(fields, NUL) && NUL !in last
    ensures Split(Terminated(fields) + last, NUL) == fields + [last]
  {
    JoinSnoc(fields, last);
    SplitOfJoin(fields + [last], NUL);
  }

  /** The output that ends in these fields, with or without the NUL after a last
      field that is not empty: the two spellings the parser accepts. */
  ghost predicate Spells(output: Bytes, fields: seq<Bytes>) {
    || output == Terminated(fields)
    || (fields != [] && fields[|fields| - 1] != [] && output + [NUL] == Terminated(fields))
  }

  lemma {:induction false} TerminatedSnoc(fields: seq<Bytes>, last: Bytes)
    ensures Terminated(fields + [last]) == Terminated(fields) + last + [NUL]
  {
    if fields == [] {
      assert fields + [last] == [last];
      assert Terminated([last]) == last + [0] + Terminated([]);
    } else {
      assert (fields + [last])[1..] == fields[1..] + [last];
      TerminatedSnoc(fields[1..], last);
    }
  }

  /** The parser finds exactly the NUL-free fields that spell its input. */
  lemma FieldsMeaning(output: Bytes, fields: seq<Bytes>)
    ensures Fields(output) == fields <==> Free(fields, NUL) && Spells(output, fields)
  {
    if Free(fields, NUL) && Spells(output, fields) {
      if output == Terminated(fields) {
        SplitTerminated(fields, []);
        assert Terminated(fields) + [] == output;
      } else {
        var n := |fields| - 1;
        var most, last := fields[..n], fields[n];
        assert fields == most + [last];
        TerminatedSnoc(most, last);
        assert output == (output + [NUL])[..|output|] == Terminated(most) + last;
        SplitTerminated(most, last);
      }
    }
    FieldsSpell(output);
  }

  lemma FieldsSpell(output: Bytes)
    ensures Spells(output, Fields(output))
  {
    var all := Split(output, NUL);
    var n := |all| - 1;
    assert all[..n] + [all[n]] == all;
    JoinOfSplit(output, NUL);
    JoinSnoc(all[..n], all[n]);
    if all[n] != [] {
      TerminatedSnoc(all[..n], all[n]);
    }
  }

  /** The bytes of one record, and the entry made of it. */
  datatype Record = Record(name: Bytes, kind: Bytes, size: Bytes, mtime: Bytes)

  datatype Entry = Entry(name: Bytes, kind: Bytes, size: int, mtime: real)

  /** `int` and `float` on the bytes of a field. */
  datatype Numbers = Numbers(asInt: Bytes -> Option<int>, asFloat: Bytes -> Option<real>)
  {
    function Read(r: Record): (e: Option<Entry>)
      ensures e.Some? <==> asInt(r.size).Some? && asFloat(r.mtime).Some?
      ensures e.Some? ==>
                && e.value.name == r.name && e.value.kind == r.kind
                && asInt(r.size) == Some(e.value.size) && asFloat(r.mtime) == Some(e.value.mtime)
    {
      match (asInt(r.size), asFloat(r.mtime))
      case (Some(size), Some(mtime)) => Some(Entry(r.name, r.kind, size, mtime))
      case _ => None
    }

    /** Every record is an entry, in order. */
    ghost predicate Accepts(fields: seq<Bytes>, entries: seq<Entry>) {
      && |fields| == 4 * |entries|
      && forall i | 0 <= i < |entries| :: Read(RecordAt(fields, i)) == Some(entries[i])
    }

    ghost predicate Rejects(fields: seq<Bytes>) {
      |fields| % 4 != 0 || exists i: nat | 4 * i + 3 < |fields| :: Read(RecordAt(fields, i)).None?
    }
  }

  function RecordAt(fields: seq<Bytes>, i: nat): Record
    requires 4 * i + 3 < |fields|
  {
    Record(fields[4 * i], fields[4 * i + 1], fields[4 * i + 2], fields[4 * i + 3])
  }

  function Records(fields: seq<Bytes>): (records: seq<Record>)
    requires |fields| % 4 == 0
  {
    seq(|fields| / 4, i requires 0 <= i < |fields| / 4 => RecordAt(fields, i))
  }

  function FieldOf(r: Record, k: nat): Bytes {
    if k == 0 then r.name else if k == 1 then r.kind else if k == 2 then r.size else r.mtime
  }

  function Flat(records: seq<Record>): (fields: seq<Bytes>) {
    seq(4 * |records|, j requires 0 <= j < 4 * |records| => FieldOf(records[j / 4], j % 4))
  }

  lemma FlatAt(records: seq<Record>, i: nat, k: nat)
    requires i < |records| && k < 4
    ensures Flat(records)[4 * i + k] == FieldOf(records[i], k)
  {
    assert (4 * i + k) / 4 == i && (4 * i + k) % 4 == k;
  }

  lemma RecordOfFlat(records: seq<Record>, i: nat)
    requires i < |records|
    ensures |Flat(records)| == 4 * |records| && RecordAt(Flat(records), i) == records[i]
  {
    FlatAt(records, i, 0);
    FlatAt(records, i, 1);
    FlatAt(records, i, 2);
    FlatAt(records, i, 3);
    assert |Flat(records)| == 4 * |records|;
    hide Flat;
  }

  lemma RecordsOfFlat(records: seq<Record>)
    ensures Records(Flat(records)) == records
  {
    var fields := Flat(records);
    forall i | 0 <= i < |records| ensures RecordAt(fields, i) == records[i] {
      RecordOfFlat(records, i);
    }
  }

  lemma FlatOfRecords(fields: seq<Bytes>)
    requires |fields| % 4 == 0
    ensures Flat(Records(fields)) == fields
  {
    var records := Records(fields);
    forall j | 0 <= j < |fields| ensures FieldOf(records[j / 4], j % 4) == fields[j] {
      assert j == 4 * (j / 4) + j % 4;
      assert records[j / 4] == RecordAt(fields, j / 4);
    }
  }

  datatype Error = CommandFailed | OutputLimit | Protocol

  datatype Result = Ok(entries: seq<Entry>) | Err(error: Error)

  /** The loop over the fields, four at a time. */
  method ReadEntries(fields: seq<Bytes>, numbers: Numbers) returns (r: Result)
    requires |fields| % 4 == 0
    ensures r.Ok? ==> numbers.Accepts(fields, r.entries)
    ensures r.Err? ==> r.error.Protocol? && numbers.Rejects(fields)
  {
    var entries: seq<Entry> := [];
    var index := 0;
    while index < |fields|
      invariant index == 4 * |entries| <= |fields|
      invariant forall i | 0 <= i < |entries| :: numbers.Read(RecordAt(fields, i)) == Some(entries[i])
    {
      var record := Record(fields[index], fields[index + 1], fields[index + 2], fields[index + 3]);
      assert record == RecordAt(fields, |entries|);
      var entry := numbers.Read(record);
      if entry.None? {
        return Err(Protocol);
      }
      entries := entries + [entry.value];
      index := index + 4;
    }
    return Ok(entries);
  }

  /** `chunks` are the reads of `find`'s standard output, `succeeded` its exit. */
  method ListDirectory(chunks: seq<Bytes>, succeeded: bool, limit: nat, numbers: Numbers) returns (r: Result)
    ensures r == Err(CommandFailed) <==> !succeeded
    ensures r == Err(OutputLimit) <==> succeeded && |Concat(chunks)| > limit
    ensures r.Ok? ==> numbers.Accepts(Fields(Concat(chunks)), r.entries)
    ensures r == Err(Protocol) ==> numbers.Rejects(Fields(Concat(chunks)))
  {
    var stdout, _ := Capture.Capture(chunks, limit);
    if !succeeded {
      return Err(CommandFailed);
    }
    if stdout.truncated {
      return Err(OutputLimit);
    }
    assert stdout.raw == Concat(chunks);
    var fields := Fields(stdout.raw);
    if |fields| % 4 != 0 {
      return Err(Protocol);
    }
    r := ReadEntries(fields, numbers);
  }

  /** The output of `find` for a directory. */
  function Print(records: seq<Record>): Bytes {
    Terminated(Flat(records))
  }

  /** Whatever a directory holds, its listing comes back record by record: no
      byte of a name other than NUL can disturb it. */
  lemma ListingRoundTrip(records: seq<Record>)
    requires Free(Flat(records), NUL)
    ensures |Fields(Print(records))| == 4 * |records|
    ensures Records(Fields(Print(records))) == records
  {
    FieldsMeaning(Print(records), Flat(records));
    RecordsOfFlat(records);
  }

  /** And what the parser accepts is such a listing, save that the last NUL may
      be missing. */
  lemma AcceptedIsListing(output: Bytes)
    requires |Fields(output)| % 4 == 0
    ensures var records := Records(Fields(output));
            output == Print(records) || output + [NUL] == Print(records)
  {
    FieldsSpell(output);
    FlatOfRecords(Fields(output));
  }
}
