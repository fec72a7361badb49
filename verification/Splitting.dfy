/** `split` and `join` on one separator. */
module Splitting {
  /** `s.split(sep)`: one field more than there are separators. */
  function Split<T(==)>(s: seq<T>, sep: T): (fields: seq<seq<T>>)
    ensures fields != [] && Free(fields, sep)
  {
    if s == [] then [[]]
    else
      var rest := Split(s[1..], sep);
      if s[0] == sep then [[]] + rest else [[s[0]] + rest[0]] + rest[1..]
  }

  /** No field holds the separator. */
  predicate Free<T(==)>(fields: seq<seq<T>>, sep: T) {
    forall i | 0 <= i < |fields| :: sep !in fields[i]
  }

  /** The fields with one separator between each two. */
  function Join<T>(fields: seq<seq<T>>, sep: T): seq<T> {
    if fields == [] then []
    else if |fields| == 1 then fields[0]
    else fields[0] + [sep] + Join(fields[1..], sep)
  }

  /** A character more in front of the first field. */
  lemma JoinLonger<T>(x: T, fields: seq<seq<T>>, sep: T)
    requires fields != []
    ensures Join([[x] + fields[0]] + fields[1..], sep) == [x] + Join(fields, sep)
  {
    var longer := [[x] + fields[0]] + fields[1..];
    assert longer[1..] == fields[1..];
    if |fields| > 1 {
      assert Join(longer, sep) == [x] + fields[0] + [sep] + Join(fields[1..], sep);
    }
  }

  lemma {:induction false} JoinOfSplit<T>(s: seq<T>, sep: T)
    ensures Join(Split(s, sep), sep) == s
  {
    if s != [] {
      JoinOfSplit(s[1..], sep);
      var rest := Split(s[1..], sep);
      if s[0] == sep {
        assert ([[]] + rest)[1..] == rest;
      } else {
        JoinLonger(s[0], rest, sep);
      }
    }
  }

  lemma {:induction false} SplitField<T>(field: seq<T>, rest: seq<T>, sep: T)
    requires sep !in field
    ensures Split(field + [sep] + rest, sep) == [field] + Split(rest, sep)
  {
    var s := field + [sep] + rest;
    if field == [] {
      assert s[1..] == rest;
    } else {
      assert s[1..] == field[1..] + [sep] + rest;
      SplitField(field[1..], rest, sep);
      assert [field[0]] + field[1..] == field;
    }
  }

  lemma {:induction false} SplitOne<T>(field: seq<T>, sep: T)
    requires sep !in field
    ensures Split(field, sep) == [field]
  {
    if field != [] {
      SplitOne(field[1..], sep);
      assert [field[0]] + field[1..] == field;
    }
  }

  lemma {:induction false} SplitOfJoin<T>(fields: seq<seq<T>>, sep: T)
    requires fields != [] && Free(fields, sep)
    ensures Split(Join(fields, sep), sep) == fields
  {
    if |fields| == 1 {
      SplitOne(fields[0], sep);
    } else {
      SplitField(fields[0], Join(fields[1..], sep), sep);
      SplitOfJoin(fields[1..], sep);
    }
  }
}
