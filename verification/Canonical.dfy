/** The canonical order of archive members: by name, byte by byte. */
module Canonical {
  import opened Bytes

  /** Lexicographic order, as Python compares `bytes`. */
  predicate Before(a: Bytes, b: Bytes) {
    if b == [] then false
    else if a == [] then true
    else a[0] < b[0] || (a[0] == b[0] && Before(a[1..], b[1..]))
  }

  /** `a` and `b` agree up to position `i`, where `a` ends or has the smaller
      byte. */
  ghost predicate FirstDiffers(a: Bytes, b: Bytes, i: nat) {
    && i <= |a| && i < |b| && a[..i] == b[..i]
    && (i == |a| || a[i] < b[i])
  }

  /** A name comes first exactly if it is a proper prefix of the other, or has the
      smaller byte where they first differ. */
  lemma {:induction false} BeforeMeaning(a: Bytes, b: Bytes)
    ensures Before(a, b) <==> exists i: nat :: FirstDiffers(a, b, i)
  {
    if a == [] && b != [] {
      assert FirstDiffers(a, b, 0);
    } else if a != [] && b != [] && a[0] < b[0] {
      assert FirstDiffers(a, b, 0);
    } else if a != [] && b != [] && a[0] == b[0] {
      BeforeMeaning(a[1..], b[1..]);
      assert a == [a[0]] + a[1..] && b == [b[0]] + b[1..];
      if i: nat :| FirstDiffers(a[1..], b[1..], i) {
        assert a[..i + 1] == [a[0]] + a[1..][..i] && b[..i + 1] == [b[0]] + b[1..][..i];
        assert FirstDiffers(a, b, i + 1);
      }
      if i: nat :| FirstDiffers(a, b, i) {
        assert i > 0;
        assert a[1..][..i - 1] == a[..i][1..] && b[1..][..i - 1] == b[..i][1..];
        assert FirstDiffers(a[1..], b[1..], i - 1);
      }
    } else if a != [] && b != [] {
      forall i: nat ensures !FirstDiffers(a, b, i) {
        if i > 0 && i <= |a| && i < |b| {
          assert a[..i][0] == a[0] && b[..i][0] == b[0];
        }
      }
    }
  }

  lemma {:induction false} BeforeTotal(a: Bytes, b: Bytes)
    ensures a != b ==> Before(a, b) || Before(b, a)
    ensures !(Before(a, b) && Before(b, a)) && !Before(a, a)
  {
    if a != [] && b != [] {
      BeforeTotal(a[1..], b[1..]);
      if a[0] == b[0] && a[1..] == b[1..] {
        assert a == [a[0]] + a[1..] == b;
      }
    }
    if a != [] {
      BeforeTotal(a[1..], a[1..]);
    }
  }

  lemma {:induction false} BeforeTransitive(a: Bytes, b: Bytes, c: Bytes)
    requires Before(a, b) && Before(b, c)
    ensures Before(a, c)
  {
    if a != [] && a[0] == b[0] && b[0] == c[0] {
      BeforeTransitive(a[1..], b[1..], c[1..]);
    }
  }

  /** Something with the name it is ordered by. */
  datatype Named<T> = Named(name: Bytes, value: T)

  /** Strictly ascending names; hence also distinct ones. */
  ghost predicate Ascending<T>(s: seq<Named<T>>) {
    forall i, j | 0 <= i < j < |s| :: Before(s[i].name, s[j].name)
  }

  ghost predicate Distinct<T>(s: seq<Named<T>>) {
    forall i, j | 0 <= i < j < |s| :: s[i].name != s[j].name
  }

  ghost function Elements<T>(s: seq<T>): set<T> {
    set x | x in s
  }

  lemma ElementsCons<T>(x: T, s: seq<T>)
    ensures Elements([x] + s) == Elements(s) + {x}
  {
    forall y | y in Elements(s) + {x} ensures y in [x] + s {
      assert ([x] + s)[0] == x;
      if y in s {
        var i :| 0 <= i < |s| && s[i] == y;
        assert ([x] + s)[i + 1] == y;
      }
    }
  }

  lemma ElementsEmpty<T>(s: seq<T>)
    ensures Elements(s) == {} <==> s == []
  {
    if s != [] {
      assert s[0] in Elements(s);
    }
  }

  /** `list.sort` by name, one element at a time into a sorted list. */
  function Sort<T>(s: seq<Named<T>>): (r: seq<Named<T>>)
    ensures |r| == |s|
  {
    if s == [] then [] else Insert(s[|s| - 1], Sort(s[..|s| - 1]))
  }

  function Insert<T>(x: Named<T>, s: seq<Named<T>>): (r: seq<Named<T>>)
    ensures |r| == |s| + 1
    ensures Elements(r) == Elements(s) + {x}
  {
    if s == [] then [x]
    else if Before(x.name, s[0].name) then
      ElementsCons(x, s);
      [x] + s
    else
      assert s == [s[0]] + s[1..];
      ElementsCons(s[0], s[1..]);
      ElementsCons(s[0], Insert(x, s[1..]));
      [s[0]] + Insert(x, s[1..])
  }

  lemma {:induction false} SortKeeps<T>(s: seq<Named<T>>)
    ensures Elements(Sort(s)) == Elements(s)
  {
    if s != [] {
      SortKeeps(s[..|s| - 1]);
      assert s == s[..|s| - 1] + [s[|s| - 1]];
    }
  }

  lemma {:induction false} InsertAscends<T>(x: Named<T>, s: seq<Named<T>>)
    requires Ascending(s) && forall i | 0 <= i < |s| :: s[i].name != x.name
    ensures Ascending(Insert(x, s))
  {
    if s != [] && !Before(x.name, s[0].name) {
      BeforeTotal(x.name, s[0].name);
      InsertAscends(x, s[1..]);
      var rest := Insert(x, s[1..]);
      forall j | 0 <= j < |rest| ensures Before(s[0].name, rest[j].name) {
        assert rest[j] in Elements(rest);
      }
    } else if s != [] {
      forall j | 0 <= j < |s| ensures Before(x.name, s[j].name) {
        if j > 0 {
          BeforeTransitive(x.name, s[0].name, s[j].name);
        }
      }
    }
  }

  lemma {:induction false} SortAscends<T>(s: seq<Named<T>>)
    requires Distinct(s)
    ensures Ascending(Sort(s))
  {
    if s != [] {
      var n := |s| - 1;
      SortAscends(s[..n]);
      SortKeeps(s[..n]);
      var rest := Sort(s[..n]);
      forall i | 0 <= i < |rest| ensures rest[i].name != s[n].name {
        assert rest[i] in Elements(rest);
      }
      InsertAscends(s[n], rest);
    }
  }

  lemma HeadIsLeast<T>(s: seq<Named<T>>)
    requires Ascending(s) && s != []
    ensures Ascending(s[1..])
    ensures Elements(s[1..]) == Elements(s) - {s[0]}
    ensures forall x | x in s :: x == s[0] || Before(s[0].name, x.name)
  {
    forall x | x in s[1..] ensures x != s[0] && x in s {
      BeforeTotal(s[0].name, s[0].name);
    }
  }

  /** There is one ascending arrangement of given elements. */
  lemma {:induction false} AscendingUnique<T>(a: seq<Named<T>>, b: seq<Named<T>>)
    requires Ascending(a) && Ascending(b) && Elements(a) == Elements(b)
    ensures a == b
  {
    if a == [] || b == [] {
      ElementsEmpty(a);
      ElementsEmpty(b);
    } else {
      HeadIsLeast(a);
      HeadIsLeast(b);
      assert a[0] in Elements(b) && b[0] in Elements(a);
      BeforeTotal(a[0].name, b[0].name);
      AscendingUnique(a[1..], b[1..]);
      assert a == [a[0]] + a[1..] && b == [b[0]] + b[1..];
    }
  }

  /** The order in which entries are offered leaves no trace. */
  lemma SortForgetsOrder<T>(a: seq<Named<T>>, b: seq<Named<T>>)
    requires Distinct(a) && Distinct(b) && Elements(a) == Elements(b)
    ensures Sort(a) == Sort(b)
  {
    SortAscends(a);
    SortAscends(b);
    SortKeeps(a);
    SortKeeps(b);
    AscendingUnique(Sort(a), Sort(b));
  }
}
