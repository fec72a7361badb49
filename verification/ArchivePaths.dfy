/** `safe_archive_path` of tools/container_payload.py: the names an archive may
    hold. Names are the bytes of their file-system encoding. */
module ArchivePaths {
  import opened Options
  import opened Bytes
  import opened Splitting

  const SLASH: Byte := 47
  const DOT: Byte := 46

  type Path = seq<Bytes>

  /** `PurePosixPath`: a root, and the components that are neither empty nor
      a single dot. */
  datatype PurePath = PurePath(root: Bytes, tail: Path)
  {
    function AsPosix(): Bytes {
      if root == [] && tail == [] then [DOT] else root + Join(tail, SLASH)
    }
  }

  function Root(raw: Bytes): (root: Bytes)
    ensures root <= raw
  {
    if |raw| >= 2 && raw[0] == raw[1] == SLASH && !(|raw| >= 3 && raw[2] == SLASH) then [SLASH, SLASH]
    else if |raw| >= 1 && raw[0] == SLASH then [SLASH]
    else []
  }

  function Kept(components: Path): (tail: Path)
    ensures |tail| <= |components|
    ensures forall i | 0 <= i < |tail| :: tail[i] != [] && tail[i] != [DOT] && tail[i] in components
  {
    if components == [] then []
    else
      var rest := Kept(components[1..]);
      if components[0] == [] || components[0] == [DOT] then rest else [components[0]] + rest
  }

  function Parse(raw: Bytes): PurePath {
    var root := Root(raw);
    PurePath(root, Kept(Split(raw[|root|..], SLASH)))
  }

  predicate IsSpecial(part: Bytes) {
    part == [] || part == [DOT] || part == [DOT, DOT]
  }

  function SafeArchivePath(raw: Bytes): Option<Path> {
    var path := Parse(raw);
    if raw == [] || 0 in raw || path.root != [] || raw == [DOT] || raw != path.AsPosix()
       || (exists i | 0 <= i < |path.tail| :: IsSpecial(path.tail[i]))
    then None
    else Some(path.tail)
  }

  /** A component that names an entry of the directory it is looked up in. */
  predicate Ordinary(name: Bytes) {
    !IsSpecial(name) && SLASH !in name && 0 !in name
  }

  predicate OrdinaryPath(path: Path) {
    path != [] && forall i | 0 <= i < |path| :: Ordinary(path[i])
  }

  lemma {:induction false} KeptAll(components: Path)
    requires forall i | 0 <= i < |components| :: components[i] != [] && components[i] != [DOT]
    ensures Kept(components) == components
  {
    if components != [] {
      KeptAll(components[1..]);
    }
  }

  lemma {:induction false} JoinContains(path: Path, i: nat, b: Byte)
    requires i < |path| && b in path[i]
    ensures b in Join(path, SLASH)
  {
    if i > 0 {
      JoinContains(path[1..], i - 1, b);
    }
  }

  lemma {:induction false} JoinHolds(path: Path, b: Byte)
    requires b in Join(path, SLASH)
    ensures b == SLASH || exists i | 0 <= i < |path| :: b in path[i]
  {
    if |path| > 1 && b !in path[0] && b != SLASH {
      JoinHolds(path[1..], b);
      var i :| 0 <= i < |path[1..]| && b in path[1..][i];
      assert b in path[i + 1];
    }
  }

  lemma JoinShape(path: Path)
    requires OrdinaryPath(path)
    ensures var raw := Join(path, SLASH);
            raw != [] && raw[0] != SLASH && raw != [DOT] && 0 !in raw
  {
    var raw := Join(path, SLASH);
    assert raw[0] == path[0][0] && path[0][0] in path[0];
    if 0 in raw {
      JoinHolds(path, 0);
    }
    assert |path| > 1 ==> |raw| > 1;
  }

  lemma OrdinaryParses(path: Path)
    requires OrdinaryPath(path)
    ensures Parse(Join(path, SLASH)) == PurePath([], path)
  {
    var raw := Join(path, SLASH);
    JoinShape(path);
    assert raw[|Root(raw)|..] == raw;
    SplitOfJoin(path, SLASH);
    KeptAll(path);
  }

  lemma OrdinaryIsSafe(path: Path)
    requires OrdinaryPath(path)
    ensures SafeArchivePath(Join(path, SLASH)) == Some(path)
  {
    JoinShape(path);
    OrdinaryParses(path);
    assert PurePath([], path).AsPosix() == Join(path, SLASH);
  }

  lemma SafeIsOrdinary(raw: Bytes)
    requires SafeArchivePath(raw).Some?
    ensures var path := SafeArchivePath(raw).value;
            OrdinaryPath(path) && raw == Join(path, SLASH)
  {
    var path := SafeArchivePath(raw).value;
    assert raw[|Root(raw)|..] == raw;
    forall i | 0 <= i < |path| ensures Ordinary(path[i]) {
      assert path[i] in Split(raw, SLASH);
      if 0 in path[i] {
        JoinContains(path, i, 0);
      }
    }
  }

  /** The accepted names are exactly the relative paths of ordinary components,
      each in its one spelling. */
  lemma SafeMeaning(raw: Bytes, path: Path)
    ensures SafeArchivePath(raw) == Some(path) <==> OrdinaryPath(path) && raw == Join(path, SLASH)
  {
    if SafeArchivePath(raw) == Some(path) {
      SafeIsOrdinary(raw);
    }
    if OrdinaryPath(path) && raw == Join(path, SLASH) {
      OrdinaryIsSafe(path);
    }
  }

  /** So distinct names lead to distinct files. */
  lemma SafePathsDistinct(a: Bytes, b: Bytes)
    requires SafeArchivePath(a).Some? && SafeArchivePath(a) == SafeArchivePath(b)
    ensures a == b
  {
    SafeIsOrdinary(a);
    SafeIsOrdinary(b);
  }
}
