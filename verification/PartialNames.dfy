/** Names a transfer derives from its endpoints: the reservation key of its
    destination and the file that holds its partial bytes
    (remote_ssh_mcp/transfers.py). Strings stand for their UTF-8 encodings. */
module PartialNames {
  const NUL: char := '\0'
  const TOKEN_LENGTH: nat := 32

  datatype Direction = Download | Upload

  /** What identifies one transfer. `connection` is the cache key of the SSH
      connection, `display` the local path below the local root. */
  datatype Endpoints = Endpoints(direction: Direction, connection: string, remote: string, display: string)
  {
    /** Paths are checked for NUL before a transfer is built; the connection's
        cache key is not, and nothing below needs it to be. */
    predicate Valid() {
      NUL !in remote && NUL !in display
    }
  }

  function ResourceKey(e: Endpoints): string {
    match e.direction
    case Download => "download" + [NUL] + e.display
    case Upload => "upload" + [NUL] + e.connection + [NUL] + e.remote
  }

  /** The bytes fed to the digest: every field followed by one NUL. */
  function TokenInput(e: Endpoints): string {
    match e.direction
    case Download => "download" + [NUL] + e.connection + [NUL] + e.remote + [NUL] + e.display + [NUL]
    case Upload => "upload" + [NUL] + e.connection + [NUL] + e.display + [NUL] + e.remote + [NUL]
  }

  datatype PartialFile =
    | LocalPartial(token: string)
    | RemotePartial(connection: string, path: string)

  function PartialName(token: string -> string, e: Endpoints): PartialFile {
    var t := token(TokenInput(e));
    match e.direction
    case Download => LocalPartial(t)
    case Upload => RemotePartial(e.connection, e.remote + ".remote-ssh-mcp-" + t + ".partial")
  }

  /** The same local path, or the same remote path over the same connection. */
  predicate SameDestination(a: Endpoints, b: Endpoints) {
    && a.direction == b.direction
    && (a.direction.Download? ==> a.display == b.display)
    && (a.direction.Upload? ==> a.connection == b.connection && a.remote == b.remote)
  }

  /** The digest takes `a` and `b` to distinct tokens of the fixed length unless
      they are the same bytes: what SHA-256 is relied on for. */
  ghost predicate DigestSeparates(token: string -> string, a: Endpoints, b: Endpoints) {
    && |token(TokenInput(a))| == |token(TokenInput(b))| == TOKEN_LENGTH
    && (token(TokenInput(a)) == token(TokenInput(b)) ==> TokenInput(a) == TokenInput(b))
  }

  /** Position `k` of `w` holds its last NUL. */
  ghost predicate LastNulAt(w: string, k: nat) {
    k < |w| && w[k] == NUL && forall i | k < i < |w| :: w[i] != NUL
  }

  /** Cutting a string at its last NUL is unambiguous. */
  lemma LastNulSplits(p: string, s: string, p': string, s': string)
    requires NUL !in s && NUL !in s'
    requires p + [NUL] + s == p' + [NUL] + s'
    ensures p == p' && s == s'
  {
    var w, w' := p + [NUL] + s, p' + [NUL] + s';
    assert LastNulAt(w, |p|);
    assert LastNulAt(w', |p'|);
    assert |p| == |p'|;
    assert p == w[..|p|] && p' == w'[..|p'|];
    assert s == w[|p| + 1..] && s' == w'[|p'| + 1..];
  }

  lemma SharedPrefix(prefix: string, a: string, b: string)
    requires prefix + a == prefix + b
    ensures a == b
  {
    assert a == (prefix + a)[|prefix|..] && b == (prefix + b)[|prefix|..];
  }

  lemma DirectionIsFirst(a: Endpoints)
    ensures TokenInput(a)[0] == (if a.direction.Download? then 'd' else 'u')
    ensures ResourceKey(a)[0] == (if a.direction.Download? then 'd' else 'u')
  {
  }

  /** The three trailing fields of a token input, wherever the connection key
      happens to contain NULs. */
  lemma FieldsSplit(head: string, x: string, y: string, head': string, x': string, y': string)
    requires NUL !in x && NUL !in y && NUL !in x' && NUL !in y'
    requires head + [NUL] + x + [NUL] + y + [NUL] == head' + [NUL] + x' + [NUL] + y' + [NUL]
    ensures head == head' && x == x' && y == y'
  {
    var l, l' := head + [NUL] + x + [NUL] + y, head' + [NUL] + x' + [NUL] + y';
    assert l == (l + [NUL])[..|l|] && l' == (l' + [NUL])[..|l'|];
    LastNulSplits(head + [NUL] + x, y, head' + [NUL] + x', y');
    LastNulSplits(head, x, head', x');
  }

  /** The token input determines every endpoint, for any connection key. */
  lemma TokenInputInjective(a: Endpoints, b: Endpoints)
    requires a.Valid() && b.Valid()
    requires TokenInput(a) == TokenInput(b)
    ensures a == b
  {
    DirectionIsFirst(a);
    DirectionIsFirst(b);
    match a.direction
    case Download =>
      var d := "download" + [NUL];
      FieldsSplit(d + a.connection, a.remote, a.display, d + b.connection, b.remote, b.display);
      SharedPrefix(d, a.connection, b.connection);
    case Upload =>
      var u := "upload" + [NUL];
      FieldsSplit(u + a.connection, a.display, a.remote, u + b.connection, b.display, b.remote);
      SharedPrefix(u, a.connection, b.connection);
  }

  /** Two transfers claim the same key exactly when they write the same
      destination. */
  lemma ResourceKeyMeaning(a: Endpoints, b: Endpoints)
    requires a.Valid() && b.Valid()
    ensures ResourceKey(a) == ResourceKey(b) <==> SameDestination(a, b)
  {
    if ResourceKey(a) == ResourceKey(b) {
      DirectionIsFirst(a);
      DirectionIsFirst(b);
      match a.direction
      case Download =>
        SharedPrefix("download" + [NUL], a.display, b.display);
      case Upload =>
        var u := "upload" + [NUL];
        LastNulSplits(u + a.connection, a.remote, u + b.connection, b.remote);
        SharedPrefix(u, a.connection, b.connection);
    }
  }

  /** Removing a suffix of known length. */
  lemma SharedSuffixLength(p: string, s: string, p': string, s': string)
    requires |s| == |s'|
    requires p + s == p' + s'
    ensures p == p' && s == s'
  {
    assert |p| == |p'|;
    assert p == (p + s)[..|p|] && p' == (p' + s')[..|p'|];
    assert s == (p + s)[|p|..] && s' == (p' + s')[|p'|..];
  }

  /** Equal partial files force equal endpoints, hence equal reservation keys:
      the reason a reservation also protects the partial. */
  lemma SamePartialSameEndpoints(token: string -> string, a: Endpoints, b: Endpoints)
    requires a.Valid() && b.Valid()
    requires DigestSeparates(token, a, b)
    requires PartialName(token, a) == PartialName(token, b)
    ensures a == b
  {
    var ta, tb := token(TokenInput(a)), token(TokenInput(b));
    if a.direction.Upload? {
      var mid, end := ".remote-ssh-mcp-", ".partial";
      assert a.remote + mid + ta + end == a.remote + (mid + ta + end);
      assert b.remote + mid + tb + end == b.remote + (mid + tb + end);
      SharedSuffixLength(a.remote, mid + ta + end, b.remote, mid + tb + end);
      SharedSuffixLength(mid + ta, end, mid + tb, end);
      SharedPrefix(mid, ta, tb);
    }
    TokenInputInjective(a, b);
  }

  /** The directory part of a path, with its slash. */
  function Parent(path: string): string {
    if path == "" || path[|path| - 1] == '/' then path else Parent(path[..|path| - 1])
  }

  lemma {:induction false} ParentForgets(path: string, end: string)
    requires '/' !in end
    ensures Parent(path + end) == Parent(path)
  {
    if end == "" {
      assert path + end == path;
    } else {
      var n := |end| - 1;
      assert (path + end)[|path + end| - 1] == end[n];
      assert (path + end)[..|path + end| - 1] == path + end[..n];
      ParentForgets(path, end[..n]);
    }
  }

  /** The partial of an upload is another file of the directory its destination is
      in, over the same connection: what makes publishing it one rename or link. */
  lemma PartialIsBeside(token: string -> string, e: Endpoints)
    requires e.direction.Upload? && '/' !in token(TokenInput(e))
    ensures var p := PartialName(token, e);
            && p.RemotePartial? && p.connection == e.connection
            && Parent(p.path) == Parent(e.remote) && p.path != e.remote
  {
    var end := ".remote-ssh-mcp-" + token(TokenInput(e)) + ".partial";
    assert PartialName(token, e).path == e.remote + end;
    ParentForgets(e.remote, end);
  }
}
