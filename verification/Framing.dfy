/** How a script travels from `run_script` to the remote command
    (remote_ssh_mcp/commands.py): validation, the length-prefixed payload, and
    the supervisor's `read` and `dd` at the other end. */
module Framing {
  import opened Options
  import opened Bytes
  import opened Utf8

  const MAX_COMMAND_BYTES: nat := 1048576

  /** The largest count `dd` takes. */
  const DD_MAX_COUNT: nat := 0x7FFF_FFFF_FFFF_FFFF

  function DigitOf(d: nat): Byte
    requires d < 10
  {
    48 + d
  }

  predicate IsDigit(b: Byte) {
    48 <= b <= 57
  }

  predicate AllDigits(s: Bytes) {
    forall i | 0 <= i < |s| :: IsDigit(s[i])
  }

  /** `str(n)`. */
  function Decimal(n: nat): (s: Bytes)
    ensures s != [] && AllDigits(s)
    ensures n > 0 ==> s[0] != 48
    ensures n == 0 ==> s == [48]
  {
    if n < 10 then [DigitOf(n)] else Decimal(n / 10) + [DigitOf(n % 10)]
  }

  /** What a shell makes of a string of digits. */
  function Value(s: Bytes): nat
    requires AllDigits(s)
  {
    if s == [] then 0 else 10 * Value(s[..|s| - 1]) + (s[|s| - 1] - 48)
  }

  lemma {:induction false} DecimalValue(n: nat)
    ensures Value(Decimal(n)) == n
  {
    if n >= 10 {
      DecimalValue(n / 10);
      var s := Decimal(n);
      assert s[..|s| - 1] == Decimal(n / 10);
    }
  }

  /** The bytes written to the channel for one payload. */
  function Frame(payload: Bytes): Bytes {
    Decimal(|payload|) + [NEWLINE] + payload
  }

  /** What the supervisor does with its channel: the bytes the child's input
      receives and those left for the watcher, or its exit status. */
  datatype Outcome = Accepted(child: Bytes, watcher: Bytes) | Exits(status: nat)

  /** `IFS= read -r payload_size`, byte by byte up to a newline. */
  function ReadLine(channel: Bytes): (r: Option<(Bytes, Bytes)>)
    ensures r.Some? ==> NEWLINE !in r.value.0 && channel == r.value.0 + [NEWLINE] + r.value.1
    ensures r.None? ==> NEWLINE !in channel
  {
    if channel == [] then None
    else if channel[0] == NEWLINE then Some(([], channel[1..]))
    else
      match ReadLine(channel[1..])
      case None => None
      case Some((line, rest)) => Some(([channel[0]] + line, rest))
  }

  function Supervise(channel: Bytes): Outcome {
    match ReadLine(channel)
    case None => Exits(70)
    case Some((size, rest)) =>
      if size == [] || !AllDigits(size) then Exits(71)
      else if Value(size) > DD_MAX_COUNT then Exits(74)
      else if Value(size) <= |rest| then Accepted(rest[..Value(size)], rest[Value(size)..])
      else Accepted(rest, [])   // dd at end of file
  }

  lemma {:induction false} ReadLineIs(line: Bytes, rest: Bytes)
    requires NEWLINE !in line
    ensures ReadLine(line + [NEWLINE] + rest) == Some((line, rest))
  {
    var channel := line + [NEWLINE] + rest;
    if line == [] {
      assert channel == [NEWLINE] + rest;
    } else {
      assert channel[1..] == line[1..] + [NEWLINE] + rest;
      assert [line[0]] + line[1..] == line;
      ReadLineIs(line[1..], rest);
    }
  }

  /** Whatever the bytes of the payload are, the child gets exactly these and
      everything sent later is left for the watcher: for every payload whose
      length `dd` can count. */
  lemma FramingRoundTrip(payload: Bytes, later: Bytes)
    ensures Supervise(Frame(payload) + later) == Accepted(payload, later) <==> |payload| <= DD_MAX_COUNT
  {
    var size := Decimal(|payload|);
    assert Frame(payload) + later == size + [NEWLINE] + (payload + later);
    ReadLineIs(size, payload + later);
    DecimalValue(|payload|);
  }

  /** The supervisor accepts exactly the channels that start with a decimal line
      `dd` can count to, and loses none of their bytes. */
  lemma AcceptedIsFramed(channel: Bytes)
    ensures Supervise(channel).Accepted? <==>
              exists size, rest :: size != [] && AllDigits(size) && Value(size) <= DD_MAX_COUNT
                                && channel == size + [NEWLINE] + rest
    ensures Supervise(channel).Accepted? ==>
              var o := Supervise(channel);
              exists size :: size != [] && AllDigits(size) && channel == size + [NEWLINE] + o.child + o.watcher
                          && (|o.child| == Value(size) || (|o.child| < Value(size) && o.watcher == []))
  {
    if Supervise(channel).Accepted? {
      var (size, rest) := ReadLine(channel).value;
      var o := Supervise(channel);
      assert rest == o.child + o.watcher;
      assert channel == size + [NEWLINE] + o.child + o.watcher;
    }
    if size, rest :| size != [] && AllDigits(size) && Value(size) <= DD_MAX_COUNT && channel == size + [NEWLINE] + rest {
      ReadLineIs(size, rest);
    }
  }

  /** `dd` does not notice that the channel ended early: of a payload cut short
      the child gets what came, and its input simply ends there. */
  lemma CutFrame(payload: Bytes, k: nat)
    requires k < |payload| <= DD_MAX_COUNT
    ensures Supervise(Decimal(|payload|) + [NEWLINE] + payload[..k]) == Accepted(payload[..k], [])
  {
    ReadLineIs(Decimal(|payload|), payload[..k]);
    DecimalValue(|payload|);
  }

  /** More bytes do not change a line that was read. */
  lemma ReadLineExtends(channel: Bytes, more: Bytes)
    requires ReadLine(channel).Some?
    ensures ReadLine(channel + more) == Some((ReadLine(channel).value.0, ReadLine(channel).value.1 + more))
  {
    var (line, rest) := ReadLine(channel).value;
    assert channel + more == line + [NEWLINE] + (rest + more);
    ReadLineIs(line, rest + more);
  }

  datatype Validated = Payload(bytes: Bytes) | Blank | HasNul | TooLong

  /** `_validate_script`; `space` is `str.isspace` on one character. */
  function Validate(script: string, space: char -> bool): Validated {
    if forall i | 0 <= i < |script| :: space(script[i]) then Blank
    else if '\0' in script then HasNul
    else
      var encoded := Encode(script);
      if |encoded| > MAX_COMMAND_BYTES then TooLong
      else if encoded[|encoded| - 1] != NEWLINE then Payload(encoded + [NEWLINE])
      else Payload(encoded)
  }

  /** Exactly which scripts are refused, and why. */
  lemma ValidateExactly(script: string, space: char -> bool)
    ensures var v := Validate(script, space);
            var blank := forall i | 0 <= i < |script| :: space(script[i]);
            && (v.Blank? <==> blank)
            && (v.HasNul? <==> !blank && '\0' in script)
            && (v.TooLong? <==> !blank && '\0' !in script && |Encode(script)| > MAX_COMMAND_BYTES)
            && (v.Payload? <==> !blank && '\0' !in script && |Encode(script)| <= MAX_COMMAND_BYTES)
  {
  }

  /** The script as it is sent: with a newline at its end. */
  function Ended(script: string): string
    requires script != []
  {
    if script[|script| - 1] == '\n' then script else script + ['\n']
  }

  /** The payload decodes to the script with one newline added if it had none at
      its end; it holds no NUL, and exceeds the limit by one byte only when the
      newline had to be added. */
  lemma ValidatedPayload(script: string, space: char -> bool)
    requires Validate(script, space).Payload?
    ensures script != []
    ensures var p := Validate(script, space).bytes;
            && Decode(p) == Some(Ended(script))
            && p != [] && p[|p| - 1] == NEWLINE && 0 !in p
            && |p| <= MAX_COMMAND_BYTES + 1
            && (|p| == MAX_COMMAND_BYTES + 1 ==> |Encode(script)| == MAX_COMMAND_BYTES)
  {
    var n := |script| - 1;
    var p := Validate(script, space).bytes;
    assert script == script[..n] + [script[n]];
    EncodeSnoc(script[..n], script[n]);
    EncodeSnoc(script, '\n');
    LowByte(script[n], NEWLINE);
    LowBytes(script, 0);
    assert p == Encode(Ended(script));
    DecodeExactly(Ended(script), p);
  }

  /** From `run_script` to the two ends of the channel: what the command reads
      decodes to exactly the script, with its newline, and the watcher reads none
      of it. */
  lemma ScriptReachesCommand(script: string, space: char -> bool, later: Bytes)
    requires Validate(script, space).Payload?
    ensures script != []
    ensures var o := Supervise(Frame(Validate(script, space).bytes) + later);
            o.Accepted? && Decode(o.child) == Some(Ended(script)) && o.watcher == later
  {
    ValidatedPayload(script, space);
    FramingRoundTrip(Validate(script, space).bytes, later);
  }

  /** Which channels end the supervisor, and with which status: no line, a line
      that is no number, a number too large. */
  lemma ExitsExactly(channel: Bytes)
    ensures var o := Supervise(channel);
            && (o == Exits(70) <==> NEWLINE !in channel)
            && (forall size, rest | NEWLINE !in size && channel == size + [NEWLINE] + rest ::
                  && (o == Exits(71) <==> size == [] || !AllDigits(size))
                  && (o == Exits(74) <==> size != [] && AllDigits(size) && Value(size) > DD_MAX_COUNT))
  {
    forall size, rest | NEWLINE !in size && channel == size + [NEWLINE] + rest
      ensures ReadLine(channel) == Some((size, rest))
    {
      ReadLineIs(size, rest);
    }
  }
}
