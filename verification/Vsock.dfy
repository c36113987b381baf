/** The CONNECT handshake of Firecracker's vsock multiplexer, host side. */
module Vsock {
  import opened Wrappers
  import opened Text

  const MAX_ACK: nat := 64

  /** The receiving side of a socket: what the far end sends, and how much of it was taken. */
  class Socket {
    const incoming: string
    var taken: nat

    ghost predicate Valid()
      reads this
    {
      taken <= |incoming|
    }

    constructor (incoming: string)
      ensures Valid() && this.incoming == incoming && taken == 0
    {
      this.incoming := incoming;
      taken := 0;
    }

    /** `sock_recv(sock, 1)`: one byte, or nothing at the end of the stream. */
    method RecvOne() returns (byte: string)
      requires Valid()
      modifies this
      ensures Valid()
      ensures byte == if old(taken) == |incoming| then "" else [incoming[old(taken)]]
      ensures taken == old(taken) + |byte|
    {
      if taken == |incoming| {
        byte := "";
      } else {
        byte := [incoming[taken]];
        taken := taken + 1;
      }
    }
  }

  /** The acknowledgement in a stream: up to the first newline, at most `MAX_ACK` bytes. */
  function Ack(stream: string): string {
    var n := Find('\n', stream);
    stream[..if n < MAX_ACK then n else MAX_ACK]
  }

  /** How many bytes of the stream the handshake may take. */
  function AckTaken(stream: string): nat {
    |Ack(stream)| + (if |Ack(stream)| < MAX_ACK && |Ack(stream)| < |stream| then 1 else 0)
  }

  /** `_read_ack`. */
  method ReadAck(sock: Socket) returns (line: string)
    requires sock.Valid()
    modifies sock
    ensures sock.Valid()
    ensures line == Ack(sock.incoming[old(sock.taken)..])
    ensures sock.taken == old(sock.taken) + AckTaken(sock.incoming[old(sock.taken)..])
  {
    ghost var stream := sock.incoming[sock.taken..];
    ghost var start := sock.taken;
    line := "";
    while |line| < MAX_ACK
      invariant sock.Valid() && |line| <= MAX_ACK && |line| <= |stream|
      invariant sock.taken == start + |line| && line == stream[..|line|]
      invariant '\n' !in line
      decreases MAX_ACK - |line|
    {
      var byte := sock.RecvOne();
      if byte == "" {
        assert line == stream;
        return;
      }
      if byte == "\n" {
        assert stream[|line|] == '\n';
        assert stream == line + ['\n'] + stream[|line| + 1..];
        FindAt('\n', line, stream[|line| + 1..]);
        return;
      }
      assert byte == [stream[|line|]];
      line := line + byte;
    }
    assert forall i :: 0 <= i < MAX_ACK ==> stream[i] == line[i];
  }

  /**
   An acknowledgement of fewer than `MAX_ACK` bytes is returned whole, and exactly the bytes
   behind its newline are left: the session's first output is not swallowed.
   */
  lemma AckLeavesTheRest(ack: string, rest: string)
    requires '\n' !in ack && |ack| < 64
    ensures Ack(ack + "\n" + rest) == ack
    ensures (ack + "\n" + rest)[AckTaken(ack + "\n" + rest)..] == rest
  {
    FindAt('\n', ack, rest);
    assert (ack + "\n" + rest)[..|ack|] == ack;
  }

  /** At or above the bound the newline itself is left in the stream, in front of the rest. */
  lemma LongAckLeavesTheNewline(ack: string, rest: string)
    requires '\n' !in ack && |ack| >= 64
    ensures Ack(ack + "\n" + rest) == ack[..64]
    ensures (ack + "\n" + rest)[AckTaken(ack + "\n" + rest)..] == ack[64..] + "\n" + rest
    ensures (ack + "\n" + rest)[AckTaken(ack + "\n" + rest)..] != rest
  {
    FindAt('\n', ack, rest);
    assert (ack + "\n" + rest)[..MAX_ACK] == ack[..MAX_ACK];
    assert (ack + "\n" + rest)[MAX_ACK..] == ack[MAX_ACK..] + "\n" + rest;
  }

  /** `parse_ack`: the port Firecracker echoes, or nothing if the line is no acknowledgement. */
  function ParseAck(line: string): Option<int> {
    if |line| < 2 || line[0] != 'O' || line[1] != 'K' then None
    else
      var n := Find(' ', line);
      var rest := if n == |line| then "" else line[n + 1..];
      PyInt(Strip(AsciiSpace, rest))
  }

  const OK: string := "OK"

  /** A line that does not start with OK, or has no number behind its first space, is no acknowledgement. */
  lemma OthersAreRefused(line: string, word: string)
    ensures !(OK <= line) ==> ParseAck(line).None?
    ensures ' ' !in word ==> ParseAck(word).None?
  {
    assert OK <= line <==> |line| >= 2 && line[0] == 'O' && line[1] == 'K';
    if ' ' !in word {
      assert Find(' ', word) == |word|;
      assert Strip(AsciiSpace, "") == "" && PyInt("").None?;
    }
  }

  /** Whatever whitespace stands around the number, such as a carriage return, the port is read. */
  lemma AckReadsBack(port: nat, before: string, after: string)
    requires port < 0x1_0000_0000 && AllSpace(AsciiSpace, before) && AllSpace(AsciiSpace, after)
    ensures ParseAck(OK + SP + (before + Dec(port) + after)) == Some(port)
  {
    var rest := before + Dec(port) + after;
    var line := OK + SP + rest;
    FindAt(' ', OK, rest);
    assert line[3..] == rest && line[0] == 'O' && line[1] == 'K';
    DecIsSolid(AsciiSpace, port);
    StripsAround(AsciiSpace, before, Dec(port), after);
    assert Pow10(10) == 10000000000;
    DecLength(port, 10);
    PyIntReadsBack(port);
  }

  // ---- waiting for the guest to boot ----------------------------------------------------

  /** The gap between attempts, in seconds. */
  const RETRY_DELAY: real := 0.05

  /** How attempt `k` went: the moment it ended and whether it produced a pipe. */
  datatype Attempt = Attempt(connected: bool, endedAt: real)

  /** Each attempt ends at least one delay after the one before. */
  ghost predicate Paced(attempt: nat -> Attempt) {
    forall k: nat :: attempt(k).endedAt + RETRY_DELAY <= attempt(k + 1).endedAt
  }

  lemma {:induction false} PacedTimes(attempt: nat -> Attempt, k: nat)
    requires Paced(attempt)
    ensures attempt(k).endedAt >= attempt(0).endedAt + k as real * RETRY_DELAY
  {
    if k > 0 {
      PacedTimes(attempt, k - 1);
      assert attempt(k - 1 + 1) == attempt(k);
    }
  }

  /** The attempts still possible before the deadline: a bound on the loop. */
  ghost function Budget(attempt: nat -> Attempt, deadline: real, k: nat): nat {
    var left := (deadline - attempt(k).endedAt) / RETRY_DELAY;
    if left < 0.0 then 0 else left.Floor + 1
  }

  /** Attempt `k` connects, and no attempt before it ended at or after the deadline. */
  ghost predicate Reached(attempt: nat -> Attempt, deadline: real, k: nat) {
    attempt(k).connected && forall j: nat :: j < k ==> attempt(j).endedAt < deadline
  }

  /** `connect_with_retry`: the number of attempts made, and whether the last one connected. */
  method ConnectWithRetry(attempt: nat -> Attempt, deadline: real) returns (attempts: nat, connected: bool)
    requires Paced(attempt)
    ensures attempts > 0 && connected == attempt(attempts - 1).connected
    ensures forall k :: 0 <= k < attempts - 1 ==> !attempt(k).connected && attempt(k).endedAt < deadline
    ensures !connected ==> attempt(attempts - 1).endedAt >= deadline
    ensures connected <==> exists k: nat :: Reached(attempt, deadline, k)
    ensures attempts >= 2 ==> (attempts - 2) as real * RETRY_DELAY < deadline - attempt(0).endedAt
  {
    attempts := 0;
    while true
      invariant forall k: nat :: k < attempts ==> !attempt(k).connected && attempt(k).endedAt < deadline
      decreases Budget(attempt, deadline, attempts)
    {
      if attempts > 0 {
        PacedTimes(attempt, attempts - 1);
      }
      attempts := attempts + 1;
      var a := attempt(attempts - 1);
      if !a.connected {
        if a.endedAt >= deadline {
          return attempts, false;
        }
        assert attempt(attempts - 1).endedAt + RETRY_DELAY <= attempt(attempts - 1 + 1).endedAt;
        ShorterBudget(attempt, deadline, attempts - 1);
      } else {
        assert Reached(attempt, deadline, attempts - 1);
        return attempts, true;
      }
    }
  }

  lemma ShorterBudget(attempt: nat -> Attempt, deadline: real, k: nat)
    requires Paced(attempt) && attempt(k).endedAt < deadline
    ensures Budget(attempt, deadline, k + 1) < Budget(attempt, deadline, k)
  {
    var a, b := attempt(k).endedAt, attempt(k + 1).endedAt;
    assert a + RETRY_DELAY <= b;
    assert (deadline - a) / RETRY_DELAY == 20.0 * (deadline - a);
    assert (deadline - b) / RETRY_DELAY == 20.0 * (deadline - b);
  }
}
