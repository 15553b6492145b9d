/** The command counters of the line-framed engine: a wrapper around each handler counts the
    `get` and `put` requests it is given before passing them on. */
module Metric {
  import opened Base

  const TwoTo64: int := 0x1_0000_0000_0000_0000

  /** The int64 that `n` wraps around to. */
  function Wrap(n: int): (r: int64)
    ensures (r as int - n) % TwoTo64 == 0
  {
    (((n - MinInt64) % TwoTo64) + MinInt64) as int64
  }

  /** `atomic.AddInt64(&x, 1)`: two's-complement increment, wrapping at the top. */
  function Inc(x: int64): (r: int64)
    ensures r == Wrap(x as int + 1)
    ensures x as int < MaxInt64 ==> r as int == x as int + 1
  {
    if x as int == MaxInt64 then MinInt64 as int64 else x + 1
  }

  lemma WrapSucc(n: int)
    ensures Wrap(Wrap(n) as int + 1) == Wrap(n + 1)
  {
    var a := n - MinInt64;
    var q := a / TwoTo64;
    assert a == q * TwoTo64 + a % TwoTo64;
    var b := a % TwoTo64 + 1;
    assert (a + 1) % TwoTo64 == b % TwoTo64 by {
      assert a + 1 == q * TwoTo64 + b;
    }
  }

  datatype Counters = Counters(getCmd: int64, putCmd: int64)

  /** The counting step of the wrapper for one request with command `command`: `get` and
      `put` bump their own counter, any other command neither. */
  function Count(c: Counters, command: Cmd): (r: Counters)
    ensures command == CmdGet ==> r.getCmd == Inc(c.getCmd) && r.putCmd == c.putCmd
    ensures command == CmdPut ==> r.putCmd == Inc(c.putCmd) && r.getCmd == c.getCmd
    ensures command != CmdGet && command != CmdPut ==> r == c
  {
    if command == CmdGet then c.(getCmd := Inc(c.getCmd))
    else if command == CmdPut then c.(putCmd := Inc(c.putCmd))
    else c
  }

  /** The counters after the wrapper has seen `commands`, in order. */
  function CountAll(c: Counters, commands: seq<Cmd>): (r: Counters)
    // a counter moves only when its command was seen
    ensures CmdGet !in commands ==> r.getCmd == c.getCmd
    ensures CmdPut !in commands ==> r.putCmd == c.putCmd
  {
    if commands == [] then c else Count(CountAll(c, commands[..|commands| - 1]), commands[|commands| - 1])
  }

  /** How many of `commands` are `command`. */
  function Occurrences(commands: seq<Cmd>, command: Cmd): nat
  {
    if commands == [] then 0
    else Occurrences(commands[..|commands| - 1], command) + if commands[|commands| - 1] == command then 1 else 0
  }

  /** Each counter ends at its start plus the number of its commands, modulo 2^64. */
  lemma {:induction false} CountAllTotals(c: Counters, commands: seq<Cmd>)
    ensures CountAll(c, commands).getCmd == Wrap(c.getCmd as int + Occurrences(commands, CmdGet))
    ensures CountAll(c, commands).putCmd == Wrap(c.putCmd as int + Occurrences(commands, CmdPut))
  {
    if commands == [] {
      assert Wrap(c.getCmd as int) == c.getCmd;
      assert Wrap(c.putCmd as int) == c.putCmd;
    } else {
      var init := commands[..|commands| - 1];
      CountAllTotals(c, init);
      WrapSucc(c.getCmd as int + Occurrences(init, CmdGet));
      WrapSucc(c.putCmd as int + Occurrences(init, CmdPut));
    }
  }

  /** `stat`: the two counters, updated in place. */
  class Stat {
    var getCmd: int64
    var putCmd: int64

    constructor ()
      ensures getCmd == 0 && putCmd == 0
    {
      getCmd, putCmd := 0, 0;
    }

    function Snapshot(): Counters
      reads this
    {
      Counters(getCmd, putCmd)
    }

    /** The counting the wrapper does before calling its handler. */
    method Record(command: Cmd)
      modifies this
      ensures Snapshot() == Count(old(Snapshot()), command)
    {
      if command == CmdGet {
        getCmd := Inc(getCmd);
      } else if command == CmdPut {
        putCmd := Inc(putCmd);
      }
    }
  }
}
