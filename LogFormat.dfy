/** The system log's line format, shared by both modules that write it,
    and the wall clock that stamps each line. */
module LogFormat {

  /** One line of the system log: `f"{timestamp} - {message}\n"`. */
  function Line(timestamp: string, message: string): string {
    timestamp + " - " + message + "\n"
  }

  /** The lines written for `messages` when the clock readings from index
      `from` onwards stamp them, one reading per line. */
  function Stamped(readings: nat -> string, from: nat, messages: seq<string>): (lines: seq<string>)
    ensures |lines| == |messages|
  {
    seq(|messages|, i requires 0 <= i < |messages| => Line(readings(from + i), messages[i]))
  }

  lemma StampedOne(readings: nat -> string, from: nat, message: string)
    ensures Stamped(readings, from, [message]) == [Line(readings(from), message)]
  {
  }

  /** Stamping two runs of messages one after the other, the second from
      the reading `mid` where the first stopped, stamps their concatenation. */
  lemma StampedAppend(readings: nat -> string, from: nat, mid: nat, a: seq<string>, b: seq<string>)
    requires mid == from + |a|
    ensures Stamped(readings, from, a + b) == Stamped(readings, from, a) + Stamped(readings, mid, b)
  {
    var l, r := Stamped(readings, from, a + b), Stamped(readings, from, a) + Stamped(readings, mid, b);
    forall i | 0 <= i < |l| ensures l[i] == r[i] {
      if i >= |a| { assert (a + b)[i] == b[i - |a|]; }
    }
  }

  /** A log that grew by the lines for `said` and then by those for `more`
      grew by the lines for `said + more`. */
  lemma StampedExtend(readings: nat -> string, from: nat, mid: nat, before: seq<string>, said: seq<string>, more: seq<string>)
    requires mid == from + |said|
    ensures before + Stamped(readings, from, said) + Stamped(readings, mid, more)
         == before + Stamped(readings, from, said + more)
  {
    StampedAppend(readings, from, mid, said, more);
  }

  /** `datetime.now().isoformat()`: the clock is the sequence of its readings,
      and each call takes the next one. */
  class Clock {
    const readings: nat -> string
    var taken: nat

    constructor (readings: nat -> string)
      ensures this.readings == readings && taken == 0
    {
      this.readings := readings;
      taken := 0;
    }

    method Now() returns (timestamp: string)
      modifies this
      ensures timestamp == readings(old(taken))
      ensures taken == old(taken) + 1
    {
      timestamp := readings(taken);
      taken := taken + 1;
    }
  }
}
