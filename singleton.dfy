/** The Singleton pattern: a logger handed out by a lazily initialised,
    process-wide instance slot. */
module Singleton {
  import opened Output

  const LogPrefix := "[LOG] "

  /** The line `log(msg)` prints. */
  function LogLine(msg: string): string
  {
    LogPrefix + msg
  }

  /** Recovers the message from a printed log line: whatever it recovers,
      logging that message prints exactly this line. */
  function ParseLogLine(line: string): (r: Option<string>)
    ensures r.Some? ==> LogLine(r.value) == line
  {
    if StartsWith(line, LogPrefix) then
      assert line == line[..|LogPrefix|] + line[|LogPrefix|..];
      Some(line[|LogPrefix|..])
    else None
  }

  /** A log line carries the fixed prefix followed by the message unchanged,
      and no other line reads as that log line. */
  lemma LogLineRoundTrip(msg: string, line: string)
    ensures ParseLogLine(LogLine(msg)) == Some(msg)
    ensures ParseLogLine(line) == Some(msg) <==> line == LogLine(msg)
  {
    assert LogLine(msg)[..|LogPrefix|] == LogPrefix;
    assert LogLine(msg)[|LogPrefix|..] == msg;
    if ParseLogLine(line) == Some(msg) {
      assert line == line[..|LogPrefix|] + line[|LogPrefix|..];
    }
  }

  /** The logger itself has no state; its constructor is private in the
      source and only LoggerRegistry.GetInstance calls it. */
  class Logger {
    constructor ()
    {
    }

    method Log(out: Console, msg: string)
      modifies out
      ensures out.lines == old(out.lines) + [LogLine(msg)]
    {
      out.PrintLine(LogPrefix + msg);
    }
  }

  /** The static state of the Logger class: the `instance` slot, plus a ghost
      count of the Logger objects constructed so far. */
  class LoggerRegistry {
    var instance: Logger?
    ghost var constructed: nat

    /** The slot is filled exactly when one Logger has been constructed. */
    ghost predicate Valid()
      reads this
    {
      constructed <= 1 && (instance == null <==> constructed == 0)
    }

    /** Class initialisation: no instance yet. */
    constructor ()
      ensures Valid() && instance == null && constructed == 0
    {
      instance := null;
      constructed := 0;
    }

    /** The first call constructs the logger and stores it; every later call
        returns the stored logger and constructs nothing. */
    method GetInstance() returns (logger: Logger)
      requires Valid()
      modifies this
      ensures Valid()
      ensures instance == logger && constructed == 1
      ensures old(instance) == null ==> fresh(logger) && old(constructed) == 0
      ensures old(instance) != null ==> logger == old(instance) && unchanged(this)
    {
      if instance == null {
        instance := new Logger();
        constructed := constructed + 1;
      }
      logger := instance;
    }

    /** Two successive calls give the identical reference, whatever the state
        before, and at most the first constructs. */
    method GetInstanceTwice() returns (first: Logger, second: Logger)
      requires Valid()
      modifies this
      ensures Valid() && constructed == 1
      ensures first == second == instance
      ensures old(instance) != null ==> first == old(instance)
    {
      first := GetInstance();
      second := GetInstance();
    }
  }
}
