/**
 * The lifecycle of a `Daemon` (src/Daemon.php).
 *
 * A daemon owns three pieces of state: the fixed command name, whether the
 * monit marker file is maintained (`withMonit`, only possible when a monit
 * object was supplied) and the last start arguments.  Everything it does
 * outward -- resolving the command, writing and removing the marker file,
 * `pkill`, logging, signal dispatch, sleeping, exiting -- is recorded as an
 * `Effect` appended to a trace.
 *
 * The module first gives each operation as a function from the state before
 * to a `Transition` (state after, effects, outcome), with the properties the
 * source promises proved about those functions; the class `Daemon` then
 * implements the operations imperatively, each method proved to follow its
 * function.
 *
 * The endless `while (true)` loop of `start` is driven by a finite script of
 * tick outcomes.  The run ends at the first successful tick with a stop signal
 * pending (the handler logs and exits with status 0) or, when the script is
 * used up, by returning to the caller: the stand-in for "the loop never
 * stopped", which is the only way the code after a `start` call can run.
 */
module Lifecycle {

  import opened Wrappers
  import Exceptions

  const OperationStart: string := "start"
  const OperationRestart: string := "restart"
  const OperationStop: string := "stop"

  /** A key of a PHP array. */
  datatype Key = IntKey(n: int) | StringKey(s: string)

  /** One key/value pair of a PHP array; arrays keep insertion order. */
  datatype Entry = Entry(key: Key, value: string)

  type PhpArray = seq<Entry>

  /** `array_values($a)`: the values in order, re-indexed from 0. */
  function ArrayValues(a: PhpArray): (r: seq<string>)
    ensures |r| == |a|
    ensures forall i :: 0 <= i < |a| ==> r[i] == a[i].value
  {
    if a == [] then [] else [a[0].value] + ArrayValues(a[1..])
  }

  /** What command resolution is given: `array_values($args)`, a null `$args` passed through as null. */
  function ResolverArgs(args: Option<PhpArray>): (r: Option<seq<string>>)
    ensures r.Some? <==> args.Some?
    ensures args.Some? ==> r.value == ArrayValues(args.value)
  {
    match args
    case None => None
    case Some(a) => Some(ArrayValues(a))
  }

  /** The result of `CommandFabric::getCommand`: a runnable command, or the exception it threw. */
  datatype Resolution = Resolved | Unresolvable(reason: string)

  /** Command resolution, an external library: from the command name and the arguments to a resolution. */
  type Resolver = (string, Option<seq<string>>) -> Resolution

  /**
   * One pass of the tick loop: `$command->run()` (with the timeout lookup)
   * either returns, and then `signalPending` says whether a stop signal waits
   * for the dispatch point, or throws a Throwable with the given message.
   */
  datatype Tick = Ran(signalPending: bool) | Threw(message: string)

  /** The daemon's outward actions, in the order they happen. */
  datatype Effect =
    | Resolve(name: string, args: Option<seq<string>>)  // CommandFabric::getCommand
    | SaveFile                                          // $monit->saveFile()
    | RemoveFile                                        // $monit->removeFile()
    | Pkill(name: string)                               // shell_exec("pkill ...")
    | LogInfo(line: InfoLine)
    | LogError(message: string)
    | RunCommand                                        // $command->run()
    | Dispatch                                          // pcntl_signal_dispatch()
    | Sleep(timeout: nat)                               // usleep($timeout)
    | Exit(status: int)                                 // exit($status)

  /** What escapes an operation: the resolution library's exception or one of the daemon's own. */
  datatype Failure = CommandFailure(reason: string) | DaemonFailure(error: Exceptions.Throwable)

  /** How an operation ends: it returns, the process exits, or an exception propagates. */
  datatype Outcome = Returned | Exited(status: int) | Raised(failure: Failure)

  /** The fields of a daemon; `monitPresent` says whether `$this->monit` is an object. */
  datatype Config = Config(commandName: string, monitPresent: bool, withMonit: bool, startArgs: PhpArray)

  /** The object invariant: the marker file is only maintained when there is a monit. */
  predicate Inv(c: Config) {
    c.withMonit ==> c.monitPresent
  }

  /** An operation seen from outside: the state after, what it did, how it ended. */
  datatype Transition = Transition(config: Config, effects: seq<Effect>, outcome: Outcome)

  /** The info lines the daemon logs, each naming the command. */
  datatype InfoLine = Running(name: string) | WasStopped(name: string) | SendingStop(name: string)

  /** The text of an info line, as the source writes it. */
  function InfoText(line: InfoLine): string {
    match line
    case Running(name) => "Daemon " + name + " running..."
    case WasStopped(name) => "Daemon " + name + " was stopped."
    case SendingStop(name) => "Sending stop signal to daemon " + name + "..."
  }

  /** The first letter and the next-to-last letter of each info text tell the kinds of line apart. */
  lemma InfoTextMarks(line: InfoLine)
    ensures |InfoText(line)| >= 2
    ensures InfoText(line)[0] == if line.SendingStop? then 'S' else 'D'
    ensures InfoText(line)[|InfoText(line)| - 2] == if line.WasStopped? then 'd' else '.'
  {
  }

  /**
   * Different info lines have different texts, so a trace of `InfoLine`
   * values says exactly what was written to the log.
   */
  lemma InfoTextInjective(a: InfoLine, b: InfoLine)
    ensures InfoText(a) == InfoText(b) ==> a == b
  {
    var ta, tb := InfoText(a), InfoText(b);
    InfoTextMarks(a);
    InfoTextMarks(b);
    if a.SendingStop? != b.SendingStop? {
      assert ta[0] != tb[0];
    } else if a.Running? != b.Running? {
      assert ta[|ta| - 2] != tb[|tb| - 2];
    } else if ta == tb {
      var k := if a.SendingStop? then 30 else 7;
      assert ta[k..k + |a.name|] == a.name;
      assert tb[k..k + |b.name|] == b.name;
    }
  }

  /** Number of times `x` occurs in `s`. */
  function Occurrences(x: Effect, s: seq<Effect>): (n: nat)
    ensures n <= |s|
    ensures n == 0 <==> x !in s
  {
    if s == [] then 0 else (if s[0] == x then 1 else 0) + Occurrences(x, s[1..])
  }

  lemma {:induction false} OccurrencesAppend(x: Effect, a: seq<Effect>, b: seq<Effect>)
    ensures Occurrences(x, a + b) == Occurrences(x, a) + Occurrences(x, b)
  {
    if a == [] {
      assert a + b == b;
    } else {
      assert (a + b)[1..] == a[1..] + b;
      OccurrencesAppend(x, a[1..], b);
    }
  }

  lemma OccurrencesOfPair(x: Effect, y: Effect, z: Effect)
    ensures Occurrences(x, [y]) == (if x == y then 1 else 0)
    ensures Occurrences(x, [y, z]) == (if x == y then 1 else 0) + (if x == z then 1 else 0)
  {
    assert [y, z][1..] == [z];
  }

  // ---------------------------------------------------------------- construction and withMonit

  /** `new Daemon($commandName, $logger, $monit)`: withMonit is on exactly when a monit is supplied. */
  function Constructed(commandName: string, monitPresent: bool): (c: Config)
    ensures Inv(c)
    ensures c.commandName == commandName && c.monitPresent == monitPresent
    ensures c.withMonit <==> monitPresent
    ensures c.startArgs == []
  {
    Config(commandName, monitPresent, monitPresent, [])
  }

  /**
   * `setWithMonit($w)`: without a monit it returns false and changes nothing;
   * with one it sets withMonit to `w` and returns `w`.
   */
  function SetWithMonitStep(c: Config, w: bool): (r: (Config, bool))
    ensures Inv(c) ==> Inv(r.0)
    ensures !c.monitPresent ==> r.0 == c && !r.1
    ensures c.monitPresent ==> r.0 == c.(withMonit := w) && r.1 == w
  {
    if !c.monitPresent then (c, false) else (c.(withMonit := w), w)
  }

  // ---------------------------------------------------------------- the tick loop of start

  /** The result of the scripted loop: its effects and whether it ended in the stop-signal exit. */
  datatype LoopRun = LoopRun(effects: seq<Effect>, exited: bool)

  /** A tick after which the stop signal handler runs. */
  predicate Stops(t: Tick) {
    t.Ran? && t.signalPending
  }

  /**
   * The effects the loop may have at all: runs, dispatches, sleeps for the
   * configured timeout, logged failures, the stop line and `exit(0)`.
   */
  predicate LoopEffect(name: string, timeout: nat, e: Effect) {
    || e == RunCommand || e == Dispatch || e == Sleep(timeout) || e.LogError?
    || e == LogInfo(WasStopped(name)) || e == Exit(0)
  }

  /**
   * One pass of the loop body: run the command; on a throw log its message
   * and go on (no dispatch, no sleep); otherwise dispatch signals, where a
   * pending stop signal logs the stop line and exits with 0, or else sleep.
   */
  function TickEffects(name: string, t: Tick, timeout: nat): seq<Effect> {
    match t
    case Threw(m) => [RunCommand, LogError(m)]
    case Ran(signal) =>
      if signal then [RunCommand, Dispatch, LogInfo(WasStopped(name)), Exit(0)]
      else [RunCommand, Dispatch, Sleep(timeout)]
  }

  /**
   * The loop `while (true) { try { ... } catch (\Throwable $e) { ... } }` run
   * on a script, up to the first tick after which the stop signal handler runs.
   */
  function TickLoop(name: string, script: seq<Tick>, timeout: nat): LoopRun
    decreases |script|
  {
    if script == [] then LoopRun([], false)
    else if Stops(script[0]) then LoopRun(TickEffects(name, script[0], timeout), true)
    else
      var rest := TickLoop(name, script[1..], timeout);
      LoopRun(TickEffects(name, script[0], timeout) + rest.effects, rest.exited)
  }

  /**
   * The loop exits exactly when some tick succeeds with a stop signal
   * pending; then `exit(0)` occurs and the last four effects are that run,
   * the dispatch, the stop line and the exit.
   */
  lemma {:induction false} TickLoopExit(name: string, script: seq<Tick>, timeout: nat)
    ensures var r := TickLoop(name, script, timeout);
      && (r.exited <==> exists i :: 0 <= i < |script| && Stops(script[i]))
      && (Exit(0) in r.effects <==> r.exited)
      && (r.exited ==>
            |r.effects| >= 4 &&
            r.effects[|r.effects| - 4..] == [RunCommand, Dispatch, LogInfo(WasStopped(name)), Exit(0)])
    decreases |script|
  {
    if script != [] && !Stops(script[0]) {
      TickLoopExit(name, script[1..], timeout);
      var rest := TickLoop(name, script[1..], timeout);
      var head := TickEffects(name, script[0], timeout);
      assert TickLoop(name, script, timeout).effects == head + rest.effects;
      assert Exit(0) !in head;
      if rest.exited {
        var i :| 0 <= i < |script[1..]| && Stops(script[1..][i]);
        assert Stops(script[i + 1]);
        assert (head + rest.effects)[|head + rest.effects| - 4..] == rest.effects[|rest.effects| - 4..];
      } else {
        forall i | 0 <= i < |script|
          ensures !Stops(script[i])
        {
          if i > 0 {
            assert script[i] == script[1..][i - 1];
          }
        }
      }
    }
  }

  /**
   * The loop only runs the command, logs, dispatches, sleeps and exits (it
   * never touches the marker file, kills or resolves), and it starts with a run.
   */
  lemma {:induction false} TickLoopEffects(name: string, script: seq<Tick>, timeout: nat)
    ensures var e := TickLoop(name, script, timeout).effects;
      && (forall x :: x in e ==> LoopEffect(name, timeout, x))
      && (|e| > 0 ==> e[0] == RunCommand)
    decreases |script|
  {
    if script != [] && !Stops(script[0]) {
      TickLoopEffects(name, script[1..], timeout);
      var rest := TickLoop(name, script[1..], timeout).effects;
      var head := TickEffects(name, script[0], timeout);
      assert TickLoop(name, script, timeout).effects == head + rest;
    }
  }

  /** One step of the loop, seen on the suffix of the script from `i`. */
  lemma TickLoopUnfold(name: string, script: seq<Tick>, i: nat, timeout: nat)
    requires i < |script|
    ensures var here := TickLoop(name, script[i..], timeout);
      if Stops(script[i]) then here == LoopRun(TickEffects(name, script[i], timeout), true)
      else here == LoopRun(TickEffects(name, script[i], timeout) + TickLoop(name, script[i + 1..], timeout).effects,
                           TickLoop(name, script[i + 1..], timeout).exited)
  {
    assert script[i..][0] == script[i];
    assert script[i..][1..] == script[i + 1..];
  }

  /** A run of ticks without a stop signal leaves the loop running into whatever comes next. */
  lemma {:induction false} TickLoopAppend(name: string, s1: seq<Tick>, s2: seq<Tick>, timeout: nat)
    requires forall i :: 0 <= i < |s1| ==> !Stops(s1[i])
    ensures TickLoop(name, s1 + s2, timeout) ==
      LoopRun(TickLoop(name, s1, timeout).effects + TickLoop(name, s2, timeout).effects,
              TickLoop(name, s2, timeout).exited)
  {
    if s1 == [] {
      assert s1 + s2 == s2;
    } else {
      assert (s1 + s2)[0] == s1[0];
      assert (s1 + s2)[1..] == s1[1..] + s2;
      TickLoopAppend(name, s1[1..], s2, timeout);
    }
  }

  /**
   * A pending stop signal is acted on at the dispatch point after the first
   * successful tick that sees it: the loop logs the stop line, exits with 0,
   * and nothing of the script after that tick runs.
   */
  lemma SignalExitsAtDispatch(name: string, before: seq<Tick>, after: seq<Tick>, timeout: nat)
    requires forall i :: 0 <= i < |before| ==> !Stops(before[i])
    ensures TickLoop(name, before + [Ran(true)] + after, timeout) ==
      LoopRun(TickLoop(name, before, timeout).effects +
              [RunCommand, Dispatch, LogInfo(WasStopped(name)), Exit(0)], true)
  {
    assert before + [Ran(true)] + after == before + ([Ran(true)] + after);
    TickLoopAppend(name, before, [Ran(true)] + after, timeout);
  }

  /** A script of throwing ticks, one per message. */
  function Throws(messages: seq<string>): (s: seq<Tick>)
    ensures |s| == |messages|
    ensures forall i :: 0 <= i < |s| ==> s[i] == Threw(messages[i])
  {
    seq(|messages|, i requires 0 <= i < |messages| => Threw(messages[i]))
  }

  /**
   * Throwing ticks are each run once, and the loop carries on past them: it
   * only runs the command and logs failures, so there is no dispatch, no
   * sleep of any length and no exit.
   */
  lemma {:induction false} ThrowsContinue(name: string, messages: seq<string>, timeout: nat)
    ensures var r := TickLoop(name, Throws(messages), timeout);
      && !r.exited
      && (forall x :: x in r.effects ==> x == RunCommand || x.LogError?)
      && Occurrences(RunCommand, r.effects) == |messages|
      && Occurrences(Dispatch, r.effects) == 0
      && Occurrences(Sleep(timeout), r.effects) == 0
  {
    var s := Throws(messages);
    if messages != [] {
      var rest := messages[1..];
      assert s[1..] == Throws(rest);
      ThrowsContinue(name, rest, timeout);
      var head := [RunCommand, LogError(messages[0])];
      var tail := TickLoop(name, Throws(rest), timeout).effects;
      assert TickLoop(name, s, timeout).effects == head + tail;
      OccurrencesOfPair(RunCommand, RunCommand, LogError(messages[0]));
      OccurrencesOfPair(Dispatch, RunCommand, LogError(messages[0]));
      OccurrencesOfPair(Sleep(timeout), RunCommand, LogError(messages[0]));
      OccurrencesAppend(RunCommand, head, tail);
      OccurrencesAppend(Dispatch, head, tail);
      OccurrencesAppend(Sleep(timeout), head, tail);
    }
  }

  /** The message of every throwing tick is logged as an error. */
  lemma {:induction false} ThrowsAreLogged(name: string, messages: seq<string>, timeout: nat)
    ensures var e := TickLoop(name, Throws(messages), timeout).effects;
      forall i :: 0 <= i < |messages| ==> LogError(messages[i]) in e
  {
    var s := Throws(messages);
    if messages != [] {
      var rest := messages[1..];
      assert s[1..] == Throws(rest);
      ThrowsAreLogged(name, rest, timeout);
      var head := [RunCommand, LogError(messages[0])];
      var tail := TickLoop(name, Throws(rest), timeout).effects;
      assert TickLoop(name, s, timeout).effects == head + tail;
      forall i | 0 <= i < |messages|
        ensures LogError(messages[i]) in head + tail
      {
        if i == 0 {
          assert (head + tail)[1] == LogError(messages[0]);
        } else {
          assert messages[i] == rest[i - 1];
          assert LogError(rest[i - 1]) in tail;
        }
      }
    }
  }

  /**
   * N throwing ticks in a row followed by a successful one make N + 1 runs of
   * the command; the only dispatch and the only sleep come after the success,
   * and every sleep is for the configured timeout.
   */
  lemma TransientThenSuccess(name: string, messages: seq<string>, timeout: nat)
    ensures var r := TickLoop(name, Throws(messages) + [Ran(false)], timeout);
      && !r.exited
      && (forall x :: x in r.effects && x.Sleep? ==> x == Sleep(timeout))
      && Occurrences(RunCommand, r.effects) == |messages| + 1
      && Occurrences(Dispatch, r.effects) == 1
      && Occurrences(Sleep(timeout), r.effects) == 1
  {
    var s := Throws(messages);
    TickLoopAppend(name, s, [Ran(false)], timeout);
    forall x | x in TickLoop(name, s + [Ran(false)], timeout).effects && x.Sleep?
      ensures x == Sleep(timeout)
    {
      LoopMember(name, s + [Ran(false)], timeout, x);
    }
    ThrowsContinue(name, messages, timeout);
    QuietTick(name, timeout);
    var e1 := TickLoop(name, s, timeout).effects;
    var e2 := TickLoop(name, [Ran(false)], timeout).effects;
    OccurrencesAppend(RunCommand, e1, e2);
    OccurrencesAppend(Dispatch, e1, e2);
    OccurrencesAppend(Sleep(timeout), e1, e2);
  }

  /** A single tick that runs the command without a stop signal: exactly a run, a dispatch and a sleep. */
  lemma QuietTick(name: string, timeout: nat)
    ensures var r := TickLoop(name, [Ran(false)], timeout);
      && !r.exited
      && r.effects == [RunCommand, Dispatch, Sleep(timeout)]
      && Occurrences(RunCommand, r.effects) == 1
      && Occurrences(Dispatch, r.effects) == 1
      && Occurrences(Sleep(timeout), r.effects) == 1
  {
    assert [Ran(false)][1..] == [];
  }

  /**
   * The order the loop keeps: a dispatch and a logged failure each directly
   * follow a run of the command, and after a logged failure the next effect
   * is the next run.
   */
  predicate LoopOrdered(e: seq<Effect>) {
    && (forall j :: 0 <= j < |e| && e[j] == Dispatch ==> 0 < j && e[j - 1] == RunCommand)
    && (forall j :: 0 <= j < |e| && e[j].LogError? ==> 0 < j && e[j - 1] == RunCommand)
    && (forall j :: 0 < j < |e| && e[j - 1].LogError? ==> e[j] == RunCommand)
  }

  lemma OrderedAppend(a: seq<Effect>, b: seq<Effect>)
    requires LoopOrdered(a) && LoopOrdered(b)
    requires |b| > 0 ==> b[0] == RunCommand
    ensures LoopOrdered(a + b)
  {
    var e := a + b;
    forall j | |a| <= j < |e|
      ensures e[j] == b[j - |a|]
    {
    }
  }

  /**
   * Signal dispatch only ever follows a run of the command; a logged failure
   * also directly follows the run that threw it, and after it the loop goes
   * straight on to the next run.
   */
  lemma {:induction false} LoopOrdering(name: string, script: seq<Tick>, timeout: nat)
    ensures LoopOrdered(TickLoop(name, script, timeout).effects)
    decreases |script|
  {
    if script != [] {
      var head := TickEffects(name, script[0], timeout);
      assert LoopOrdered(head);
      if !Stops(script[0]) {
        LoopOrdering(name, script[1..], timeout);
        TickLoopEffects(name, script[1..], timeout);
        OrderedAppend(head, TickLoop(name, script[1..], timeout).effects);
      }
    }
  }

  // ---------------------------------------------------------------- start, stop, restart, exec

  /**
   * `start($args)`: resolve the command from `array_values($args)`; if that
   * throws, nothing else happens and the exception propagates.  Otherwise
   * adopt `$args ?? startArgs`, save the marker file if withMonit, log, and
   * run the loop.
   */
  function StartStep(c: Config, args: Option<PhpArray>, resolve: Resolver, script: seq<Tick>, timeout: nat): Transition
  {
    var callArgs := ResolverArgs(args);
    match resolve(c.commandName, callArgs)
    case Unresolvable(reason) => Transition(c, [Resolve(c.commandName, callArgs)], Raised(CommandFailure(reason)))
    case Resolved =>
      var loop := TickLoop(c.commandName, script, timeout);
      Transition(c.(startArgs := if args.Some? then args.value else c.startArgs),
                 StartEffects(c, callArgs, loop.effects),
                 if loop.exited then Exited(0) else Returned)
  }


  /** What `start` does to the fields and what it ends in, on both sides of the resolution. */
  lemma StartStepFacts(c: Config, args: Option<PhpArray>, resolve: Resolver, script: seq<Tick>, timeout: nat)
    ensures var t := StartStep(c, args, resolve, script, timeout);
      && (Inv(c) ==> Inv(t.config))
      && t.config.commandName == c.commandName && t.config.monitPresent == c.monitPresent
      && t.config.withMonit == c.withMonit
    ensures var t := StartStep(c, args, resolve, script, timeout);
      resolve(c.commandName, ResolverArgs(args)).Unresolvable? ==>
      && t.config == c
      && t.effects == [Resolve(c.commandName, ResolverArgs(args))]
      && t.outcome == Raised(CommandFailure(resolve(c.commandName, ResolverArgs(args)).reason))
    ensures var t := StartStep(c, args, resolve, script, timeout);
      resolve(c.commandName, ResolverArgs(args)).Resolved? ==>
      && t.config.startArgs == (if args.Some? then args.value else c.startArgs)
      && (t.outcome == Returned || t.outcome == Exited(0))
  {
  }

  /** The effects of a `start` whose command resolved: resolution, the optional save, the log line, the loop. */
  function StartEffects(c: Config, callArgs: Option<seq<string>>, loop: seq<Effect>): seq<Effect> {
    [Resolve(c.commandName, callArgs)] + (if c.withMonit then [SaveFile] else []) + [LogInfo(Running(c.commandName))] + loop
  }

  /** Any one effect of the loop is a `LoopEffect`. */
  lemma LoopMember(name: string, script: seq<Tick>, timeout: nat, x: Effect)
    requires x in TickLoop(name, script, timeout).effects
    ensures LoopEffect(name, timeout, x)
  {
    TickLoopEffects(name, script, timeout);
  }

  /** The effects of a resolved `start` are the resolution, the optional save, the log line and the loop's. */
  lemma StartEffectsMember(c: Config, callArgs: Option<seq<string>>, loop: seq<Effect>, x: Effect)
    ensures x in StartEffects(c, callArgs, loop) <==>
      x == Resolve(c.commandName, callArgs) || (c.withMonit && x == SaveFile) ||
      x == LogInfo(Running(c.commandName)) || x in loop
  {
  }

  /** After the resolution, a resolved `start` has the optional save, the log line and the loop's effects. */
  lemma StartEffectsTail(c: Config, callArgs: Option<seq<string>>, loop: seq<Effect>)
    ensures StartEffects(c, callArgs, loop)[1..] ==
      (if c.withMonit then [SaveFile] else []) + [LogInfo(Running(c.commandName))] + loop
  {
    var r := [Resolve(c.commandName, callArgs)];
    var save := if c.withMonit then [SaveFile] else [];
    var log := [LogInfo(Running(c.commandName))];
    assert r + save + log + loop == r + (save + log + loop);
  }

  /**
   * Under the invariant, the marker file is only saved by `start` or removed
   * by `stop` when there is a monit to do it.
   */
  lemma MarkerFileNeedsMonit(c: Config, args: Option<PhpArray>, resolve: Resolver, script: seq<Tick>, timeout: nat)
    requires Inv(c)
    ensures SaveFile in StartStep(c, args, resolve, script, timeout).effects ==> c.monitPresent
    ensures RemoveFile in StopStep(c).effects ==> c.monitPresent
  {
    StartSavesIffWithMonit(c, args, resolve, script, timeout);
  }

  /** The loop never produces an effect outside `LoopEffect`. */
  lemma LoopLeavesOut(name: string, script: seq<Tick>, timeout: nat, x: Effect)
    requires !LoopEffect(name, timeout, x)
    ensures Occurrences(x, TickLoop(name, script, timeout).effects) == 0
  {
    TickLoopEffects(name, script, timeout);
  }

  /** Appending three effect lists one after another appends their concatenation. */
  lemma AppendThree(before: seq<Effect>, a: seq<Effect>, b: seq<Effect>, c: seq<Effect>)
    ensures before + a + b + c == before + (a + b + c)
  {
  }

  lemma StartEffectsSplit(before: seq<Effect>, c: Config, callArgs: Option<seq<string>>, loop: seq<Effect>)
    ensures before + StartEffects(c, callArgs, loop) == (before + StartEffects(c, callArgs, [])) + loop
  {
  }

  lemma StartEffectsOccurrences(c: Config, callArgs: Option<seq<string>>, loop: seq<Effect>, x: Effect)
    ensures Occurrences(x, StartEffects(c, callArgs, loop)) ==
      Occurrences(x, [Resolve(c.commandName, callArgs)]) + Occurrences(x, if c.withMonit then [SaveFile] else []) +
      Occurrences(x, [LogInfo(Running(c.commandName))]) + Occurrences(x, loop)
  {
    var head := [Resolve(c.commandName, callArgs)];
    var save := if c.withMonit then [SaveFile] else [];
    var log := [LogInfo(Running(c.commandName))];
    OccurrencesAppend(x, head + save + log, loop);
    OccurrencesAppend(x, head + save, log);
    OccurrencesAppend(x, head, save);
  }

  /**
   * A `start` whose command resolves ends in `exit(0)` exactly when some
   * successful tick of its script has a stop signal pending, and otherwise
   * comes back to its caller.
   */
  lemma StartExitsOnSignal(c: Config, args: Option<PhpArray>, resolve: Resolver, script: seq<Tick>, timeout: nat)
    requires resolve(c.commandName, ResolverArgs(args)).Resolved?
    ensures var t := StartStep(c, args, resolve, script, timeout);
      t.outcome == (if exists i :: 0 <= i < |script| && Stops(script[i]) then Exited(0) else Returned)
  {
    TickLoopExit(c.commandName, script, timeout);
  }

  /**
   * `start` resolves the command exactly once, as its very first effect: no
   * later effect is a resolution of any name or arguments.
   */
  lemma StartResolvesFirst(c: Config, args: Option<PhpArray>, resolve: Resolver, script: seq<Tick>, timeout: nat)
    ensures var e := StartStep(c, args, resolve, script, timeout).effects;
      && |e| > 0 && e[0] == Resolve(c.commandName, ResolverArgs(args))
      && (forall x :: x in e[1..] ==> !x.Resolve?)
      && (forall x :: x in e && x.Resolve? ==> x == Resolve(c.commandName, ResolverArgs(args)))
      && Occurrences(Resolve(c.commandName, ResolverArgs(args)), e) == 1
  {
    var callArgs := ResolverArgs(args);
    var name := c.commandName;
    var e := StartStep(c, args, resolve, script, timeout).effects;
    if resolve(name, callArgs).Resolved? {
      var loop := TickLoop(name, script, timeout).effects;
      var rest := (if c.withMonit then [SaveFile] else []) + [LogInfo(Running(name))] + loop;
      assert e == StartEffects(c, callArgs, loop);
      StartEffectsTail(c, callArgs, loop);
      forall x | x in rest
        ensures !x.Resolve?
      {
        if x in loop {
          LoopMember(name, script, timeout, x);
        }
      }
      StartEffectsOccurrences(c, callArgs, loop, Resolve(name, callArgs));
      LoopLeavesOut(name, script, timeout, Resolve(name, callArgs));
    }
    forall x | x in e && x.Resolve?
      ensures x == Resolve(name, callArgs)
    {
      assert e == [e[0]] + e[1..];
    }
  }

  /**
   * `start` saves the marker file exactly once when withMonit is on and the
   * command resolves, and never otherwise; the save comes right after
   * resolution, before any run of the command.
   */
  lemma StartSavesIffWithMonit(c: Config, args: Option<PhpArray>, resolve: Resolver, script: seq<Tick>, timeout: nat)
    ensures var e := StartStep(c, args, resolve, script, timeout).effects;
      Occurrences(SaveFile, e) == if c.withMonit && resolve(c.commandName, ResolverArgs(args)).Resolved? then 1 else 0
  {
    var callArgs := ResolverArgs(args);
    var name := c.commandName;
    if resolve(name, callArgs).Resolved? {
      StartEffectsOccurrences(c, callArgs, TickLoop(name, script, timeout).effects, SaveFile);
      LoopLeavesOut(name, script, timeout, SaveFile);
    }
  }

  /** When `start` saves the marker file it does so right after resolving, before the command first runs. */
  lemma StartSavesBeforeRunning(c: Config, args: Option<PhpArray>, resolve: Resolver, script: seq<Tick>, timeout: nat)
    ensures var e := StartStep(c, args, resolve, script, timeout).effects;
      SaveFile in e ==> e[1] == SaveFile && forall j :: 0 <= j < |e| && e[j] == RunCommand ==> 1 < j
  {
    StartSavesIffWithMonit(c, args, resolve, script, timeout);
  }

  /** `start` never removes the marker file and never kills, whatever the process name. */
  lemma StartNeitherRemovesNorKills(c: Config, args: Option<PhpArray>, resolve: Resolver, script: seq<Tick>, timeout: nat)
    ensures var e := StartStep(c, args, resolve, script, timeout).effects;
      && (forall x :: x in e ==> !x.RemoveFile? && !x.Pkill?)
      && Occurrences(RemoveFile, e) == 0 && Occurrences(Pkill(c.commandName), e) == 0
  {
    var callArgs := ResolverArgs(args);
    var name := c.commandName;
    var e := StartStep(c, args, resolve, script, timeout).effects;
    if resolve(name, callArgs).Resolved? {
      var loop := TickLoop(name, script, timeout).effects;
      assert e == StartEffects(c, callArgs, loop);
      forall x | x in e
        ensures !x.RemoveFile? && !x.Pkill?
      {
        StartEffectsMember(c, callArgs, loop, x);
        if x in loop {
          LoopMember(name, script, timeout, x);
        }
      }
    }
    assert RemoveFile !in e && Pkill(name) !in e;
  }

  /**
   * `stop()`: remove the marker file only if withMonit, then one `pkill` on
   * the command name, then one log line; no field changes.
   */
  function StopStep(c: Config): (t: Transition)
    ensures t.config == c && t.outcome == Returned
    ensures |t.effects| == if c.withMonit then 3 else 2
    ensures (RemoveFile in t.effects) <==> c.withMonit
    ensures c.withMonit ==> t.effects[0] == RemoveFile
    ensures t.effects[|t.effects| - 2] == Pkill(c.commandName)
    ensures t.effects[|t.effects| - 1] == LogInfo(SendingStop(c.commandName))
    ensures SaveFile !in t.effects && Occurrences(Pkill(c.commandName), t.effects) == 1
  {
    var remove := if c.withMonit then [RemoveFile] else [];
    Transition(c, remove + [Pkill(c.commandName), LogInfo(SendingStop(c.commandName))], Returned)
  }

  /**
   * `restart()`: save withMonit, clear it, `start(); stop(); start();` with no
   * arguments, then restore it.  A call that does not return (an exit, an
   * exception) ends the sequence there, so withMonit stays cleared.
   */
  function RestartStep(c: Config, resolve: Resolver, first: seq<Tick>, second: seq<Tick>, timeout: nat): (t: Transition)
    ensures Inv(c) ==> Inv(t.config)
    ensures t.outcome == Returned ==> t.config == c
    ensures t.outcome != Returned ==> t.config == c.(withMonit := false)
  {
    var c0 := c.(withMonit := false);
    var r1 := StartStep(c0, None, resolve, first, timeout);
    if r1.outcome != Returned then r1
    else
      var r2 := StopStep(r1.config);
      var r3 := StartStep(r2.config, None, resolve, second, timeout);
      var effects := r1.effects + r2.effects + r3.effects;
      if r3.outcome != Returned then Transition(r3.config, effects, r3.outcome)
      else Transition(r3.config.(withMonit := c.withMonit), effects, Returned)
  }

  lemma RestartOccurrences(c: Config, resolve: Resolver, first: seq<Tick>, second: seq<Tick>, timeout: nat, x: Effect)
    ensures var c0 := c.(withMonit := false);
      var r1 := StartStep(c0, None, resolve, first, timeout);
      var t := RestartStep(c, resolve, first, second, timeout);
      Occurrences(x, t.effects) ==
        if r1.outcome != Returned then Occurrences(x, r1.effects)
        else Occurrences(x, r1.effects) + Occurrences(x, StopStep(r1.config).effects) +
             Occurrences(x, StartStep(r1.config, None, resolve, second, timeout).effects)
  {
    var c0 := c.(withMonit := false);
    var r1 := StartStep(c0, None, resolve, first, timeout);
    if r1.outcome == Returned {
      var r2 := StopStep(r1.config);
      var r3 := StartStep(r2.config, None, resolve, second, timeout);
      OccurrencesAppend(x, r1.effects + r2.effects, r3.effects);
      OccurrencesAppend(x, r1.effects, r2.effects);
    }
  }

  /**
   * During `restart` withMonit is off for every inner `start` and `stop`, so
   * the marker file is neither written nor removed.
   */
  lemma RestartKeepsMarkerFile(c: Config, resolve: Resolver, first: seq<Tick>, second: seq<Tick>, timeout: nat)
    ensures var t := RestartStep(c, resolve, first, second, timeout);
      && Occurrences(SaveFile, t.effects) == 0
      && Occurrences(RemoveFile, t.effects) == 0
  {
    var c0 := c.(withMonit := false);
    var r1 := StartStep(c0, None, resolve, first, timeout);
    StartSavesIffWithMonit(c0, None, resolve, first, timeout);
    StartNeitherRemovesNorKills(c0, None, resolve, first, timeout);
    RestartOccurrences(c, resolve, first, second, timeout, SaveFile);
    RestartOccurrences(c, resolve, first, second, timeout, RemoveFile);
    if r1.outcome == Returned {
      StartSavesIffWithMonit(r1.config, None, resolve, second, timeout);
      StartNeitherRemovesNorKills(r1.config, None, resolve, second, timeout);
    }
  }

  /**
   * The kill between the two starts of `restart` happens exactly when the
   * first start came back, and it is the only kill: every kill is of the
   * daemon's own command name.
   */
  lemma RestartKillsOnce(c: Config, resolve: Resolver, first: seq<Tick>, second: seq<Tick>, timeout: nat)
    ensures var t := RestartStep(c, resolve, first, second, timeout);
      && (forall x :: x in t.effects && x.Pkill? ==> x == Pkill(c.commandName))
      && Occurrences(Pkill(c.commandName), t.effects) ==
           (if StartStep(c.(withMonit := false), None, resolve, first, timeout).outcome == Returned then 1 else 0)
  {
    var c0 := c.(withMonit := false);
    var r1 := StartStep(c0, None, resolve, first, timeout);
    StartNeitherRemovesNorKills(c0, None, resolve, first, timeout);
    RestartOccurrences(c, resolve, first, second, timeout, Pkill(c.commandName));
    if r1.outcome == Returned {
      StartStepFacts(c0, None, resolve, first, timeout);
      StartNeitherRemovesNorKills(r1.config, None, resolve, second, timeout);
    }
  }

  /**
   * Every resolution `restart` makes is of the daemon's command with null
   * arguments, and a completed restart makes two.
   */
  lemma RestartResolvesTwice(c: Config, resolve: Resolver, first: seq<Tick>, second: seq<Tick>, timeout: nat)
    ensures var t := RestartStep(c, resolve, first, second, timeout);
      && (forall x :: x in t.effects && x.Resolve? ==> x == Resolve(c.commandName, None))
      && (t.outcome == Returned ==> Occurrences(Resolve(c.commandName, None), t.effects) == 2)
  {
    var c0 := c.(withMonit := false);
    var r1 := StartStep(c0, None, resolve, first, timeout);
    RestartOccurrences(c, resolve, first, second, timeout, Resolve(c.commandName, None));
    StartResolvesFirst(c0, None, resolve, first, timeout);
    if r1.outcome == Returned {
      StartStepFacts(c0, None, resolve, first, timeout);
      StartResolvesFirst(c0, None, resolve, first, timeout);
      StartResolvesFirst(r1.config, None, resolve, second, timeout);
      var stop := StopStep(r1.config).effects;
      assert Occurrences(Resolve(c.commandName, None), stop) == 0;
    }
  }

  /** The exception `exec` throws for an operation it does not know. */
  function Unsupported(): (f: Failure)
    ensures f.DaemonFailure?
    ensures f.error.cls == Exceptions.DaemonOperationNotSupportedException
    ensures f.error.message == "Daemon operation not supported." && f.error.code == 0
  {
    DaemonFailure(Exceptions.NewDefault(Exceptions.DaemonOperationNotSupportedException))
  }

  /**
   * `exec($operation)`: "start", "stop" and "restart" behave as `start()`,
   * `stop()` and `restart()`; any other string throws
   * DaemonOperationNotSupportedException with no effect and no field change.
   */
  function ExecStep(c: Config, operation: string, resolve: Resolver, first: seq<Tick>, second: seq<Tick>, timeout: nat): (t: Transition)
    ensures Inv(c) ==> Inv(t.config)
    ensures operation == OperationStart ==> t == StartStep(c, None, resolve, first, timeout)
    ensures operation == OperationStop ==> t == StopStep(c)
    ensures operation == OperationRestart ==> t == RestartStep(c, resolve, first, second, timeout)
    ensures operation != OperationStart && operation != OperationStop && operation != OperationRestart ==>
      t == Transition(c, [], Raised(Unsupported()))
  {
    if operation == OperationStart then StartStep(c, None, resolve, first, timeout)
    else if operation == OperationStop then StopStep(c)
    else if operation == OperationRestart then RestartStep(c, resolve, first, second, timeout)
    else Transition(c, [], Raised(Unsupported()))
  }

  /** An operation that `exec` rejects never writes or removes the marker file and never kills. */
  lemma ExecUnsupportedIsInert(c: Config, operation: string, resolve: Resolver, first: seq<Tick>, second: seq<Tick>, timeout: nat)
    requires operation !in {OperationStart, OperationStop, OperationRestart}
    ensures var t := ExecStep(c, operation, resolve, first, second, timeout);
      t.config == c && t.effects == [] && t.outcome.Raised? && t.outcome.failure.DaemonFailure?
  {
  }

  // ---------------------------------------------------------------- the class

  /** The daemon object: its fields and the trace of its outward effects. */
  class Daemon {
    const commandName: string
    const monitPresent: bool
    var withMonit: bool
    var startArgs: PhpArray
    var trace: seq<Effect>

    /** The fields as a value. */
    function State(): Config
      reads this
    {
      Config(commandName, monitPresent, withMonit, startArgs)
    }

    ghost predicate Valid()
      reads this
    {
      Inv(State())
    }

    /** Signal registration (`pcntl_signal`) is not modelled; see `StopSignalHandler`. */
    constructor (name: string, monit: bool)
      ensures Valid()
      ensures State() == Constructed(name, monit)
      ensures trace == []
    {
      commandName := name;
      monitPresent := monit;
      withMonit := monit;
      startArgs := [];
      trace := [];
    }

    method IsWithMonit() returns (b: bool)
      ensures b == withMonit
    {
      b := withMonit;
    }

    method SetWithMonit(w: bool) returns (r: bool)
      requires Valid()
      modifies this`withMonit
      ensures Valid()
      ensures (State(), r) == SetWithMonitStep(old(State()), w)
    {
      if !monitPresent {
        return false;
      }
      withMonit := w;
      r := w;
    }

    method GetStartArgs() returns (a: PhpArray)
      ensures a == startArgs
    {
      a := startArgs;
    }

    method SetStartArgs(a: PhpArray)
      requires Valid()
      modifies this`startArgs
      ensures Valid()
      ensures State() == old(State()).(startArgs := a)
    {
      startArgs := a;
    }

    /** The stop signal handler: log the stop line and exit with status 0. */
    method StopSignalHandler()
      modifies this`trace
      ensures trace == old(trace) + [LogInfo(WasStopped(commandName)), Exit(0)]
    {
      trace := trace + [LogInfo(WasStopped(commandName)), Exit(0)];
    }

    /**
     * One pass of the loop body: `run()`; on a Throwable log its message,
     * otherwise dispatch signals and, unless the stop handler exits, sleep.
     */
    method TickOnce(t: Tick, timeout: nat) returns (exited: bool)
      modifies this`trace
      ensures trace == old(trace) + TickEffects(commandName, t, timeout)
      ensures exited == Stops(t)
    {
      exited := false;
      trace := trace + [RunCommand];
      match t {
        case Threw(message) =>
          trace := trace + [LogError(message)];
        case Ran(signalPending) =>
          trace := trace + [Dispatch];
          if signalPending {
            StopSignalHandler();
            exited := true;
          } else {
            trace := trace + [Sleep(timeout)];
          }
      }
    }

    /** The `while (true)` loop of `start`, driven by `script`. */
    method RunTicks(script: seq<Tick>, timeout: nat) returns (exited: bool)
      modifies this`trace
      ensures var r := TickLoop(commandName, script, timeout);
        trace == old(trace) + r.effects && exited == r.exited
    {
      ghost var whole := TickLoop(commandName, script, timeout);
      var i := 0;
      exited := false;
      while i < |script| && !exited
        invariant 0 <= i <= |script|
        invariant !exited ==>
          old(trace) + whole.effects == trace + TickLoop(commandName, script[i..], timeout).effects &&
          whole.exited == TickLoop(commandName, script[i..], timeout).exited
        invariant exited ==> trace == old(trace) + whole.effects && whole.exited
        decreases |script| - i
      {
        TickLoopUnfold(commandName, script, i, timeout);
        ghost var before := trace;
        exited := TickOnce(script[i], timeout);
        if !exited {
          ghost var step := TickEffects(commandName, script[i], timeout);
          ghost var next := TickLoop(commandName, script[i + 1..], timeout).effects;
          assert before + (step + next) == trace + next;
        }
        i := i + 1;
      }
      if !exited {
        assert script[i..] == [];
      }
    }

    /** The part of `start` between a successful resolution and the loop: keep the arguments, save the marker file, log. */
    method Announce(args: Option<PhpArray>)
      requires Valid()
      modifies this`startArgs, this`trace
      ensures Valid()
      ensures State() == old(State()).(startArgs := if args.Some? then args.value else old(startArgs))
      ensures trace == old(trace) + (if withMonit then [SaveFile] else []) + [LogInfo(Running(commandName))]
    {
      startArgs := if args.Some? then args.value else startArgs;
      if withMonit {
        trace := trace + [SaveFile];
      }
      trace := trace + [LogInfo(Running(commandName))];
    }

    method Start(args: Option<PhpArray>, resolve: Resolver, script: seq<Tick>, timeout: nat) returns (outcome: Outcome)
      requires Valid()
      modifies this`startArgs, this`trace
      ensures Valid()
      ensures State() == StartStep(old(State()), args, resolve, script, timeout).config
      ensures trace == old(trace) + StartStep(old(State()), args, resolve, script, timeout).effects
      ensures outcome == StartStep(old(State()), args, resolve, script, timeout).outcome
    {
      ghost var c := State();
      ghost var t0 := trace;
      var callArgs := ResolverArgs(args);
      ghost var loop := TickLoop(commandName, script, timeout);
      ghost var t := StartStep(c, args, resolve, script, timeout);
      trace := trace + [Resolve(commandName, callArgs)];
      var resolution := resolve(commandName, callArgs);
      if resolution.Unresolvable? {
        outcome := Raised(CommandFailure(resolution.reason));
        assert t == Transition(c, [Resolve(commandName, callArgs)], outcome);
        return;
      }
      assert t == Transition(c.(startArgs := if args.Some? then args.value else c.startArgs),
                             StartEffects(c, callArgs, loop.effects),
                             if loop.exited then Exited(0) else Returned);
      Announce(args);
      ghost var head := StartEffects(c, callArgs, []);
      assert trace == t0 + head;
      var exited := RunTicks(script, timeout);
      outcome := if exited then Exited(0) else Returned;
      StartEffectsSplit(t0, c, callArgs, loop.effects);
    }

    method Stop()
      requires Valid()
      modifies this`trace
      ensures Valid()
      ensures var t := StopStep(old(State()));
        State() == t.config && trace == old(trace) + t.effects
    {
      if withMonit {
        trace := trace + [RemoveFile];
      }
      trace := trace + [Pkill(commandName)];
      trace := trace + [LogInfo(SendingStop(commandName))];
    }

    method Restart(resolve: Resolver, first: seq<Tick>, second: seq<Tick>, timeout: nat) returns (outcome: Outcome)
      requires Valid()
      modifies this`withMonit, this`startArgs, this`trace
      ensures Valid()
      ensures var t := RestartStep(old(State()), resolve, first, second, timeout);
        State() == t.config && trace == old(trace) + t.effects && outcome == t.outcome
    {
      ghost var c := State();
      ghost var t0 := trace;
      var oldWithMonit := withMonit;
      withMonit := false;
      ghost var r1 := StartStep(State(), None, resolve, first, timeout);
      assert r1 == StartStep(c.(withMonit := false), None, resolve, first, timeout);
      outcome := Start(None, resolve, first, timeout);
      if outcome != Returned {
        assert RestartStep(c, resolve, first, second, timeout) == r1;
        return;
      }
      ghost var r2 := StopStep(State());
      Stop();
      ghost var r3 := StartStep(State(), None, resolve, second, timeout);
      outcome := Start(None, resolve, second, timeout);
      AppendThree(t0, r1.effects, r2.effects, r3.effects);
      if outcome != Returned {
        assert RestartStep(c, resolve, first, second, timeout) ==
          Transition(r3.config, r1.effects + r2.effects + r3.effects, r3.outcome);
        return;
      }
      withMonit := oldWithMonit;
      assert RestartStep(c, resolve, first, second, timeout) ==
        Transition(State(), r1.effects + r2.effects + r3.effects, Returned);
    }

    method Exec(operation: string, resolve: Resolver, first: seq<Tick>, second: seq<Tick>, timeout: nat) returns (outcome: Outcome)
      requires Valid()
      modifies this`withMonit, this`startArgs, this`trace
      ensures Valid()
      ensures var t := ExecStep(old(State()), operation, resolve, first, second, timeout);
        State() == t.config && trace == old(trace) + t.effects && outcome == t.outcome
    {
      if operation == OperationStart {
        outcome := Start(None, resolve, first, timeout);
      } else if operation == OperationStop {
        Stop();
        outcome := Returned;
      } else if operation == OperationRestart {
        outcome := Restart(resolve, first, second, timeout);
      } else {
        outcome := Raised(Unsupported());
      }
    }
  }
}
