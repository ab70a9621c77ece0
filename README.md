# Daemon lifecycle (scaleplan/daemon) in Dafny

This project models the `Daemon` class of scaleplan/daemon and the
default-message rule of its exception hierarchy.

A `Daemon` supervises one console command, identified by a fixed command name.
It keeps two mutable fields:

- `withMonit`: whether the monit marker file is maintained.
- `startArgs`: the last arguments given to `start`.

`withMonit` can only be on when a monit object was supplied at construction.
The class has five operations:

- `start` resolves the command, updates `startArgs`, saves the marker file if
  `withMonit` is on, and then runs the command forever in a loop that catches
  every `Throwable`.
- `stop` removes the marker file if `withMonit` is on, kills processes by the
  command name and logs.
- `restart` clears `withMonit`, runs `start`, `stop`, `start`, and then
  restores `withMonit`.
- `exec` dispatches the strings `start`, `stop` and `restart` to those three
  operations.
- The constructor, plus the accessors for `withMonit` and `startArgs`.

When no message is given, an exception of the hierarchy takes its class's
`MESSAGE` constant.

Files:

- `Wrappers.dfy`: `Option`, standing for PHP's nullable values.
- `Exceptions.dfy` (module `Exceptions`): the constructor rule
  `$message ?: static::MESSAGE`, as a pure function of the class being
  constructed.
- `Daemon.dfy` (module `Lifecycle`): the daemon in two layers.
  - Each operation is a function from a `Config` (the daemon's fields) to a
    `Transition`. A `Transition` holds the new fields, the outward effects in
    order, and how the call ended: it returned, the process exited, or an
    exception propagated. The properties are proved as lemmas about these
    functions.
  - Class `Daemon` has the same fields plus a `trace` of effects. Its methods
    mutate the fields step by step, as the PHP does. Each method is proved to
    produce exactly the `Transition` of its function. Each method also keeps
    the object invariant `withMonit ==> monit present`.

Outward actions are `Effect` values appended to the trace: command resolution,
`saveFile`, `removeFile`, `pkill`, info and error log lines, `run()`, signal
dispatch, sleep and exit. Command resolution (`CommandFabric::getCommand`) is
a `Resolver` parameter. It takes the command name and `array_values($args)`,
with a null `$args` passed through as null, and either resolves or fails with
a reason.

The endless `while (true)` loop of `start` is driven by a finite script of
`Tick`s. Each tick either returns from `run()`, which also says whether a stop
signal is pending at the dispatch point, or throws with a message. The loop
ends in one of two ways:

- At the first successful tick that has a signal pending. Here the stop
  handler logs and calls `exit(0)`.
- When the script runs out. The call then returns to its caller. In the
  source, `start` never returns normally, so this is the model's stand-in for
  "the loop is still running". It is the only way the `stop(); start();`
  after the first `start` in `restart` can be reached.

Points where the code, not a plain reading of intent, decides the model:

- PHP's `?:` treats both `""` and `"0"` as false. So `new DaemonException("0")`
  carries `'Daemon error.'`, like an empty message does (`Exceptions.New`).
- If an inner `start` of `restart` throws (resolution fails), the exception
  skips `$this->withMonit = $oldWithMonit`. `withMonit` then stays off after
  the failed restart (`Lifecycle.RestartStep`). The same holds when an inner
  `start` exits.
- `restart` calls `start()` with no arguments. So resolution is given null,
  not the saved `startArgs`, and `startArgs` is left unchanged.
- `exec` compares with PHP `switch`, and its three cases are non-numeric
  strings. So the comparison is exact string equality.
- The subclasses' `CODE` constants (406, 500) are never used by the
  constructor. The code is the argument, 0 by default.
- The daemon has no failure classification, no lifetime-based restart and no
  restart by spawning a new process. `CriticalException` and `ErrorException`
  are never caught or inspected. Every `Throwable` from a tick is logged, and
  the loop goes on. The model follows the code, not a design that
  distinguishes critical, recoverable and transient failures.

## Model

| member | source | states |
|---|---|---|
| `Exceptions.New` | src/Exceptions/DaemonException.php:21-24 | a falsy message ("" or "0") becomes the MESSAGE of the class being constructed, any other message is kept verbatim; the code is the argument; the stored message is always truthy |
| `Exceptions.Truthy` | src/Exceptions/DaemonException.php:23 | defines which string messages PHP's `?:` keeps: every string except "" and "0"; its use is stated by `Exceptions.New` |
| `Exceptions.NewDefault` | src/Exceptions/DaemonException.php:21 | with the default arguments the message is the class's MESSAGE and the code is 0 |
| `Exceptions.ClassMessage` | src/Exceptions/DaemonException.php:12 | every class's MESSAGE constant is a truthy string |
| `Exceptions.DeclaredCode` | src/Exceptions/DaemonOperationNotSupportedException.php:13 | every subclass declares a CODE constant, and the base class declares none |
| `Exceptions.DaemonExceptionDefault` | src/Exceptions/DaemonException.php:12 | `new DaemonException()` carries 'Daemon error.' |
| `Exceptions.OperationNotSupportedDefault` | src/Exceptions/DaemonOperationNotSupportedException.php:12-13 | `new DaemonOperationNotSupportedException()` carries 'Daemon operation not supported.' and code 0, although its CODE is 406 |
| `Exceptions.CriticalDefault` | src/Exceptions/CriticalException.php:12-13 | `new CriticalException()` carries 'Daemon critical error.' and code 0, although its CODE is 500 |
| `Exceptions.ErrorDefault` | src/Exceptions/ErrorException.php:12-13 | `new ErrorException()` carries 'Daemon error. Restart.' and code 0, although its CODE is 500 |
| `Exceptions.ClassMessageInjective` | src/Exceptions/DaemonException.php:23 | the default messages of different classes differ, so a default message identifies the class that was constructed |
| `Exceptions.NewIdempotent` | src/Exceptions/DaemonException.php:23 | constructing again with an exception's own message and code gives the same exception: the default rule never changes a stored message |
| `Exceptions.DefaultMessageExactly` | src/Exceptions/DaemonException.php:23 | the message equals the class default exactly when the given message was falsy or was that default text |
| `Lifecycle.ArrayValues` | src/Daemon.php:129 | `array_values` keeps the values in order, one per entry, and drops the keys |
| `Lifecycle.ResolverArgs` | src/Daemon.php:129 | resolution is given null exactly when `$args` is null, and otherwise the values of `$args` |
| `Lifecycle.Constructed` | src/Daemon.php:83-94 | after construction, `withMonit` is on exactly when a monit was supplied, so the invariant holds; `startArgs` is empty |
| `Lifecycle.SetWithMonitStep` | src/Daemon.php:109-116 | without a monit, returns false and changes nothing; with a monit, sets `withMonit` to the argument and returns it; keeps the invariant |
| `Lifecycle.InfoText` | src/Daemon.php:62 | defines the three info texts the daemon logs (lines 62, 135 and 161), each naming the command |
| `Lifecycle.InfoTextMarks` | src/Daemon.php:135 | the stop-signal text starts with 'S' and the other two with 'D'; the "was stopped." text has 'd' as its next-to-last letter and the other two have '.' |
| `Lifecycle.InfoTextInjective` | src/Daemon.php:161 | different info lines, of different kinds or for different command names, have different texts, so the trace's info lines determine the log text and back |
| `Lifecycle.TickEffects` | src/Daemon.php:137-146 | defines one pass of the loop body: a throw gives a run and the logged message; a success gives a run and a dispatch, then the stop line and `exit(0)` when a stop signal is pending, else a sleep for the timeout; its properties are stated by the loop lemmas below |
| `Lifecycle.TickLoop` | src/Daemon.php:136-147 | defines the loop over a finite script: the passes' effects in order, up to and including the first pass whose dispatch runs the stop handler; its properties are stated by `TickLoopExit`, `TickLoopEffects`, `LoopOrdering` and the lemmas below |
| `Lifecycle.TickLoopExit` | src/Daemon.php:136-147 | the loop exits exactly when some successful tick has a stop signal pending; `exit(0)` occurs exactly then, and the last four effects are the run, the dispatch, the stop log line and `exit(0)` |
| `Lifecycle.TickLoopEffects` | src/Daemon.php:136-147 | every effect of the loop is a run, a dispatch, a sleep for exactly the configured timeout, a logged failure, the stop line for this command or `exit(0)`, and the first effect is a run; so the loop never touches the marker file, never kills and never resolves |
| `Lifecycle.TickLoopUnfold` | src/Daemon.php:136-147 | one pass from position i: a stopping tick ends the loop with that pass's effects; any other tick's effects are followed by the loop over the rest of the script |
| `Lifecycle.TickLoopAppend` | src/Daemon.php:136-147 | after ticks with no stop signal, the loop carries on into the rest of the script: effects concatenate, and the exit depends only on the rest |
| `Lifecycle.SignalExitsAtDispatch` | src/Daemon.php:60-64 | a pending stop signal takes effect at the dispatch after the first successful tick: the stop line is logged, the process exits with 0, and nothing later in the script runs |
| `Lifecycle.Throws` | src/Daemon.php:144-146 | a script of throwing ticks, one per message, in order |
| `Lifecycle.ThrowsContinue` | src/Daemon.php:136-146 | throwing ticks only run the command and log the failure, one run per tick, so there is no dispatch, no sleep of any length and no exit: the loop carries on past every exception |
| `Lifecycle.ThrowsAreLogged` | src/Daemon.php:144-146 | the message of every throwing tick appears in the log as an error line |
| `Lifecycle.QuietTick` | src/Daemon.php:137-143 | a successful tick with no stop signal pending has exactly the effects run, dispatch, sleep for the timeout, and the loop does not exit |
| `Lifecycle.TransientThenSuccess` | src/Daemon.php:136-147 | N throwing ticks followed by a successful one make N + 1 runs, exactly one dispatch and exactly one sleep, every sleep being for the configured timeout, and no exit |
| `Lifecycle.LoopOrdering` | src/Daemon.php:137-146 | a dispatch and a logged failure each come directly after a run, and after a logged failure the next effect is the next run: dispatch and sleep are skipped in an iteration that threw |
| `Lifecycle.StartStep` | src/Daemon.php:127-148 | defines `start` on the fields: resolution, then on success `$args ?? startArgs`, the optional save, the running line and the loop, ending in `exit(0)` or a return; its properties are stated by `StartStepFacts`, `StartExitsOnSignal` and the `Start...` lemmas below |
| `Lifecycle.StartEffects` | src/Daemon.php:129-135 | defines the effect order of a resolved `start`: the resolution, the save only if `withMonit`, the running line, then the loop's effects; stated by `StartResolvesFirst`, `StartSavesIffWithMonit` and `StartSavesBeforeRunning` |
| `Lifecycle.StartStepFacts` | src/Daemon.php:127-148 | if resolution fails, the fields are unchanged, the only effect is the resolution attempt, and the resolver's exception propagates; otherwise `startArgs` becomes `$args` if it is non-null and is kept if it is null, and the call either returns or exits with 0; the command name, the monit and `withMonit` are kept, and so is the invariant |
| `Lifecycle.StartExitsOnSignal` | src/Daemon.php:136-147 | a `start` whose command resolves ends in `exit(0)` exactly when some successful tick of the loop sees a pending stop signal |
| `Lifecycle.StartResolvesFirst` | src/Daemon.php:129 | `start`'s first effect is the resolution of the command name with `array_values($args)`; no later effect resolves anything, so it is the only resolution |
| `Lifecycle.StartSavesIffWithMonit` | src/Daemon.php:131-133 | `start` saves the marker file exactly once if `withMonit` is on and the command resolves, and never otherwise |
| `Lifecycle.StartSavesBeforeRunning` | src/Daemon.php:129-138 | when `start` saves the marker file, the save comes directly after resolution and before the command first runs |
| `Lifecycle.StartNeitherRemovesNorKills` | src/Daemon.php:127-148 | `start` never removes the marker file and never kills any process |
| `Lifecycle.MarkerFileNeedsMonit` | src/Daemon.php:131-133 | under the invariant, `start` saves and `stop` removes the marker file only when a monit is present, so `$this->monit` is never null where it is called |
| `Lifecycle.StopStep` | src/Daemon.php:153-162 | `stop` changes no field; its effects are `removeFile` first and only if `withMonit` is on, then exactly one `pkill` on the command name, then the stop log line |
| `Lifecycle.RestartStep` | src/Daemon.php:171-179 | a completed restart leaves every field as it found it, so `withMonit` is restored; a restart cut short by an exception or an exit leaves `withMonit` off; the invariant is kept |
| `Lifecycle.RestartKeepsMarkerFile` | src/Daemon.php:173-178 | `withMonit` is off during restart, so the marker file is never saved or removed |
| `Lifecycle.RestartKillsOnce` | src/Daemon.php:175-176 | every kill restart makes is of the command name, and there is one if the first `start` came back and none otherwise |
| `Lifecycle.RestartResolvesTwice` | src/Daemon.php:175-177 | every resolution restart makes is of the command name with null arguments, and a completed restart makes exactly two |
| `Lifecycle.Unsupported` | src/Daemon.php:222-223 | the exception for an unknown operation is a DaemonOperationNotSupportedException with message 'Daemon operation not supported.' and code 0 |
| `Lifecycle.ExecStep` | src/Daemon.php:207-225 | `exec("start")`, `exec("stop")` and `exec("restart")` are exactly `start()`, `stop()` and `restart()`; any other string raises DaemonOperationNotSupportedException, with no effect and no field change; the invariant is kept |
| `Lifecycle.ExecUnsupportedIsInert` | src/Daemon.php:222-223 | an operation outside the three leaves the state unchanged, produces no effects, and raises a daemon exception |
| `Lifecycle.Daemon.constructor` | src/Daemon.php:83-94 | the new object's fields are those of `Constructed`, and its trace is empty |
| `Lifecycle.Daemon.IsWithMonit` | src/Daemon.php:99-102 | returns `withMonit` |
| `Lifecycle.Daemon.SetWithMonit` | src/Daemon.php:109-116 | new fields and result are those of `SetWithMonitStep`; keeps the invariant |
| `Lifecycle.Daemon.GetStartArgs` | src/Daemon.php:184-187 | returns `startArgs` |
| `Lifecycle.Daemon.SetStartArgs` | src/Daemon.php:192-195 | `startArgs` becomes the argument, and nothing else changes |
| `Lifecycle.Daemon.StopSignalHandler` | src/Daemon.php:60-64 | appends the stop log line and `exit(0)` to the trace |
| `Lifecycle.Daemon.TickOnce` | src/Daemon.php:137-146 | one pass of the try/catch body appends that tick's effects and reports whether the stop handler ran |
| `Lifecycle.Daemon.RunTicks` | src/Daemon.php:136-147 | the imperative loop appends exactly the effects of `TickLoop` on the script and reports its exit |
| `Lifecycle.Daemon.Announce` | src/Daemon.php:130-135 | `startArgs` becomes `$args` if it is non-null; the marker file is saved only if `withMonit` is on, and then the running line is logged; nothing else changes |
| `Lifecycle.Daemon.Start` | src/Daemon.php:127-148 | new fields, appended effects and outcome are those of `StartStep`; keeps the invariant |
| `Lifecycle.Daemon.Stop` | src/Daemon.php:153-162 | fields unchanged, and the appended effects are those of `StopStep` |
| `Lifecycle.Daemon.Restart` | src/Daemon.php:171-179 | new fields, appended effects and outcome are those of `RestartStep`; keeps the invariant |
| `Lifecycle.Daemon.Exec` | src/Daemon.php:207-225 | new fields, appended effects and outcome are those of `ExecStep`; keeps the invariant |

## Left out

- Signal registration is not modelled: `STOP_SIGNALS`, `pcntl_signal`, `pcntl_async_signals(false)` (src/Daemon.php:23-30, 69-74, 92). This is process-level OS machinery. Only its effect is kept: a pending stop signal is acted on at the dispatch point.
- The logger object (PSR `LoggerInterface`) is not modelled. Log calls appear as info and error lines in the trace, with the texts the source writes.
- `escapeshellarg` and `shell_exec` are not modelled. A foreign process call becomes a `Pkill` effect carrying the raw command name. In the source, the escaped name is put inside double quotes. So the pattern that reaches `pkill` keeps the literal single quotes of `escapeshellarg`. The model does not capture this.
- The sleep timeout lookup is not modelled: `constant(...)`, `get_env('DAEMON_TIMEOUT')`, the `AbstractCommand::DAEMON_TIMEOUT` fallback, and `usleep` itself. The timeout is a natural-number parameter. A lookup that throws is inside the `try`, so it is covered by a `Threw` tick.
- `CommandFabric` and `AbstractCommand` are a library that is not part of this model. Resolution is the `Resolver` parameter, and all of its exception types are merged into one `CommandFailure(reason)`. The model passes a null `$args` to the resolver as null. What `array_values(null)` itself does depends on the PHP version: a warning and null, or a `TypeError`. The model does not capture that.
- The endless loop is not modelled as endless: a finite script stands in for it. When the script runs out, the call returns, which the source never does.
- Exit is not modelled as ending the process. After an `Exited` outcome, the model does not stop later calls on the same object.
- Failures of collaborators other than resolution and `$command->run()` are not modelled: `saveFile`, `removeFile`, logging, `shell_exec`, `pcntl_signal_dispatch` and `usleep` are assumed not to throw. A throw from `pcntl_signal_dispatch` or `usleep` would be caught after the dispatch, giving a run, a dispatch and a logged failure in one pass, which no tick of the model produces.
- A negative timeout is not modelled: the timeout is a `nat`. PHP 8's `usleep` raises a `ValueError` for a negative count, inside the `try`, after the dispatch.
- The `$previous` argument of the exception constructor is not modelled. It is passed to `\Exception` unchanged, and no daemon code reads it.
- src/DaemonInterface.php is not modelled. It declares timeout and restart-after accessors that `Daemon` neither implements nor claims to implement.
- src/MonitInterface.php is not modelled as a type. Its two operations are the `SaveFile` and `RemoveFile` effects.
- Critical, recoverable and transient failure classification, lifetime-based restart, and restart by starting a new process are not modelled. The source does none of them.
