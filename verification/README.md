# Out-of-office Slack bot: timebox scheduler and environment overrides

A Dafny model of `app.js`, the whole program of a personal out-of-office bot
for Slack. The program loads a configuration, lets environment variables
override its fields, and then runs the bot inside a time window (the
"timebox"). It refuses to run when the window's end is already past. It starts
the bot at once or waits for the window's start. It stops the bot and exits
the process at the window's end.

- `wrappers.dfy` — `Option`, which stands for `undefined` and for `NaN`.
- `env_config.dfy` (module `EnvConfig`) — the configuration record and
  `parseBool`. It also holds `parseInt(s, 10)`, reduced to reading a prefix of
  decimal digits, and the nine `parse(env) || current` overrides of lines
  40-49, with what JavaScript truthiness lets them do.
- `timebox.dfy` (module `Timebox`) — the decisions as pure functions.
  `Decide` is the top-level check and `StopDelay` is the stop guard inside
  `start()`. Pending `setTimeout` callbacks are `Timer`s. `Earliest` gives the
  order in which the event loop runs them.
- `scheduler.dfy` (module `Scheduler`) — class `App` holds the module-level
  state: `config`, whether the bot was created, started and stopped, whether
  the process exited, and the pending timers. Its methods are
  `ApplyEnvOverrides`, `Run(now)` (the top-level check), `Start` (`start()`),
  `End` (`end()`) and `Fire(t)`, which is the event loop running the next due
  callback at time `t`. `Valid()` is the invariant the program keeps:
  - `start()` runs at most once;
  - `bot.start()` and `bot.stop()` run only after the bot is created;
  - the process exits right after the stop;
  - the pending timers are those `Timebox.Pending` allows. Before `start()`
    that is at most the deferred `start()`. Afterwards it is only what
    `start()` registered and has not fired, with each callback at most once
    and `end()` due at the configured end time;
  - a refused run has nothing pending.

  The six client methods at the end replay concrete windows.

At three boundaries the code does something easy to misread; the model follows the code:

- A start time equal to `now` is not "before now" (`start < now`, line 79).
  It takes the deferred branch with a delay of 0 ms. It does not start
  synchronously.
- The stop timer is guarded by `end > rightnow` (line 68). `rightnow` is the
  time at which `start()` runs, not the time of the first check. So a deferred
  start at or after the end registers no stop, and the bot then runs on with
  nothing to stop it (`Scheduler.StartAfterEnd`). The same happens on the
  synchronous path when the end is reached between the two clock readings
  (`Scheduler.EndPassesDuringStart`).
- An environment override of `false` or `0` is indistinguishable from an
  unset variable. Flags can be switched on but not off, and numbers cannot be
  set to 0.

## Model

| member | source | states |
|---|---|---|
| `EnvConfig.ParseBool` | app.js:29-35 | an unset variable (not a string) is handed back unchanged; a string gives true exactly when it is one of the seventeen spellings of "1"/"true" in any letter case |
| `EnvConfig.MatchesTrueIffSpelling` | app.js:31 | the anchored case-insensitive regex of line 31 accepts exactly the set `{"1"}` plus the 16 case variants of "true", and nothing else |
| `EnvConfig.DigitPrefix` | app.js:41 | the digits `parseInt` reads: a prefix of the input, all digits, followed by a non-digit or the end of the input |
| `EnvConfig.ParseIntText` | app.js:41 | `parseInt(s, 10)` is NaN exactly when `s` is empty or does not start with a digit; otherwise it is a non-negative number |
| `EnvConfig.ParseInt` | app.js:44-45 | `parseInt(process.env.X, 10)` is NaN for an unset variable, and for a set one exactly when its text does not start with a digit |
| `EnvConfig.ParseIntDecimal` | app.js:41 | round trip: parsing the decimal rendering of `n` followed by a non-digit suffix yields `n` |
| `EnvConfig.OverrideString` | app.js:40 | `env || current`: the value changes only to a non-empty environment string, and always does when there is one |
| `EnvConfig.OverrideInt` | app.js:41 | `parseInt(env) || current`: the value changes only to a non-zero parsed number, and always does when there is one |
| `EnvConfig.OverrideBool` | app.js:42 | `parseBool(env) || current` is true exactly when the configured flag is on or the variable is a spelling of true |
| `EnvConfig.NumberOverrides` | app.js:44-45 | any non-zero decimal number in a variable replaces the configured number |
| `EnvConfig.FalsyNumbersKeep` | app.js:41 | an unset variable, "", a run of zeros, or text not starting with a digit keeps the configured number |
| `EnvConfig.FlagsOnlySwitchOn` | app.js:42-43 | a flag override can switch a flag on but never off; "false", "0" and an unset variable keep the configured flag |
| `EnvConfig.Merged` | app.js:40-49 | message and token change only to a non-empty variable value, the reminder only to a non-zero parsed number, and the direct-message flag is on exactly when configured on or its variable spells true |
| `EnvConfig.EmptyEnvKeepsConfig` | app.js:40-49 | with no variables set the merged configuration equals the loaded one |
| `EnvConfig.MergedFields` | app.js:40-49 | each merged timebox bound is the configured one or a non-zero number parsed from its own variable; configured flags stay on |
| `Timebox.Decide` | app.js:76-88 | a synchronous start happens only when the start is before `now`; a deferred start waits `start - now >= 0` ms and so fires at the start time |
| `Timebox.StopDelay` | app.js:67-71 | a stop delay, when there is one, is strictly positive and lands on the end time; an unset end (0) never yields one |
| `Timebox.RefuseIffHistoricalEnd` | app.js:77 | the run is refused exactly when an end is set and is not after `now` |
| `Timebox.UnsetEndNeverRefuses` | app.js:77 | an end of 0 means "no end" and never refuses, whatever `now` is |
| `Timebox.Boundaries` | app.js:77-84 | a start equal to `now` is deferred by 0 ms; a set end equal to `now` is refused |
| `Timebox.UnsetStartRunsNow` | app.js:79-80 | an unset start (0) starts synchronously whenever `now > 0` and the end allows running |
| `Timebox.StartTimersShape` | app.js:61-73 | one `start()` registers exactly one `bot.start()` 1000 ms later, no `start()`, and one `end()` due at the end time exactly when the end is after `rightnow` |
| `Timebox.PendingAfterStart` | app.js:61-73 | what one `start()` registers satisfies the pending-timer invariant of a freshly created bot: no `start()`, one of each callback, `end()` at the end time |
| `Timebox.PendingWithout` | app.js:64-71 | running one pending callback of a created bot keeps the invariant; after `bot.start()` runs none is left pending, so it never runs twice |
| `Timebox.LateStartSchedulesNoStop` | app.js:66-72 | a deferred start that runs at or after a start time not before the end registers no stop |
| `Scheduler.App.constructor` | app.js:10-21 | the program begins with the loaded configuration, no bot and nothing pending |
| `Scheduler.App.ApplyEnvOverrides` | app.js:40-49 | the nine in-place assignments leave exactly the merged configuration `Merged(old config, env)` |
| `Scheduler.App.Start` | app.js:61-73 | runs with nothing pending, creates the bot and leaves exactly `StartTimers(rightnow, end)` pending, keeping the invariant that `start()` runs at most once |
| `Scheduler.App.End` | app.js:53-59 | stops the bot exactly when one was created, then exits; nothing else changes |
| `Scheduler.App.Run` | app.js:75-88 | refuses (nothing pending, no bot), starts now (bot created, with the timers of a `start()` run at its own later clock reading `rightnow` pending) or registers one deferred `start()` at `now + delay`, exactly as `Decide` says |
| `Scheduler.App.Fire` | app.js:61-84 | after exit nothing runs; otherwise the earliest due timer runs. `start()` runs once, at or after the start time. `bot.start()` runs once, after the bot exists. `end()` runs at or after the end time, only once a bot exists, and stops it |
| `Scheduler.App.RunStartTimer` | app.js:84 | the deferred `start()` runs at or after the start time, only while no bot exists, and creates it |
| `Scheduler.App.RunBotStartTimer` | app.js:64 | `bot.start()` runs only once the bot exists and only once |
| `Scheduler.App.RunEndTimer` | app.js:71 | `end()` runs at or after the end time, always finds a bot, stops it and exits |
| `Scheduler.NoTimebox` | app.js:76-80 | no start and no end: the bot is created and started, and no stop is ever pending |
| `Scheduler.DeferredStart` | app.js:79-85 | a start 10 s ahead: nothing runs at 9 999 ms, `start()` runs at 10 000 ms, no stop is pending |
| `Scheduler.HistoricalEnd` | app.js:86-88 | an end 5 s in the past: refused, no bot, no timer |
| `Scheduler.OpenWindow` | app.js:53-80 | a window around `now`: immediate start, `bot.start()` then `end()` at the end time, bot stopped and process exited |
| `Scheduler.EndPassesDuringStart` | app.js:67-80 | an end 1 ms after `now`, reached when `start()` reads the clock: not refused, the bot starts at once, and no stop is ever registered |
| `Scheduler.StartAfterEnd` | app.js:66-84 | a start after the end: not refused, the bot is created later and no stop is ever registered |

## Left out

- Loading the configuration file with its fallback to the default file (lines 10-19) is module I/O. The loaded configuration is a constructor parameter.
- Logging and secret redaction (lines 3-4 and 51, the log messages and their `Date` formatting) are not modelled; the refusal is recorded as the `refused` flag.
- The bot (`./lib/bot`) is not part of this model. Creating, starting and stopping it are recorded as flags.
- `Date.now()`, `setTimeout` and `process.exit()` are replaced by explicit times, the pending-timer list and the `exited` flag. The clock is assumed not to go backwards (`Fire` requires `clock <= t`).
- `Scheduler.App.Fire`: Node.js runs a timer whose delay exceeds 2147483647 ms (about 24.8 days) after 1 ms instead. The model lets every timer fire at its requested time, so an end or start more than 24.8 days ahead behaves here as the code intends, not as Node.js runs it.
- `EnvConfig.ParseInt`: only a leading run of decimal digits is read; leading whitespace, a sign and the other corner cases of JavaScript's `parseInt` are not modelled. Negative numbers therefore cannot come from the environment.
- `EnvConfig.ParseBool`: the model only receives environment values, which are strings or `undefined`; other non-string arguments are not modelled.
- Configuration values are taken to have the types the code uses them at (a string message, numeric reminder and timebox, boolean flags). A configuration file holding other JavaScript values is not modelled.
