/** The module-level state of app.js and the code that changes it: the
    environment overrides (lines 40-49), end() (lines 53-59), start()
    (lines 61-73) and the top-level timebox check (lines 76-88), together
    with the event loop that runs the pending setTimeout callbacks.

    The bot is opaque: creating, starting and stopping it are recorded as
    flags. The clock is an explicit parameter; process.exit() sets `exited`,
    after which no callback runs. */
module Scheduler {
  import opened Wrappers
  import opened EnvConfig
  import opened Timebox

  class App {
    var config: Config
    var botCreated: bool   // `bot = new Bot(config)` has run
    var botStarted: bool   // `bot.start()` has run
    var stopped: bool      // `bot.stop()` has run
    var exited: bool       // `process.exit()` has run
    var refused: bool      // the historical end time error was logged
    var ran: bool          // the top-level timebox check has run
    var clock: nat         // the latest time the program has read
    var timers: seq<Timer> // pending setTimeout callbacks, in registration order
    ghost var startCalls: nat  // how many times start() has run

    /** Everything the program keeps true between callbacks: start() runs at
        most once, bot.start() and bot.stop() only once the bot exists, the
        process exits right after stopping, and the pending timers are those
        `Pending` allows. */
    ghost predicate Valid()
      reads this
    {
      startCalls <= 1 &&
      (botCreated <==> startCalls == 1) &&
      (botStarted ==> botCreated) &&
      (stopped ==> botCreated && exited) &&
      Pending(timers, botCreated, botStarted, config.app.timebox.start, config.app.timebox.end) &&
      (!ran ==> timers == [] && !botCreated && !exited && !refused) &&
      (refused ==> timers == [] && !botCreated && !exited)
    }

    /** The configuration file has been loaded; nothing else has happened. */
    constructor (cfg: Config)
      ensures Valid() && config == cfg && !ran && clock == 0
      ensures !botCreated && !botStarted && !stopped && !exited && !refused && timers == []
    {
      config := cfg;
      botCreated, botStarted, stopped, exited, refused, ran := false, false, false, false, false, false;
      clock := 0;
      timers := [];
      startCalls := 0;
    }

    /** Lines 40-49: overwrite the configuration from the environment. */
    method ApplyEnvOverrides(env: Env)
      requires Valid() && !ran
      modifies this`config
      ensures Valid()
      ensures config == Merged(old(config), env)
    {
      var c := config;
      c := c.(app := c.app.(message := OverrideString(Lookup(env, "APP_MESSAGE"), c.app.message)));
      c := c.(app := c.app.(reminder := OverrideInt(Lookup(env, "APP_REMINDER"), c.app.reminder)));
      c := c.(app := c.app.(respond := c.app.respond.(dm := OverrideBool(Lookup(env, "APP_RESPOND_DM"), c.app.respond.dm))));
      c := c.(app := c.app.(respond := c.app.respond.(channel :=
        OverrideBool(Lookup(env, "APP_RESPOND_CHANNEL"), c.app.respond.channel))));
      c := c.(app := c.app.(timebox := c.app.timebox.(start := OverrideInt(Lookup(env, "APP_TIMEBOX_START"), c.app.timebox.start))));
      c := c.(app := c.app.(timebox := c.app.timebox.(end := OverrideInt(Lookup(env, "APP_TIMEBOX_END"), c.app.timebox.end))));
      c := c.(slack := c.slack.(token := OverrideString(Lookup(env, "SLACK_TOKEN"), c.slack.token)));
      c := c.(slack := c.slack.(autoReconnect := OverrideBool(Lookup(env, "SLACK_AUTO_RECONNECT"), c.slack.autoReconnect)));
      c := c.(slack := c.slack.(autoMark := OverrideBool(Lookup(env, "SLACK_AUTO_MARK"), c.slack.autoMark)));
      config := c;
    }

    /** start(), run at time `rightnow`: create the bot, start it 1000 ms
        later, and register end() at the end time if that is still ahead.
        Nothing is pending when it runs. */
    method Start(rightnow: nat)
      requires Valid() && ran && !exited && !refused
      requires startCalls == 0 && timers == []
      modifies this
      ensures Valid()
      ensures botCreated && startCalls == 1
      ensures timers == StartTimers(rightnow, config.app.timebox.end)
      ensures config == old(config) && botStarted == old(botStarted) && stopped == old(stopped)
      ensures exited == old(exited) && refused == old(refused) && ran == old(ran) && clock == old(clock)
    {
      botCreated := true;
      startCalls := startCalls + 1;
      timers := timers + [Timer(rightnow + BotStartDelay, BotStart)];
      if config.app.timebox.end > rightnow {
        timers := timers + [Timer(rightnow + (config.app.timebox.end - rightnow), CallEnd)];
      }
      PendingAfterStart(rightnow, config.app.timebox.start, config.app.timebox.end);
    }

    /** end(): stop the bot if there is one, then exit the process. */
    method End()
      requires Valid() && ran && !exited && !refused
      modifies this
      ensures Valid()
      ensures exited && stopped == old(botCreated)
      ensures config == old(config) && timers == old(timers) && botCreated == old(botCreated)
      ensures botStarted == old(botStarted) && refused == old(refused) && ran == old(ran)
      ensures clock == old(clock) && startCalls == old(startCalls)
    {
      if botCreated {
        stopped := true;
      }
      exited := true;
    }

    /** Lines 76-88: read the clock (`now`) and refuse, start at once, or
        defer start() to the start time. A synchronous start() reads the clock
        again (`rightnow`, line 67), which may have moved on since `now`. */
    method Run(now: nat, rightnow: nat)
      requires Valid() && !ran && now <= rightnow
      modifies this
      ensures Valid() && ran && config == old(config)
      ensures !botStarted && !stopped && !exited
      ensures refused <==> Decide(config.app.timebox.start, config.app.timebox.end, now) == Refuse
      ensures match Decide(config.app.timebox.start, config.app.timebox.end, now)
        case Refuse => timers == [] && !botCreated && clock == now
        case StartNow => botCreated && timers == StartTimers(rightnow, config.app.timebox.end) && clock == rightnow
        case DeferStart(delay) => !botCreated && timers == [Timer(now + delay, CallStart)] && clock == now
    {
      ran := true;
      clock := now;
      var start, end := config.app.timebox.start, config.app.timebox.end;
      if end > now || end == 0 {
        if start < now {
          clock := rightnow;
          Start(rightnow);
        } else {
          timers := timers + [Timer(now + (start - now), CallStart)];
        }
      } else {
        refused := true;
      }
    }

    /** The event loop at time `t`: once the process has exited nothing runs;
        otherwise, if the earliest pending timer is due, it is removed and
        its callback runs with `t` as the current time. */
    method Fire(t: nat) returns (fired: Option<Callback>)
      requires Valid() && clock <= t
      modifies this
      ensures Valid() && config == old(config) && ran == old(ran) && refused == old(refused)
      ensures fired.None? <==> old(exited) || !HasDue(old(timers), t)
      ensures fired.None? ==> unchanged(this)
      ensures fired.Some? ==>
        var i := Earliest(old(timers));
        fired.value == old(timers)[i].action && old(timers)[i].fireTime <= t && clock == t
      ensures fired == Some(CallStart) ==>
        botCreated && !old(botCreated) &&
        timers == Without(old(timers), Earliest(old(timers))) + StartTimers(t, config.app.timebox.end) &&
        botStarted == old(botStarted) && stopped == old(stopped) && exited == old(exited)
      ensures fired == Some(BotStart) ==>
        botStarted && !old(botStarted) && botCreated && old(botCreated) &&
        timers == Without(old(timers), Earliest(old(timers))) &&
        stopped == old(stopped) && exited == old(exited)
      ensures fired == Some(CallEnd) ==>
        old(botCreated) && stopped && exited &&
        timers == Without(old(timers), Earliest(old(timers))) &&
        botCreated == old(botCreated) && botStarted == old(botStarted)
      // start() never runs before the start time, end() never before the end time
      ensures fired == Some(CallStart) ==> t >= config.app.timebox.start
      ensures fired == Some(CallEnd) ==> t >= config.app.timebox.end
    {
      if exited || timers == [] {
        return None;
      }
      var i := Earliest(timers);
      if timers[i].fireTime > t {
        return None;
      }
      fired := Some(timers[i].action);
      match timers[i].action
      case CallStart =>
        RunStartTimer(i, t);
      case BotStart =>
        RunBotStartTimer(i, t);
      case CallEnd =>
        RunEndTimer(i, t);
    }

    /** The deferred start() of line 84 comes due: it is removed and run. */
    method RunStartTimer(i: nat, t: nat)
      requires Valid() && !exited && clock <= t
      requires i < |timers| && timers[i].action == CallStart && timers[i].fireTime <= t
      modifies this
      ensures Valid() && config == old(config) && ran == old(ran) && refused == old(refused) && clock == t
      ensures botCreated && !old(botCreated)
      ensures timers == Without(old(timers), i) + StartTimers(t, config.app.timebox.end)
      ensures botStarted == old(botStarted) && stopped == old(stopped) && exited == old(exited)
      ensures t >= config.app.timebox.start
    {
      assert !botCreated && timers == [Timer(config.app.timebox.start, CallStart)];
      timers := Without(timers, i);
      clock := t;
      Start(t);
    }

    /** The `bot.start()` callback of line 64 comes due: it is removed and run. */
    method RunBotStartTimer(i: nat, t: nat)
      requires Valid() && !exited && clock <= t
      requires i < |timers| && timers[i].action == BotStart && timers[i].fireTime <= t
      modifies this
      ensures Valid() && config == old(config) && ran == old(ran) && refused == old(refused) && clock == t
      ensures botStarted && !old(botStarted) && botCreated && old(botCreated)
      ensures timers == Without(old(timers), i)
      ensures stopped == old(stopped) && exited == old(exited)
    {
      PendingWithout(timers, i, botStarted, config.app.timebox.start, config.app.timebox.end);
      timers := Without(timers, i);
      clock := t;
      botStarted := true;
    }

    /** The end() callback of line 71 comes due: it is removed and run. */
    method RunEndTimer(i: nat, t: nat)
      requires Valid() && !exited && clock <= t
      requires i < |timers| && timers[i].action == CallEnd && timers[i].fireTime <= t
      modifies this
      ensures Valid() && config == old(config) && ran == old(ran) && refused == old(refused) && clock == t
      ensures old(botCreated) && stopped && exited
      ensures timers == Without(old(timers), i)
      ensures botCreated == old(botCreated) && botStarted == old(botStarted)
      ensures t >= config.app.timebox.end
    {
      PendingWithout(timers, i, botStarted, config.app.timebox.start, config.app.timebox.end);
      timers := Without(timers, i);
      clock := t;
      End();
    }
  }

  /** A configuration whose only interesting part is the timebox. */
  function TimeboxOnly(start: int, end: int): (cfg: Config)
    ensures cfg.app.timebox == TimeboxConfig(start, end)
  {
    Config(AppSection("Out of office", 0, Respond(true, false), TimeboxConfig(start, end)),
           SlackSection("", true, true))
  }

  /** No start and no end: the bot is created at once, started a second later
      and no stop is ever scheduled. */
  method NoTimebox(now: nat) returns (created: bool, started: bool, stopPending: bool)
    requires now > 0
    ensures created && started && !stopPending
  {
    var app := new App(TimeboxOnly(0, 0));
    app.Run(now, now);
    created := app.botCreated;
    var f := app.Fire(now + BotStartDelay);
    started := app.botStarted;
    stopPending := Count(app.timers, CallEnd) > 0;
    StartTimersShape(now, 0);
  }

  /** Start 10 s ahead, no end: nothing happens before the start time, then
      start() runs exactly once and no stop is scheduled. */
  method DeferredStart(now: nat) returns (earlyFire: Option<Callback>, createdEarly: bool,
                                          onTime: Option<Callback>, created: bool, stopPending: bool)
    ensures earlyFire.None? && !createdEarly
    ensures onTime == Some(CallStart) && created && !stopPending
  {
    var app := new App(TimeboxOnly(now + 10000, 0));
    app.Run(now, now);
    earlyFire := app.Fire(now + 9999);
    createdEarly := app.botCreated;
    onTime := app.Fire(now + 10000);
    created := app.botCreated;
    stopPending := Count(app.timers, CallEnd) > 0;
    StartTimersShape(now + 10000, 0);
  }

  /** An end 5 s in the past: the run is refused and nothing is scheduled. */
  method HistoricalEnd(now: nat) returns (refused: bool, created: bool, pending: nat)
    requires now > 5000
    ensures refused && !created && pending == 0
  {
    var app := new App(TimeboxOnly(0, now - 5000));
    app.Run(now, now);
    refused, created, pending := app.refused, app.botCreated, |app.timers|;
  }

  /** Start 5 s ago and end 5 s ahead: the bot starts at once, is started a
      second later and is stopped, with the process exiting, at the end. */
  method OpenWindow(now: nat) returns (created: bool, first: Option<Callback>,
                                       second: Option<Callback>, stopped: bool, exited: bool)
    requires now >= 5000
    ensures created && first == Some(BotStart) && second == Some(CallEnd) && stopped && exited
  {
    var app := new App(TimeboxOnly(now - 5000, now + 5000));
    app.Run(now, now);
    created := app.botCreated;
    first := app.Fire(now + 5000);
    second := app.Fire(now + 5000);
    stopped, exited := app.stopped, app.exited;
  }

  /** A start after the end: the end is still ahead when the run is checked,
      so start() is deferred, but when it runs the end has passed, so no stop
      is registered and the bot keeps running. */
  method StartAfterEnd(now: nat) returns (refused: bool, created: bool, stopPending: bool)
    ensures !refused && created && !stopPending
  {
    var app := new App(TimeboxOnly(now + 10000, now + 5000));
    app.Run(now, now);
    refused := app.refused;
    var f := app.Fire(now + 10000);
    created := app.botCreated;
    stopPending := Count(app.timers, CallEnd) > 0;
    StartTimersShape(now + 10000, now + 5000);
  }

  /** An end 1 ms ahead when the run is checked, but already reached when
      start() reads the clock again: the bot is started synchronously and no
      stop is registered, so it keeps running. */
  method EndPassesDuringStart(now: nat) returns (refused: bool, created: bool, stopPending: bool)
    requires now > 0
    ensures !refused && created && !stopPending
  {
    var app := new App(TimeboxOnly(0, now + 1));
    app.Run(now, now + 1);
    refused, created := app.refused, app.botCreated;
    stopPending := Count(app.timers, CallEnd) > 0;
    StartTimersShape(now + 1, now + 1);
  }
}
