/** The timebox decisions of app.js as pure functions of the configured
    start and end (epoch milliseconds, 0 meaning unset) and the time at which
    each comparison is made, and the pending timers they register. */
module Timebox {
  import opened Wrappers

  /** What the top-level code does once it has read the clock. */
  datatype Decision = Refuse | StartNow | DeferStart(delay: nat)

  /** Lines 77-88: refuse when an end is set and not after `now`; otherwise
      call start() at once when the start lies before `now`, else defer it by
      `start - now`. */
  function Decide(start: int, end: int, now: nat): (d: Decision)
    ensures d.StartNow? ==> start < now
    ensures d.DeferStart? ==> now <= start && now + d.delay == start
  {
    if end > now || end == 0 then
      if start < now then StartNow else DeferStart(start - now)
    else
      Refuse
  }

  /** Lines 66-72: the delay of the stop timer registered by start() at
      `rightnow`, when there is one. */
  function StopDelay(end: int, rightnow: nat): (d: Option<nat>)
    ensures d.Some? ==> d.value > 0 && rightnow + d.value == end
    ensures end == 0 ==> d.None?
  {
    if end > rightnow then Some(end - rightnow) else None
  }

  /** The callbacks app.js hands to setTimeout. */
  datatype Callback =
    | CallStart   // start(), deferred until the start time (line 84)
    | BotStart    // () => { bot.start(); } (line 64)
    | CallEnd     // end(), at the end time (line 71)

  /** A pending setTimeout: the absolute time it is due and what it runs. */
  datatype Timer = Timer(fireTime: int, action: Callback)

  /** Milliseconds between creating the bot and starting it (line 64). */
  const BotStartDelay: nat := 1000

  /** The timers one call of start() at `rightnow` registers, in order. */
  function StartTimers(rightnow: nat, end: int): seq<Timer>
  {
    [Timer(rightnow + BotStartDelay, BotStart)] +
    match StopDelay(end, rightnow)
    case Some(d) => [Timer(rightnow + d, CallEnd)]
    case None => []
  }

  /** The timer the event loop runs next: the earliest due time, and among
      timers due at the same time the one registered first. */
  function Earliest(ts: seq<Timer>): (i: nat)
    requires ts != []
    ensures i < |ts|
    ensures forall k :: 0 <= k < |ts| ==> ts[i].fireTime <= ts[k].fireTime
    ensures forall k :: 0 <= k < i ==> ts[k].fireTime > ts[i].fireTime
  {
    if |ts| == 1 then 0
    else
      var j := Earliest(ts[..|ts| - 1]);
      if ts[|ts| - 1].fireTime < ts[j].fireTime then |ts| - 1 else j
  }

  /** Whether some timer is due at time `t`. */
  predicate HasDue(ts: seq<Timer>, t: int)
  {
    ts != [] && ts[Earliest(ts)].fireTime <= t
  }

  /** The timers left once the one at index `i` has run. */
  function Without(ts: seq<Timer>, i: nat): (r: seq<Timer>)
    requires i < |ts|
    ensures |r| == |ts| - 1
    ensures forall k :: 0 <= k < |r| ==> r[k] == (if k < i then ts[k] else ts[k + 1])
  {
    ts[..i] + ts[i + 1..]
  }

  /** How many pending timers run `a`. */
  function Count(ts: seq<Timer>, a: Callback): nat
  {
    if ts == [] then 0
    else Count(ts[..|ts| - 1], a) + (if ts[|ts| - 1].action == a then 1 else 0)
  }

  lemma {:induction false} CountAppend(ts: seq<Timer>, us: seq<Timer>, a: Callback)
    ensures Count(ts + us, a) == Count(ts, a) + Count(us, a)
  {
    if us != [] {
      assert (ts + us)[..|ts + us| - 1] == ts + us[..|us| - 1];
      CountAppend(ts, us[..|us| - 1], a);
    } else {
      assert ts + us == ts;
    }
  }

  /** The timers that can be pending, given whether start() has run
      (`created`) and whether bot.start() has run (`started`). Before start()
      at most the deferred start() is pending; afterwards only what start()
      registered and has not yet fired: no start(), each callback at most
      once, no bot.start() once the bot was started, and end() at the end. */
  predicate Pending(ts: seq<Timer>, created: bool, started: bool, start: int, end: int)
  {
    if !created then
      ts == [] || ts == [Timer(start, CallStart)]
    else
      (forall k :: 0 <= k < |ts| ==> ts[k].action != CallStart) &&
      (forall k :: 0 <= k < |ts| && ts[k].action == CallEnd ==> ts[k].fireTime == end) &&
      (forall j, k :: 0 <= j < k < |ts| ==> ts[j].action != ts[k].action) &&
      (started ==> forall k :: 0 <= k < |ts| ==> ts[k].action != BotStart)
  }

  /** What start() registers is a valid pending state for a fresh bot. */
  lemma PendingAfterStart(rightnow: nat, start: int, end: int)
    ensures Pending(StartTimers(rightnow, end), true, false, start, end)
  {
  }

  /** Running a pending timer of a created bot leaves a valid pending state;
      running bot.start() records that the bot was started. */
  lemma PendingWithout(ts: seq<Timer>, i: nat, started: bool, start: int, end: int)
    requires i < |ts| && Pending(ts, true, started, start, end)
    ensures Pending(Without(ts, i), true, started || ts[i].action == BotStart, start, end)
  {
  }

  // ---------------------------------------------------------------------
  // Properties of the decisions
  // ---------------------------------------------------------------------

  /** Refusal happens exactly when an end is set and is not after `now`. */
  lemma RefuseIffHistoricalEnd(start: int, end: int, now: nat)
    ensures Decide(start, end, now) == Refuse <==> (end != 0 && end <= now)
  {
  }

  /** An unset end never refuses, whatever the clock says. */
  lemma UnsetEndNeverRefuses(start: int, now: nat)
    ensures Decide(start, 0, now) != Refuse
  {
  }

  /** The boundaries: a start equal to `now` is deferred by 0 ms rather than
      run at once, and a set end equal to `now` is refused. */
  lemma Boundaries(start: int, end: int, now: nat)
    ensures start == now && (end == 0 || end > now) ==> Decide(start, end, now) == DeferStart(0)
    ensures end == now && end != 0 ==> Decide(start, end, now) == Refuse
  {
  }

  /** An unset start (0) runs at once whenever the clock is past the epoch. */
  lemma UnsetStartRunsNow(end: int, now: nat)
    requires now > 0 && (end == 0 || end > now)
    ensures Decide(0, end, now) == StartNow
  {
  }

  /** start() registers exactly one bot.start(), 1000 ms after it runs, and
      at most one end(), which is due at the configured end time. */
  lemma StartTimersShape(rightnow: nat, end: int)
    ensures Count(StartTimers(rightnow, end), BotStart) == 1
    ensures Count(StartTimers(rightnow, end), CallStart) == 0
    ensures Count(StartTimers(rightnow, end), CallEnd) == (if end > rightnow then 1 else 0)
    ensures forall k :: 0 <= k < |StartTimers(rightnow, end)| ==>
      var tm := StartTimers(rightnow, end)[k];
      (tm.action == BotStart ==> tm.fireTime == rightnow + BotStartDelay) &&
      (tm.action == CallEnd ==> tm.fireTime == end && end > rightnow)
  {
    var ts := StartTimers(rightnow, end);
    if end > rightnow {
      CountAppend([ts[0]], [ts[1]], BotStart);
      CountAppend([ts[0]], [ts[1]], CallStart);
      CountAppend([ts[0]], [ts[1]], CallEnd);
    }
  }

  /** A deferred start that is not before the end never schedules a stop:
      by the time start() runs, the end is no longer in the future. */
  lemma LateStartSchedulesNoStop(start: int, end: int, now: nat, rightnow: nat)
    requires Decide(start, end, now).DeferStart?
    requires start <= rightnow && end <= start
    ensures Count(StartTimers(rightnow, end), CallEnd) == 0
  {
  }
}
