/** Recurring plans: the arithmetic of the next run and the life of a plan under its triggers, pauses
    and resumptions. Times are nanoseconds. */
module Schedules {
  import opened AllocationStore

  const NANO: int := 1000000000
  const DAY: int := 86400

  datatype Repeat = Once | Daily | Weekly

  /** Length of a period in seconds. */
  function Period(r: Repeat): int
    requires r != Once
  {
    if r == Weekly then 7 * DAY else DAY
  }

  /** The clock's whole seconds. */
  function Seconds(t: int): int { t / NANO }

  function Fraction(t: int): int { t % NANO }

  /** The program's integer division, which rounds towards zero. */
  function Quotient(a: int, b: int): int
    requires b > 0
  {
    if a >= 0 then a / b else 0 - (0 - a) / b
  }

  /** How many periods after the previous run the next one lies. */
  function Skipped(previous: int, r: Repeat, now: int): int
    requires r != Once
  {
    var intervals := Quotient(Seconds(now) - Seconds(previous), Period(r));
    (if intervals < 0 then 0 else intervals) + 1
  }

  function At(anchor: int, r: Repeat, k: int): int
    requires r != Once
  {
    anchor + k * (Period(r) * NANO)
  }

  /** nextScheduleTime: days added in a zone with a fixed offset are whole multiples of 24 hours. */
  function NextTime(previous: int, r: Repeat, now: int): Option<int> {
    if r == Once then None else Some(At(previous, r, Skipped(previous, r, now)))
  }

  // ----- the arithmetic -----

  lemma DivisionBounds(a: int, b: int)
    requires b > 0
    ensures b * (a / b) <= a < b * (a / b) + b
  {}

  lemma SecondsBound(t: int)
    ensures Seconds(t) * NANO <= t < (Seconds(t) + 1) * NANO && t == Seconds(t) * NANO + Fraction(t) && 0 <= Fraction(t) < NANO
  {}

  /** Adding whole periods shifts the seconds and keeps the fraction. */
  lemma AtSeconds(anchor: int, r: Repeat, k: int)
    requires r != Once
    ensures Seconds(At(anchor, r, k)) == Seconds(anchor) + k * Period(r) && Fraction(At(anchor, r, k)) == Fraction(anchor)
  {
    var shift := k * Period(r);
    assert At(anchor, r, k) == anchor + shift * NANO;
    SecondsBound(anchor);
    Shifted(anchor, shift);
  }

  lemma Shifted(t: int, s: int)
    ensures (t + s * NANO) / NANO == t / NANO + s && (t + s * NANO) % NANO == t % NANO
  {}

  /** The number of whole periods that have passed. */
  lemma SkippedBounds(previous: int, r: Repeat, now: int)
    requires r != Once
    ensures var k := Skipped(previous, r, now);
            && k >= 1 && Seconds(now) < Seconds(previous) + k * Period(r)
            && (k > 1 ==> Seconds(previous) + (k - 1) * Period(r) <= Seconds(now))
  {
    var d, p := Seconds(now) - Seconds(previous), Period(r);
    if d >= 0 {
      DivisionBounds(d, p);
      assert p * (d / p) == (d / p) * p;
    } else {
      DivisionBounds(0 - d, p);
    }
  }

  /** The next run lies strictly after the clock and strictly after the previous run. */
  lemma NextIsLater(previous: int, r: Repeat, now: int)
    requires r != Once
    ensures NextTime(previous, r, now).value > now && NextTime(previous, r, now).value > previous
  {
    var k := Skipped(previous, r, now);
    SkippedBounds(previous, r, now);
    AtSeconds(previous, r, k);
    SecondsBound(NextTime(previous, r, now).value);
    SecondsBound(now);
    SecondsBound(previous);
    var step := k * (Period(r) * NANO);
    assert step > 0;
  }

  /** Seen in whole seconds it is the first such instant of the plan. */
  lemma NextIsFirstBySeconds(previous: int, r: Repeat, now: int, j: int)
    requires r != Once && 1 <= j < Skipped(previous, r, now)
    ensures Seconds(At(previous, r, j)) <= Seconds(now)
  {
    var k, p := Skipped(previous, r, now), Period(r);
    SkippedBounds(previous, r, now);
    AtSeconds(previous, r, j);
    assert j * p <= (k - 1) * p;
  }

  /** No instant of the plan strictly after the clock is passed over. */
  ghost predicate NothingPassedOver(previous: int, r: Repeat, now: int)
    requires r != Once
  {
    forall j | 1 <= j < Skipped(previous, r, now) :: At(previous, r, j) <= now
  }

  /** Below the second this can fail, exactly when a whole number of periods has passed on the
      second and the plan's instants lie later within the second than the clock does. */
  lemma PassedOverExactlyWhen(previous: int, r: Repeat, now: int)
    requires r != Once
    ensures NothingPassedOver(previous, r, now) <==>
              !(Seconds(now) > Seconds(previous) && (Seconds(now) - Seconds(previous)) % Period(r) == 0
                && Fraction(previous) > Fraction(now))
  {
    var k, p, d := Skipped(previous, r, now), Period(r), Seconds(now) - Seconds(previous);
    SkippedBounds(previous, r, now);
    SecondsBound(now);
    if d > 0 && d % p == 0 && Fraction(previous) > Fraction(now) {
      WholePeriods(d, p);
      assert k == d / p + 1;
      AtSeconds(previous, r, k - 1);
      SecondsBound(At(previous, r, k - 1));
      assert (k - 1) * p == d;
      assert At(previous, r, k - 1) > now;
    } else {
      forall j | 1 <= j < k ensures At(previous, r, j) <= now {
        AtSeconds(previous, r, j);
        SecondsBound(At(previous, r, j));
        NextIsFirstBySeconds(previous, r, now, j);
        if Seconds(At(previous, r, j)) == Seconds(now) {
          assert d == j * p;
          Multiple(j, p);
        }
      }
    }
  }

  /** A daily plan starting half a second past a full second, triggered one day later a quarter of a
      second past: the instant a quarter of a second ahead is passed over. */
  lemma InstantPassedOver()
    ensures var previous, now := NANO / 2, DAY * NANO + NANO / 4;
            previous <= now && At(previous, Daily, 1) > now && !NothingPassedOver(previous, Daily, now)
  {
    var previous, now := NANO / 2, DAY * NANO + NANO / 4;
    assert Seconds(previous) == 0 && Seconds(now) == DAY;
    PassedOverExactlyWhen(previous, Daily, now);
  }

  lemma WholePeriods(d: int, p: int)
    requires p > 0 && d > 0 && d % p == 0
    ensures d / p >= 1 && (d / p) * p == d
  {}

  lemma Multiple(j: int, p: int)
    requires p > 0 && j >= 1
    ensures (j * p) % p == 0 && j * p > 0
  {
    ModOfMultiple(j, p);
  }

  lemma ModOfMultiple(j: int, p: int)
    requires p > 0
    ensures (j * p) % p == 0
  {
    var q := (j * p) / p;
    Scaled(p, j - q);
    assert (j * p) % p == j * p - p * q == p * (j - q);
  }

  lemma Scaled(p: int, n: int)
    requires p > 0
    ensures n >= 1 ==> p * n >= p
    ensures n <= 0 - 1 ==> p * n <= 0 - p
  {}

  // ----- the life of a plan -----

  datatype PlanState = Active | OnHold | Completed | Cancelled | Failed

  /** fired: the instants for which the plan has been triggered. */
  datatype Plan = Plan(state: PlanState, repeat: Repeat, runAt: int, next: Option<int>, fired: seq<int>)

  datatype Event =
    | Trigger(now: int, allowed: bool, intact: bool)
    | Pause
    | Resume(now: int)
    | Cancel

  predicate Due(s: Plan, now: int) { s.state == Active && s.next.Some? && s.next.value <= now }

  /** triggerSchedule: the creator must still be allowed to run, and a fixed choice of candidates
      must be intact; otherwise the plan fails. Rounds that are skipped advance the plan, too. */
  function Triggered(s: Plan, now: int, allowed: bool, intact: bool): Plan {
    if !Due(s, now) then s
    else
      var next := NextTime(s.next.value, s.repeat, now);
      var fired := s.fired + [s.next.value];
      if !allowed || !intact then s.(state := Failed, next := None, fired := fired)
      else s.(state := if next.None? then Completed else Active, next := next, fired := fired)
  }

  function Step(s: Plan, e: Event): Plan {
    match e
    case Trigger(now, allowed, intact) => Triggered(s, now, allowed, intact)
    case Pause => if s.state == Active || s.state == OnHold then s.(state := OnHold) else s
    case Resume(now) =>
      if s.state != OnHold || s.next.None? then s
      else if s.next.value > now then s.(state := Active)
      else if s.repeat == Once then s.(state := Active, next := Some(now))
      else s.(state := Active, next := NextTime(s.next.value, s.repeat, now))
    case Cancel =>
      if s.state == Active || s.state == OnHold || s.state == Cancelled then s.(state := Cancelled, next := None) else s
  }

  function Play(s: Plan, events: seq<Event>): Plan {
    if events == [] then s else Step(Play(s, events[..|events| - 1]), events[|events| - 1])
  }

  function Fresh(runAt: int, repeat: Repeat): Plan { Plan(Active, repeat, runAt, Some(runAt), []) }

  /** The instant is the plan's start plus a whole number of periods. */
  ghost predicate Anchored(s: Plan, t: int) { s.repeat != Once ==> exists k :: k >= 0 && OnGrid(s, t, k) }

  predicate OnGrid(s: Plan, t: int, k: int) { s.repeat != Once && t == At(s.runAt, s.repeat, k) }

  /** Instants fired so far increase and precede the next one; all are anchored. A plan that runs
      once has fired at most once, and then is over. */
  ghost predicate Sound(s: Plan) {
    && (forall i, j | 0 <= i < j < |s.fired| :: s.fired[i] < s.fired[j])
    && (s.next.Some? ==> forall i | 0 <= i < |s.fired| :: s.fired[i] < s.next.value)
    && (s.next.Some? ==> Anchored(s, s.next.value))
    && (forall i | 0 <= i < |s.fired| :: Anchored(s, s.fired[i]))
    && (s.next.Some? <==> s.state == Active || s.state == OnHold)
    && (s.repeat == Once ==> |s.fired| <= 1 && (s.next.Some? ==> s.fired == []))
  }

  lemma NextIsAnchored(s: Plan, t: int, now: int)
    requires s.repeat != Once && Anchored(s, t)
    ensures Anchored(s, NextTime(t, s.repeat, now).value)
  {
    var k :| k >= 0 && OnGrid(s, t, k);
    var n := Skipped(t, s.repeat, now);
    SkippedBounds(t, s.repeat, now);
    var unit := Period(s.repeat) * NANO;
    assert k * unit + n * unit == (k + n) * unit;
    assert OnGrid(s, NextTime(t, s.repeat, now).value, k + n);
  }

  lemma StepKeepsSound(s: Plan, e: Event)
    requires Sound(s)
    ensures Sound(Step(s, e)) && Step(s, e).repeat == s.repeat && Step(s, e).runAt == s.runAt
    ensures |s.fired| <= |Step(s, e).fired| && Step(s, e).fired[..|s.fired|] == s.fired
    ensures s.next.Some? && Step(s, e).next.Some? && Step(s, e).next != s.next && s.repeat != Once ==> Step(s, e).next.value > s.next.value
  {
    hide Anchored, NextTime;
    var n := Step(s, e);
    AnchoredAlike(s, n);
    if (e.Trigger? || e.Resume?) && s.next.Some? {
      OnceHasNoNext(s.next.value, e.now);
      if s.repeat != Once {
        NextIsLater(s.next.value, s.repeat, e.now);
        NextIsAnchored(s, s.next.value, e.now);
        RepeatingHasNext(s.next.value, s.repeat, e.now);
      }
    }
  }

  lemma OnceHasNoNext(t: int, now: int)
    ensures NextTime(t, Once, now) == None
  {}

  lemma RepeatingHasNext(t: int, r: Repeat, now: int)
    ensures r != Once ==> NextTime(t, r, now).Some?
  {}

  lemma AnchoredAlike(a: Plan, b: Plan)
    requires b.repeat == a.repeat && b.runAt == a.runAt
    ensures forall t :: Anchored(b, t) == Anchored(a, t)
    ensures a.repeat == Once ==> forall t :: Anchored(a, t)
  {
    forall t ensures Anchored(b, t) == Anchored(a, t) {
      if a.repeat != Once {
        if k :| k >= 0 && OnGrid(a, t, k) { assert OnGrid(b, t, k); }
        if k :| k >= 0 && OnGrid(b, t, k) { assert OnGrid(a, t, k); }
      }
    }
  }

  lemma FreshIsSound(runAt: int, repeat: Repeat)
    ensures Sound(Fresh(runAt, repeat))
  {
    if repeat != Once {
      assert OnGrid(Fresh(runAt, repeat), runAt, 0);
    }
  }

  lemma {:induction false} PlanStaysSound(runAt: int, repeat: Repeat, events: seq<Event>)
    ensures var s := Play(Fresh(runAt, repeat), events);
            Sound(s) && s.repeat == repeat && s.runAt == runAt
  {
    hide Sound, Step;
    if events == [] {
      FreshIsSound(runAt, repeat);
    } else {
      PlanStaysSound(runAt, repeat, events[..|events| - 1]);
      StepKeepsSound(Play(Fresh(runAt, repeat), events[..|events| - 1]), events[|events| - 1]);
    }
  }

  /** In any run, whatever the clock shows, no instant of a plan fires twice and every instant of a
      recurring plan is its start plus whole periods. */
  lemma NoInstantFiresTwice(runAt: int, repeat: Repeat, events: seq<Event>, i: nat, j: nat)
    requires i < j < |Play(Fresh(runAt, repeat), events).fired|
    ensures var fired := Play(Fresh(runAt, repeat), events).fired;
            && fired[i] < fired[j] && repeat != Once
            && exists k, l :: 0 <= k < l && fired[i] == At(runAt, repeat, k) && fired[j] == At(runAt, repeat, l)
  {
    hide Play;
    PlanStaysSound(runAt, repeat, events);
    var s := Play(Fresh(runAt, repeat), events);
    assert Anchored(s, s.fired[i]) && Anchored(s, s.fired[j]);
    var k :| k >= 0 && OnGrid(s, s.fired[i], k);
    var l :| l >= 0 && OnGrid(s, s.fired[j], l);
    GridOrder(runAt, repeat, k, l);
  }

  lemma GridOrder(runAt: int, repeat: Repeat, k: int, l: int)
    requires repeat != Once && At(runAt, repeat, k) < At(runAt, repeat, l)
    ensures k < l
  {
    Monotone(Period(repeat) * NANO, k, l);
  }

  lemma Monotone(unit: int, k: int, l: int)
    requires unit > 0
    ensures k >= l ==> k * unit >= l * unit
  {}

  /** A plan on hold does not fire, and resuming it before its next run gives it back as it was. */
  lemma OnHoldIsQuiet(s: Plan, now: int, allowed: bool, intact: bool)
    requires Sound(s) && s.state == Active
    ensures var held := Step(s, Pause);
            && held.next == s.next && held.fired == s.fired
            && Step(held, Trigger(now, allowed, intact)) == held && Step(held, Pause) == held
            && (s.next.value > now ==> Step(held, Resume(now)) == s)
            && (s.next.value <= now && s.repeat != Once ==> Step(held, Resume(now)).next.value > now)
  {
    hide Anchored, NextTime;
    if s.repeat != Once {
      NextIsLater(s.next.value, s.repeat, now);
      RepeatingHasNext(s.next.value, s.repeat, now);
    }
  }

  /** A cancelled plan never fires again and never changes, whatever happens. */
  lemma {:induction false} CancelledForever(s: Plan, events: seq<Event>)
    requires s.state == Active || s.state == OnHold || s.state == Cancelled
    ensures var gone := Step(s, Cancel);
            gone.state == Cancelled && gone.next == None && gone.fired == s.fired && Play(gone, events) == gone
    decreases |events|
  {
    if events != [] {
      CancelledForever(s, events[..|events| - 1]);
    }
  }

  // ----- on the rows -----

  /** Whole days or weeks ahead, at an instant after the clock; seen in whole seconds, one period earlier
      would not be. */
  ghost predicate RunsNext(from: int, days: int, now: int, n: int) {
    && n > now
    && exists k: nat :: k >= 1 && n == from + k * (days * 86400 * 1000000000)
         && (k > 1 ==> (n / 1000000000) - days * 86400 <= now / 1000000000)
  }

  lemma NextOnRows(from: int, r: Repeat, now: int)
    ensures NextTime(from, r, now).None? <==> r == Once
    ensures r == Daily ==> RunsNext(from, 1, now, NextTime(from, r, now).value)
    ensures r == Weekly ==> RunsNext(from, 7, now, NextTime(from, r, now).value)
  {
    if r != Once {
      NextIsLater(from, r, now);
      var k := Skipped(from, r, now);
      SkippedBounds(from, r, now);
      AtSeconds(from, r, k);
      var p := Period(r);
      assert (k - 1) * p == k * p - p;
      var days := if r == Weekly then 7 else 1;
      assert At(from, r, k) == from + k * (days * 86400 * 1000000000);
    }
  }

  /** A trigger takes up exactly an active plan whose next run is not ahead of the clock, and fires it for
      that instant. The plan fails if its creator may no longer run it or its candidates are gone; otherwise
      it is over when it runs once and has its next run after the clock when it repeats. */
  lemma TriggerOutcome(s: Plan, now: int, allowed: bool, intact: bool)
    ensures var t := Step(s, Trigger(now, allowed, intact));
            if s.state != Active || s.next.None? || s.next.value > now then t == s
            else
              && t.fired == s.fired + [s.next.value] && t.repeat == s.repeat && t.runAt == s.runAt
              && (!allowed || !intact ==> t.state == Failed && t.next == None)
              && (allowed && intact && s.repeat == Once ==> t.state == Completed && t.next == None)
              && (allowed && intact && s.repeat != Once ==>
                    && t.state == Active && t.next.Some?
                    && RunsNext(s.next.value, if s.repeat == Weekly then 7 else 1, now, t.next.value))
  {
    hide NextTime, RunsNext;
    if s.next.Some? {
      NextOnRows(s.next.value, s.repeat, now);
    }
  }

  /** What the owner's requests do. A plan whose run was missed while it was on hold runs at once if it
      runs once, and otherwise at its next instant after the clock. */
  lemma OwnerOutcome(s: Plan, now: int)
    ensures Step(s, Pause) == if s.state in {Active, OnHold} then s.(state := OnHold) else s
    ensures Step(s, Cancel) == if s.state in {Active, OnHold, Cancelled} then s.(state := Cancelled, next := None) else s
    ensures var t := Step(s, Resume(now));
            if s.state != OnHold || s.next.None? then t == s
            else
              && t == s.(state := Active, next := t.next) && t.next.Some?
              && (s.next.value > now ==> t.next == s.next)
              && (s.next.value <= now && s.repeat == Once ==> t.next == Some(now))
              && (s.next.value <= now && s.repeat != Once ==> RunsNext(s.next.value, if s.repeat == Weekly then 7 else 1, now, t.next.value))
  {
    hide NextTime, RunsNext;
    if s.next.Some? {
      NextOnRows(s.next.value, s.repeat, now);
    }
  }

  // ----- the stored plan -----

  class ScheduleRow {
    var state: PlanState
    const repeat: Repeat
    const runAt: int
    var next: Option<int>
    var fired: seq<int>

    function Value(): Plan
      reads this
    {
      Plan(state, repeat, runAt, next, fired)
    }

    constructor (runAt: int, repeat: Repeat)
      ensures Value() == Fresh(runAt, repeat)
    {
      this.runAt, this.repeat := runAt, repeat;
      state, next, fired := Active, Some(runAt), [];
    }

    /** Whether a due plan was taken up. */
    method Fire(now: int, allowed: bool, intact: bool) returns (claimed: bool)
      modifies this
      ensures claimed == Due(old(Value()), now) && Value() == Step(old(Value()), Trigger(now, allowed, intact))
    {
      hide NextTime;
      if state != Active || next.None? || next.value > now {
        return false;
      }
      var due := next.value;
      next := NextTime(due, repeat, now);
      state := if next.None? then Completed else Active;
      fired := fired + [due];
      if !allowed {
        state, next := Failed, None;
      } else if !intact {
        state, next := Failed, None;
      }
      claimed := true;
    }

    method SetOnHold() returns (ok: bool)
      modifies this
      ensures ok == (old(state) == Active || old(state) == OnHold) && Value() == Step(old(Value()), Pause)
    {
      ok := state == Active || state == OnHold;
      if ok {
        state := OnHold;
      }
    }

    method Restart(now: int) returns (ok: bool)
      modifies this
      ensures ok == (old(state) == OnHold && old(next).Some?) && Value() == Step(old(Value()), Resume(now))
    {
      hide NextTime;
      if state != OnHold || next.None? {
        return false;
      }
      if next.value <= now {
        if repeat == Once {
          next := Some(now);
        } else {
          next := NextTime(next.value, repeat, now);
        }
      }
      state := Active;
      ok := true;
    }

    method Stop() returns (ok: bool)
      modifies this
      ensures ok == (old(state) == Active || old(state) == OnHold || old(state) == Cancelled)
      ensures Value() == Step(old(Value()), Cancel)
    {
      ok := state == Active || state == OnHold || state == Cancelled;
      if ok {
        state, next := Cancelled, None;
      }
    }

    /** A trigger or a request of the plan's owner; what is refused changes nothing. */
    method Handle(e: Event) returns (done: bool)
      modifies this
      ensures Value() == Step(old(Value()), e) && (!done ==> Value() == old(Value()))
    {
      hide NextTime;
      match e {
        case Trigger(now, allowed, intact) => done := Fire(now, allowed, intact);
        case Pause => done := SetOnHold();
        case Resume(now) => done := Restart(now);
        case Cancel => done := Stop();
      }
    }
  }
}
