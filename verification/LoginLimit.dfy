/**
 * The login limiter: a Redis counter per address, incremented by every attempt. The attempt
 * that creates the counter sets its expiry in a second, separate command.
 *
 * Many API instances run this at once, so INCR and EXPIRE of different attempts interleave,
 * and an instance may die, or its EXPIRE fail unnoticed, between the two.
 */
module LoginLimit {

  const MAX_ATTEMPTS := 5
  const WINDOW_SECS := 900.0

  datatype Deadline = Never | At(time: real)

  /** The Redis key. */
  datatype Counter = Absent | Live(count: nat, deadline: Deadline)

  /** The key, the attempts that still owe an EXPIRE, and the time of Redis's clock. */
  datatype State = State(counter: Counter, owing: set<nat>, now: real)

  datatype Step =
    | Incr(attempt: nat, at: real)
    | SetExpiry(attempt: nat, at: real)
    | GiveUp(attempt: nat)
    | Vanish(at: real)

  /** The count INCR returns. */
  function NextCount(c: Counter): nat {
    if c.Absent? then 1 else c.count + 1
  }

  function AfterIncr(c: Counter): Counter {
    Live(NextCount(c), if c.Absent? then Never else c.deadline)
  }

  /** EXPIRE does nothing to a key that is not there. */
  function AfterExpire(c: Counter, at: real, window: real): Counter {
    if c.Absent? then c else Live(c.count, At(at + window))
  }

  predicate Passes(c: Counter, max: nat) {
    NextCount(c) <= max
  }

  // ---------------------------------------------------------------- the program

  /** One address's key on the Redis server. */
  class Redis {
    var counter: Counter

    constructor ()
      ensures counter == Absent
    {
      counter := Absent;
    }

    method Incr() returns (count: nat)
      modifies this
      ensures counter == AfterIncr(old(counter)) && count == NextCount(old(counter))
    {
      match counter
      case Absent =>
        counter := Live(1, Never);
        return 1;
      case Live(n, deadline) =>
        counter := Live(n + 1, deadline);
        return n + 1;
    }

    method Expire(now: real, window: real)
      modifies this
      ensures counter == AfterExpire(old(counter), now, window)
    {
      match counter
      case Absent =>
      case Live(n, _) =>
        counter := Live(n, At(now + window));
    }

    /**
     * One attempt that nothing interleaves with. now is Redis's clock; expireFails says that the
     * EXPIRE command is lost. The attempt takes the steps Incr and then SetExpiry or GiveUp.
     */
    method LoginRateLimit(now: real, expireFails: bool, ghost attempt: nat, ghost before: State)
      returns (allowed: bool, remaining: int, ghost steps: seq<Step>)
      requires before.counter == counter && before.now <= now && attempt !in before.owing
      modifies this
      ensures IsRun(before, 900.0, steps)
      ensures steps == [Step.Incr(attempt, now)]
                       + (if NextCount(old(counter)) != 1 then []
                          else [if expireFails then GiveUp(attempt) else SetExpiry(attempt, now)])
      ensures Run(before, 900.0, steps) == State(counter, before.owing, now)
      ensures var count := if old(counter).Absent? then 1 else old(counter).count + 1;
              && allowed == (count <= 5) && remaining == (if allowed then 5 - count else 0)
              && counter == Live(count, if count > 1 then old(counter).deadline
                                        else if !expireFails then At(now + 900.0)
                                        else if old(counter).Absent? then Never else old(counter).deadline)
    {
      var count := Incr();
      steps := [Step.Incr(attempt, now)];
      ghost var mid := Apply(before, WINDOW_SECS, steps[0]);
      assert steps[1..] == [] && Run(mid, WINDOW_SECS, []) == mid;
      if count == 1 {
        if expireFails {
          steps := steps + [GiveUp(attempt)];
        } else {
          Expire(now, WINDOW_SECS);
          steps := steps + [SetExpiry(attempt, now)];
        }
        assert steps[1..] == [steps[1]] && steps[1..][1..] == [];
        ghost var end := Apply(mid, WINDOW_SECS, steps[1]);
        assert Run(mid, WINDOW_SECS, [steps[1]]) == end;
        assert (before.owing + {attempt}) - {attempt} == before.owing;
      }
      remaining := if MAX_ATTEMPTS - count > 0 then MAX_ATTEMPTS - count else 0;
      allowed := count <= MAX_ATTEMPTS;
    }
  }

  // ---------------------------------------------------------------- interleaved runs

  predicate Enabled(s: State, step: Step) {
    match step
    case Incr(attempt, at) => s.now <= at && attempt !in s.owing
    case SetExpiry(attempt, at) => s.now <= at && attempt in s.owing
    case GiveUp(attempt) => attempt in s.owing
    case Vanish(at) => s.now <= at && s.counter.Live? && s.counter.deadline.At? && s.counter.deadline.time <= at
  }

  function Apply(s: State, window: real, step: Step): State {
    match step
    case Incr(attempt, at) =>
      State(AfterIncr(s.counter), if NextCount(s.counter) == 1 then s.owing + {attempt} else s.owing, at)
    case SetExpiry(attempt, at) => State(AfterExpire(s.counter, at, window), s.owing - {attempt}, at)
    case GiveUp(attempt) => s.(owing := s.owing - {attempt})
    case Vanish(at) => State(Absent, s.owing, at)
  }

  predicate IsRun(s: State, window: real, steps: seq<Step>)
    decreases |steps|
  {
    steps == [] || (Enabled(s, steps[0]) && IsRun(Apply(s, window, steps[0]), window, steps[1..]))
  }

  function Run(s: State, window: real, steps: seq<Step>): State
    decreases |steps|
  {
    if steps == [] then s else Run(Apply(s, window, steps[0]), window, steps[1..])
  }

  /** 1 if the step is an attempt let through at a time in [x, y). */
  function Pass(s: State, max: nat, x: real, y: real, step: Step): nat {
    if step.Incr? && x <= step.at < y && Passes(s.counter, max) then 1 else 0
  }

  /** Attempts let through in [x, y) over a run. */
  function Admitted(s: State, window: real, max: nat, x: real, y: real, steps: seq<Step>): nat
    decreases |steps|
  {
    if steps == [] then 0
    else Pass(s, max, x, y, steps[0]) + Admitted(Apply(s, window, steps[0]), window, max, x, y, steps[1..])
  }

  /**
   * Holds in every reachable state: a live counter has counted someone, and while an EXPIRE is
   * owed the counter is live with no deadline, so it cannot vanish before that EXPIRE runs and
   * no second attempt comes to owe one.
   */
  ghost predicate Inv(s: State) {
    && (s.counter.Live? ==> s.counter.count >= 1)
    && (s.owing != {} ==> s.counter.Live? && s.counter.deadline == Never)
    && (forall a, b :: a in s.owing && b in s.owing ==> a == b)
  }

  lemma {:induction false} RunKeepsInv(s: State, window: real, steps: seq<Step>)
    requires Inv(s) && IsRun(s, window, steps)
    ensures Inv(Run(s, window, steps))
    decreases |steps|
  {
    if steps != [] {
      ApplyKeepsInv(s, window, steps[0]);
      RunKeepsInv(Apply(s, window, steps[0]), window, steps[1..]);
    }
  }

  lemma ApplyKeepsInv(s: State, window: real, step: Step)
    requires Inv(s) && Enabled(s, step)
    ensures Inv(Apply(s, window, step))
  {
  }

  const START := State(Absent, {}, 0.0)

  // ---------------------------------------------------------------- main results

  function Positive(n: int): nat { if n > 0 then n else 0 }

  /** Attempts a counter still lets through before it has to vanish. */
  function Room(c: Counter, max: nat): nat {
    if c.Absent? then max else Positive(max - c.count)
  }

  /** A key lifetime: however the steps interleave, while the key does not vanish at most max attempts pass. */
  lemma {:induction false} LifetimeBound(s: State, window: real, max: nat, x: real, y: real, steps: seq<Step>)
    requires IsRun(s, window, steps)
    requires forall i :: 0 <= i < |steps| ==> !steps[i].Vanish?
    ensures Admitted(s, window, max, x, y, steps) <= Room(s.counter, max) <= max
    decreases |steps|
  {
    if steps != [] {
      LifetimeBound(Apply(s, window, steps[0]), window, max, x, y, steps[1..]);
    }
  }

  /** Whether the counter can run out before time y. */
  predicate EndsBefore(c: Counter, y: real) {
    c.Live? && c.deadline.At? && c.deadline.time < y
  }

  /** The most attempts that can pass in [s.now, y), if y is at most one window ahead. */
  function Ceiling(s: State, max: nat, y: real): nat {
    if s.now >= y then 0
    else if EndsBefore(s.counter, y) then Room(s.counter, max) + max
    else Room(s.counter, max)
  }

  /** No run from s admits more than the ceiling before y. */
  lemma {:induction false} CeilingBounds(s: State, window: real, max: nat, x: real, y: real, steps: seq<Step>)
    requires Inv(s) && IsRun(s, window, steps) && y <= s.now + window
    ensures Admitted(s, window, max, x, y, steps) <= Ceiling(s, max, y)
    decreases |steps|
  {
    if steps != [] {
      var s' := Apply(s, window, steps[0]);
      ApplyKeepsInv(s, window, steps[0]);
      CeilingBounds(s', window, max, x, y, steps[1..]);
    }
  }

  /** Any half-open stretch of one window admits at most 2*max - 1, over every interleaving. */
  lemma {:induction false} SlidingBound(s: State, window: real, max: nat, x: real, steps: seq<Step>)
    requires Inv(s) && IsRun(s, window, steps) && max >= 1
    ensures Admitted(s, window, max, x, x + window, steps) <= 2 * max - 1
    decreases |steps|
  {
    if s.now >= x {
      CeilingBounds(s, window, max, x, x + window, steps);
    } else if steps != [] {
      if steps[0].GiveUp? || steps[0].at < x {
        ApplyKeepsInv(s, window, steps[0]);
        SlidingBound(Apply(s, window, steps[0]), window, max, x, steps[1..]);
      } else {
        CeilingBounds(s.(now := x), window, max, x, x + window, steps);
      }
    }
  }

  /** With the program's constants: nine logins in fifteen minutes, whatever fifteen minutes one looks at. */
  lemma NineInAnyWindow(x: real, steps: seq<Step>)
    requires IsRun(START, WINDOW_SECS, steps)
    ensures Admitted(START, WINDOW_SECS, MAX_ATTEMPTS, x, x + 900.0, steps) <= 9
  {
    SlidingBound(START, WINDOW_SECS, MAX_ATTEMPTS, x, steps);
  }

  /**
   * After a first attempt at t whose EXPIRE ran at t, at most four more pass before t + 900 on every run, so a sixth
   * attempt waits fifteen minutes.
   */
  lemma FourMoreInTheWindow(s: State, attempt: nat, t: real, steps: seq<Step>)
    requires Inv(s) && s.counter.Absent? && Enabled(s, Step.Incr(attempt, t))
    requires var first := [Step.Incr(attempt, t), SetExpiry(attempt, t)];
             IsRun(Run(s, WINDOW_SECS, first), WINDOW_SECS, steps)
    ensures var first := [Step.Incr(attempt, t), SetExpiry(attempt, t)];
            && IsRun(s, WINDOW_SECS, first)
            && Admitted(Run(s, WINDOW_SECS, first), WINDOW_SECS, MAX_ATTEMPTS, t, t + 900.0, steps) <= 4
  {
    var first := [Step.Incr(attempt, t), SetExpiry(attempt, t)];
    var s1 := Apply(s, WINDOW_SECS, first[0]);
    var s2 := Apply(s1, WINDOW_SECS, first[1]);
    assert first[1..] == [first[1]] && first[1..][1..] == [];
    assert Run(s2, WINDOW_SECS, []) == s2 && Run(s1, WINDOW_SECS, [first[1]]) == s2;
    assert IsRun(s1, WINDOW_SECS, [first[1]]);
    ApplyKeepsInv(s, WINDOW_SECS, first[0]);
    ApplyKeepsInv(s1, WINDOW_SECS, first[1]);
    CeilingBounds(s2, WINDOW_SECS, MAX_ATTEMPTS, t, t + WINDOW_SECS, steps);
  }

  /** k attempts at time t, all let through while there is room, followed by the given rest. */
  lemma {:induction false} Burst(s: State, window: real, max: nat, x: real, y: real, t: real, k: nat)
    returns (steps: seq<Step>)
    requires s.now <= t && x <= t < y && k <= Room(s.counter, max)
    ensures IsRun(s, window, steps) && Admitted(s, window, max, x, y, steps) == k
    ensures if k == 0 then steps == [] else Run(s, window, steps).now == t
    ensures s.counter.Live? && s.counter.count >= 1 ==> Run(s, window, steps).owing == s.owing
    ensures Run(s, window, steps).counter ==
            if k == 0 then s.counter
            else Live(if s.counter.Absent? then k else s.counter.count + k, AfterIncr(s.counter).deadline)
    decreases k
  {
    steps := [];
    if k > 0 {
      var attempt := Fresh(s.owing);
      var step := Step.Incr(attempt, t);
      var rest := Burst(Apply(s, window, step), window, max, x, y, t, k - 1);
      steps := [step] + rest;
    }
  }

  lemma {:induction false} Fresh(used: set<nat>) returns (a: nat)
    ensures forall b :: b in used ==> b < a
    decreases |used|
  {
    a := 0;
    if used != {} {
      var b :| b in used;
      var c := Fresh(used - {b});
      a := if b < c then c else b + 1;
      assert used == (used - {b}) + {b};
    }
  }

  lemma {:induction false} Joined(s: State, window: real, max: nat, x: real, y: real,
                                  first: seq<Step>, second: seq<Step>)
    requires IsRun(s, window, first) && IsRun(Run(s, window, first), window, second)
    ensures IsRun(s, window, first + second)
    ensures Run(s, window, first + second) == Run(Run(s, window, first), window, second)
    ensures Admitted(s, window, max, x, y, first + second)
            == Admitted(s, window, max, x, y, first) + Admitted(Run(s, window, first), window, max, x, y, second)
    decreases |first|
  {
    if first == [] {
      assert first + second == second;
    } else {
      assert (first + second)[1..] == first[1..] + second;
      Joined(Apply(s, window, first[0]), window, max, x, y, first[1..], second);
    }
  }

  /** The ceiling is reached: some run admits exactly that many in [x, y). */
  lemma CeilingReached(s: State, window: real, max: nat, x: real, y: real) returns (steps: seq<Step>)
    requires s.now <= x < y
    ensures IsRun(s, window, steps)
    ensures Admitted(s, window, max, x, y, steps) == Ceiling(s.(now := x), max, y)
  {
    var k := Room(s.counter, max);
    steps := Burst(s, window, max, x, y, x, k);
    if EndsBefore(s.counter, y) {
      var mid := Run(s, window, steps);
      var deadline := s.counter.deadline.time;
      var at := if deadline > x then deadline else x;
      var gone := [Vanish(at)];
      assert gone[1..] == [];
      var after := Apply(mid, window, gone[0]);
      assert Run(mid, window, gone) == after && IsRun(mid, window, gone);
      var again := Burst(after, window, max, x, y, at, max);
      Joined(s, window, max, x, y, steps, gone);
      Joined(s, window, max, x, y, steps + gone, again);
      steps := steps + gone + again;
    }
  }

  /** The promise of the comment: at most max in the window that starts now, on every run. */
  ghost predicate KeepsPromise(s: State, window: real, max: nat) {
    forall steps :: IsRun(s, window, steps) ==> Admitted(s, window, max, s.now, s.now + window, steps) <= max
  }

  /** It is kept exactly when the counter cannot run out within the window, or has no room left. */
  lemma PromiseIff(s: State, window: real, max: nat)
    requires Inv(s) && window > 0.0
    ensures KeepsPromise(s, window, max)
            <==> !EndsBefore(s.counter, s.now + window) || s.counter.count >= max
  {
    if !EndsBefore(s.counter, s.now + window) || s.counter.count >= max {
      forall steps | IsRun(s, window, steps)
        ensures Admitted(s, window, max, s.now, s.now + window, steps) <= max
      {
        CeilingBounds(s, window, max, s.now, s.now + window, steps);
      }
    } else {
      var steps := CeilingReached(s, window, max, s.now, s.now + window);
    }
  }

  /** Not a sliding window of five: one login, then four just before and five just after the reset. */
  lemma NineDoPass() returns (steps: seq<Step>)
    ensures IsRun(START, WINDOW_SECS, steps)
    ensures Admitted(START, WINDOW_SECS, MAX_ATTEMPTS, 1.0, 1.0 + 900.0, steps) == 9
  {
    var opening := [Step.Incr(0, 0.0), SetExpiry(0, 0.0)];
    assert opening[1..] == [opening[1]] && opening[1..][1..] == [];
    var s := Run(START, WINDOW_SECS, opening);
    assert s == State(Live(1, At(WINDOW_SECS)), {}, 0.0) by {
      var none: set<nat> := {};
      assert none + {0} - {0} == none;
    }
    var rest := CeilingReached(s, WINDOW_SECS, MAX_ATTEMPTS, 1.0, 1.0 + WINDOW_SECS);
    Joined(START, WINDOW_SECS, MAX_ATTEMPTS, 1.0, 1.0 + WINDOW_SECS, opening, rest);
    steps := opening + rest;
  }

  // ---------------------------------------------------------------- locked out for ever

  /** No attempt is let through any more, at any time, on any run. */
  ghost predicate LockedOut(s: State, window: real, max: nat) {
    forall steps, x: real, y: real :: IsRun(s, window, steps) ==> Admitted(s, window, max, x, y, steps) == 0
  }

  /** A full counter without a deadline, and nobody left who will set one. */
  predicate Frozen(s: State, max: nat) {
    s.counter.Live? && s.counter.count >= max && s.counter.deadline.Never? && s.owing == {}
  }

  lemma {:induction false} FrozenAdmitsNone(s: State, window: real, max: nat, x: real, y: real, steps: seq<Step>)
    requires Frozen(s, max) && max >= 1 && IsRun(s, window, steps)
    ensures Admitted(s, window, max, x, y, steps) == 0
    decreases |steps|
  {
    if steps != [] {
      FrozenAdmitsNone(Apply(s, window, steps[0]), window, max, x, y, steps[1..]);
    }
  }

  lemma OneStep(s: State, window: real, max: nat, x: real, y: real, step: Step)
    requires Enabled(s, step)
    ensures IsRun(s, window, [step]) && Run(s, window, [step]) == Apply(s, window, step)
    ensures Admitted(s, window, max, x, y, [step]) == Pass(s, max, x, y, step)
  {
    assert [step][1..] == [];
    assert Run(Apply(s, window, step), window, []) == Apply(s, window, step);
  }

  /** A full counter with a deadline goes, and the next attempt gets through. */
  lemma AdmitsAfterDeadline(s: State, window: real, max: nat, x: real) returns (steps: seq<Step>, y: real)
    requires max >= 1 && x <= s.now && s.counter.Live? && s.counter.deadline.At?
    ensures IsRun(s, window, steps) && y >= s.now && Admitted(s, window, max, x, y, steps) == 1
  {
    var at := if s.counter.deadline.time > s.now then s.counter.deadline.time else s.now;
    y := at + 1.0;
    OneStep(s, window, max, x, y, Vanish(at));
    var last := Burst(Apply(s, window, Vanish(at)), window, max, x, y, at, 1);
    Joined(s, window, max, x, y, [Vanish(at)], last);
    steps := [Vanish(at)] + last;
  }

  /** The counter can still go, or has room: some attempt gets through. */
  lemma AdmitsOne(s: State, window: real, max: nat) returns (steps: seq<Step>, y: real)
    requires Inv(s) && max >= 1 && !Frozen(s, max)
    ensures IsRun(s, window, steps) && Admitted(s, window, max, s.now, y, steps) == 1
  {
    if Room(s.counter, max) > 0 {
      y := s.now + 1.0;
      steps := Burst(s, window, max, s.now, y, s.now, 1);
    } else if s.counter.deadline.At? {
      steps, y := AdmitsAfterDeadline(s, window, max, s.now);
    } else {
      var a :| a in s.owing;
      var expire := SetExpiry(a, s.now);
      steps, y := AdmitsAfterDeadline(Apply(s, window, expire), window, max, s.now);
      OneStep(s, window, max, s.now, y, expire);
      Joined(s, window, max, s.now, y, [expire], steps);
      steps := [expire] + steps;
    }
  }

  /**
   * The address is locked out for ever exactly when the counter is full, has no deadline, and no attempt still owes
   * the EXPIRE: the attempt that made the counter died, or its EXPIRE failed unnoticed.
   */
  lemma LockedOutIff(s: State, window: real, max: nat)
    requires Inv(s) && max >= 1
    ensures LockedOut(s, window, max) <==> Frozen(s, max)
  {
    if Frozen(s, max) {
      forall steps, x: real, y: real | IsRun(s, window, steps) ensures Admitted(s, window, max, x, y, steps) == 0 {
        FrozenAdmitsNone(s, window, max, x, y, steps);
      }
    } else {
      var steps, y := AdmitsOne(s, window, max);
    }
  }

  /** It happens: the first of five attempts loses its EXPIRE. */
  lemma LostExpiryLocksOut() returns (steps: seq<Step>)
    ensures IsRun(START, WINDOW_SECS, steps) && LockedOut(Run(START, WINDOW_SECS, steps), WINDOW_SECS, MAX_ATTEMPTS)
  {
    var opening := [Step.Incr(0, 0.0), GiveUp(0)];
    assert opening[1..] == [opening[1]] && opening[1..][1..] == [];
    var s := Run(START, WINDOW_SECS, opening);
    assert s == State(Live(1, Never), {}, 0.0) by {
      var none: set<nat> := {};
      assert none + {0} - {0} == none;
    }
    var rest := Burst(s, WINDOW_SECS, MAX_ATTEMPTS, 0.0, 1.0, 0.0, MAX_ATTEMPTS - 1);
    Joined(START, WINDOW_SECS, MAX_ATTEMPTS, 0.0, 1.0, opening, rest);
    steps := opening + rest;
    RunKeepsInv(START, WINDOW_SECS, steps);
    LockedOutIff(Run(START, WINDOW_SECS, steps), WINDOW_SECS, MAX_ATTEMPTS);
  }
}
