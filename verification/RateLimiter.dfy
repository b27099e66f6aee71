/**
 The worker's per-company rate limiter: a semaphore whose permits come back one second after the
 feed they were taken for has started.  The limiter table is shared by all jobs of the process.
 */
module RateLimiter {
  import opened Scheduling

  /**
   `value` is the semaphore counter and `waking` the permits handed to coroutines that have not
   resumed yet.  `starts` lists the feed starts in order; the release timer of each one is due a
   second later, and `released` of them have fired, oldest first.
   */
  datatype Limiter = Limiter(value: nat, waking: nat, starts: seq<real>, released: nat)

  function NewLimiter(limit: nat): Limiter {
    Limiter(limit, 0, [], 0)
  }

  function Grant(l: Limiter): Limiter
    requires l.value > 0
  {
    l.(value := l.value - 1, waking := l.waking + 1)
  }

  /** The coroutine resumes at `now`, schedules its release and starts its feed. */
  function Resume(l: Limiter, now: real): Limiter
    requires l.waking > 0
  {
    l.(waking := l.waking - 1, starts := l.starts + [now])
  }

  predicate TimerDue(l: Limiter, now: real) {
    l.released < |l.starts| && l.starts[l.released] + 1.0 <= now
  }

  function Fire(l: Limiter): Limiter
    requires l.released < |l.starts|
  {
    l.(value := l.value + 1, released := l.released + 1)
  }

  function FireDue(l: Limiter, now: real): Limiter
    decreases |l.starts| - l.released
  {
    if TimerDue(l, now) then FireDue(Fire(l), now) else l
  }

  /** The limiter object itself. */
  class CompanyRateLimiter {
    var value: nat
    var waking: nat
    var starts: seq<real>
    var released: nat

    function State(): Limiter
      reads this
    {
      Limiter(value, waking, starts, released)
    }

    constructor (maxRequestsPerSecond: nat)
      ensures State() == NewLimiter(maxRequestsPerSecond)
    {
      value, waking, starts, released := maxRequestsPerSecond, 0, [], 0;
    }

    /** The semaphore side of `acquire`: false means the caller has to wait. */
    method TryAcquire() returns (granted: bool)
      modifies this`value, this`waking
      ensures granted <==> old(value) > 0
      ensures State() == if granted then Grant(old(State())) else old(State())
    {
      granted := value > 0;
      if granted {
        value := value - 1;
        waking := waking + 1;
      }
    }

    /** The rest of `acquire`, once the coroutine runs again. */
    method Proceed(now: real)
      requires waking > 0
      modifies this`waking, this`starts
      ensures State() == Resume(old(State()), now)
    {
      waking := waking - 1;
      starts := starts + [now];
    }

    /** The event loop runs every timer that is due, oldest first. */
    method RunTimers(now: real)
      modifies this`value, this`released
      ensures State() == FireDue(old(State()), now)
      ensures old(released) <= released && value - old(value) == released - old(released)
      ensures released == old(released) || released <= |starts|
      ensures forall i :: old(released) <= i < released <= |starts| ==> starts[i] + 1.0 <= now
      ensures released < |starts| ==> now < starts[released] + 1.0
    {
      while released < |starts| && starts[released] + 1.0 <= now
        invariant FireDue(State(), now) == FireDue(old(State()), now)
        invariant old(released) <= released && value - old(value) == released - old(released)
        invariant released == old(released) || released <= |starts|
        invariant forall i :: old(released) <= i < released <= |starts| ==> starts[i] + 1.0 <= now
        decreases |starts| - released
      {
        value := value + 1;
        released := released + 1;
      }
    }
  }

  // --- All limiters of a worker process ---

  datatype Process = Process(limit: nat, now: real, limiters: map<CompanyKey, Limiter>)

  datatype Step =
    | Wait(seconds: real)
    | GetOrCreate(key: CompanyKey)
    | TakePermit(key: CompanyKey)
    | StartFeed(key: CompanyKey)
    | FireTimer(key: CompanyKey)

  predicate Enabled(p: Process, step: Step) {
    match step
    case Wait(seconds) => seconds >= 0.0
    case GetOrCreate(_) => true
    case TakePermit(k) => k in p.limiters && p.limiters[k].value > 0
    case StartFeed(k) => k in p.limiters && p.limiters[k].waking > 0
    case FireTimer(k) => k in p.limiters && TimerDue(p.limiters[k], p.now)
  }

  function Apply(p: Process, step: Step): Process
    requires Enabled(p, step)
  {
    match step
    case Wait(seconds) => p.(now := p.now + seconds)
    case GetOrCreate(k) => if k in p.limiters then p else p.(limiters := p.limiters[k := NewLimiter(p.limit)])
    case TakePermit(k) => p.(limiters := p.limiters[k := Grant(p.limiters[k])])
    case StartFeed(k) => p.(limiters := p.limiters[k := Resume(p.limiters[k], p.now)])
    case FireTimer(k) => p.(limiters := p.limiters[k := Fire(p.limiters[k])])
  }

  ghost predicate Run(p: Process, steps: seq<Step>, p': Process)
    decreases |steps|
  {
    if steps == [] then p' == p
    else Enabled(p, steps[0]) && Run(Apply(p, steps[0]), steps[1..], p')
  }

  // --- Invariant ---

  /** Start times rise, and starts that are `limit` apart in the list are a second apart in time. */
  ghost predicate Spaced(starts: seq<real>, limit: nat) {
    && (forall i, j :: 0 <= i <= j < |starts| ==> starts[i] <= starts[j])
    && (forall i, j :: 0 <= i < j < |starts| && j - i == limit ==> starts[i] + 1.0 <= starts[j])
  }

  ghost predicate LimiterHolds(l: Limiter, limit: nat, now: real) {
    && l.released <= |l.starts|
    && l.value + l.waking + (|l.starts| - l.released) == limit
    && (forall i :: 0 <= i < |l.starts| ==> l.starts[i] <= now)
    && (forall i :: 0 <= i < l.released ==> l.starts[i] + 1.0 <= now)
    && Spaced(l.starts, limit)
  }

  ghost predicate Inv(p: Process) {
    forall k :: k in p.limiters ==> LimiterHolds(p.limiters[k], p.limit, p.now)
  }

  lemma ResumeHolds(l: Limiter, limit: nat, now: real)
    requires LimiterHolds(l, limit, now) && l.waking > 0
    ensures LimiterHolds(Resume(l, now), limit, now)
  {
    // Fewer than `limit` permits are out, so the timer of the start `limit` places back has fired.
    assert |l.starts| - l.released < limit;
  }

  lemma StepKeepsInv(p: Process, step: Step)
    requires Inv(p) && Enabled(p, step)
    ensures Inv(Apply(p, step)) && Apply(p, step).limit == p.limit
  {
    var p' := Apply(p, step);
    forall k | k in p'.limiters ensures LimiterHolds(p'.limiters[k], p'.limit, p'.now) {
      if k in p.limiters {
        assert LimiterHolds(p.limiters[k], p.limit, p.now);
        if step.StartFeed? && step.key == k {
          ResumeHolds(p.limiters[k], p.limit, p.now);
        }
      }
    }
  }

  lemma {:induction false} RunKeepsInv(p: Process, steps: seq<Step>, p': Process)
    requires Inv(p) && Run(p, steps, p')
    ensures Inv(p') && p'.limit == p.limit
    decreases |steps|
  {
    if steps != [] {
      StepKeepsInv(p, steps[0]);
      RunKeepsInv(Apply(p, steps[0]), steps[1..], p');
    }
  }

  // --- Permits come back ---

  /** Firing the due timers leaves none due, and gives back one permit for each. */
  lemma {:induction false} DueTimersFire(l: Limiter, now: real)
    requires l.released <= |l.starts|
    ensures var l' := FireDue(l, now);
            && l.released <= l'.released <= |l.starts| && l'.value - l.value == l'.released - l.released
            && l'.starts == l.starts && l'.waking == l.waking
            && (forall i :: l.released <= i < l'.released ==> l.starts[i] + 1.0 <= now)
            && (l'.released < |l.starts| ==> now < l.starts[l'.released] + 1.0)
    decreases |l.starts| - l.released
  {
    if TimerDue(l, now) {
      DueTimersFire(Fire(l), now);
    }
  }

  /** When nobody is waking and every start is a second old, all permits are back. */
  lemma AllPermitsReturn(l: Limiter, limit: nat, now: real)
    requires LimiterHolds(l, limit, now) && l.waking == 0
    requires forall i :: 0 <= i < |l.starts| ==> l.starts[i] + 1.0 <= now
    ensures FireDue(l, now).value == limit
  {
    DueTimersFire(l, now);
  }

  /** In a worker process, firing the due timers is a run of its steps, one for each timer. */
  lemma {:induction false} FiringIsARun(p: Process, key: CompanyKey) returns (steps: seq<Step>)
    requires key in p.limiters && p.limiters[key].released <= |p.limiters[key].starts|
    ensures Run(p, steps, p.(limiters := p.limiters[key := FireDue(p.limiters[key], p.now)]))
    ensures forall i :: 0 <= i < |steps| ==> steps[i] == FireTimer(key)
    ensures |steps| == FireDue(p.limiters[key], p.now).released - p.limiters[key].released
    decreases |p.limiters[key].starts| - p.limiters[key].released
  {
    var l := p.limiters[key];
    DueTimersFire(l, p.now);
    if TimerDue(l, p.now) {
      var next := Apply(p, FireTimer(key));
      DueTimersFire(Fire(l), p.now);
      var rest := FiringIsARun(next, key);
      steps := [FireTimer(key)] + rest;
      assert steps[1..] == rest;
      assert next.limiters[key := FireDue(Fire(l), p.now)] == p.limiters[key := FireDue(l, p.now)];
    } else {
      steps := [];
      assert p.limiters[key := l] == p.limiters;
    }
  }

  // --- The rate bound ---

  /** How many feeds started in the half-open window from `a` to `b`. */
  function StartsIn(starts: seq<real>, a: real, b: real): nat {
    if starts == [] then 0
    else
      var last := starts[|starts| - 1];
      StartsIn(starts[..|starts| - 1], a, b) + if a <= last < b then 1 else 0
  }

  /** More than `c` starts in a window leave two of them `c` places apart in it. */
  lemma {:induction false} CrowdedWindow(starts: seq<real>, a: real, b: real, c: nat) returns (i: nat)
    requires forall i, j :: 0 <= i <= j < |starts| ==> starts[i] <= starts[j]
    requires StartsIn(starts, a, b) > c
    ensures i + c < |starts| && a <= starts[i] && starts[i + c] < b
  {
    var n := |starts| - 1;
    if a <= starts[n] < b {
      if c == 0 {
        i := n;
      } else {
        i := CrowdedWindow(starts[..n], a, b, c - 1);
      }
    } else {
      i := CrowdedWindow(starts[..n], a, b, c);
    }
  }

  lemma SpacedAt(starts: seq<real>, limit: nat, i: nat)
    requires Spaced(starts, limit) && limit > 0 && i + limit < |starts|
    ensures starts[i] + 1.0 <= starts[i + limit]
  {
    var j := i + limit;
    assert j - i == limit;
  }

  lemma UnitWindow(starts: seq<real>, limit: nat, a: real)
    requires Spaced(starts, limit) && limit > 0
    ensures StartsIn(starts, a, a + 1.0) <= limit
  {
    if StartsIn(starts, a, a + 1.0) > limit {
      var i := CrowdedWindow(starts, a, a + 1.0, limit);
      SpacedAt(starts, limit, i);
    }
  }

  lemma {:induction false} WindowsAdd(starts: seq<real>, a: real, b: real, c: real)
    requires a <= b <= c
    ensures StartsIn(starts, a, c) == StartsIn(starts, a, b) + StartsIn(starts, b, c)
  {
    if starts != [] {
      WindowsAdd(starts[..|starts| - 1], a, b, c);
    }
  }

  lemma {:induction false} WideWindow(starts: seq<real>, limit: nat, a: real, k: nat)
    requires Spaced(starts, limit) && limit > 0
    ensures StartsIn(starts, a, a + k as real) <= k * limit
  {
    if k == 0 {
      EmptyWindow(starts, a);
    } else {
      var b := a + (k - 1) as real;
      WideWindow(starts, limit, a, k - 1);
      WindowsAdd(starts, a, b, b + 1.0);
      UnitWindow(starts, limit, b);
      assert a + k as real == b + 1.0;
      assert (k - 1) * limit + limit == k * limit;
    }
  }

  lemma {:induction false} EmptyWindow(starts: seq<real>, a: real)
    ensures StartsIn(starts, a, a) == 0
  {
    if starts != [] {
      EmptyWindow(starts[..|starts| - 1], a);
    }
  }

  /**
   In every run of a worker process, whatever the jobs and the delays of its timers, a company
   starts at most `limit` feeds in any one-second window, and at most k times that in k seconds.
   */
  lemma RateIsBounded(start: Process, steps: seq<Step>, p: Process, key: CompanyKey, from: real, k: nat)
    requires start.limiters == map[] && start.limit > 0 && Run(start, steps, p) && key in p.limiters
    ensures StartsIn(p.limiters[key].starts, from, from + 1.0) <= start.limit
    ensures StartsIn(p.limiters[key].starts, from, from + k as real) <= k * start.limit
  {
    RunKeepsInv(start, steps, p);
    UnitWindow(p.limiters[key].starts, start.limit, from);
    WideWindow(p.limiters[key].starts, start.limit, from, k);
  }

  // --- All starts of a company, over all jobs ---

  /** When the company's feeds start in a run, in order. */
  ghost function StartTimes(p: Process, steps: seq<Step>, key: CompanyKey): seq<real>
    decreases |steps|
  {
    if steps == [] || !Enabled(p, steps[0]) then []
    else (if steps[0] == StartFeed(key) then [p.now] else []) + StartTimes(Apply(p, steps[0]), steps[1..], key)
  }

  function StartsOf(p: Process, key: CompanyKey): seq<real> {
    if key in p.limiters then p.limiters[key].starts else []
  }

  /** No limiter is ever replaced: its list holds every start of its company since the process began. */
  lemma {:induction false} LimiterSeesAllStarts(p: Process, steps: seq<Step>, p': Process, key: CompanyKey)
    requires Run(p, steps, p')
    ensures StartsOf(p', key) == StartsOf(p, key) + StartTimes(p, steps, key)
    decreases |steps|
  {
    if steps != [] {
      var next := Apply(p, steps[0]);
      LimiterSeesAllStarts(next, steps[1..], p', key);
      assert StartsOf(next, key) == StartsOf(p, key) + (if steps[0] == StartFeed(key) then [p.now] else []);
    }
  }

  /** The bound holds of the starts themselves, whatever number of jobs and pools they came from. */
  lemma StartsAreBounded(start: Process, steps: seq<Step>, p: Process, key: CompanyKey, from: real, k: nat)
    requires start.limiters == map[] && start.limit > 0 && Run(start, steps, p)
    ensures StartsIn(StartTimes(start, steps, key), from, from + 1.0) <= start.limit
    ensures StartsIn(StartTimes(start, steps, key), from, from + k as real) <= k * start.limit
  {
    LimiterSeesAllStarts(start, steps, p, key);
    assert [] + StartTimes(start, steps, key) == StartTimes(start, steps, key);
    if key in p.limiters {
      RateIsBounded(start, steps, p, key, from, k);
    } else {
      assert k * start.limit >= 0;
    }
  }
}
