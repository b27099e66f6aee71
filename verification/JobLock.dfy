/**
 The two-level job lock: a non-blocking lock per process and name, then for some names a Postgres
 advisory lock on a connection of its own.  Threads of several processes interleave; every call
 that talks to the database may fail, with or without having taken effect.
 */
module JobLock {
  import opened Common

  /** Where a thread stands in the lock's code. */
  datatype Pc =
    | Idle          // outside
    | Entered       // has the local lock
    | Connected     // has a connection, has not asked for the advisory lock
    | Body          // runs the protected job
    | Leaving       // at the start of the clean-up
    | Closing       // past the unlock attempt
    | Freeing       // about to release the local lock

  datatype Thread = Thread(process: nat, name: string, pc: Pc, conn: Option<nat>, acquired: bool)

  /** A pooled connection; it keeps its advisory locks when it goes back to the pool. */
  datatype Connection = Connection(process: nat, alive: bool, user: Option<nat>)

  /** An advisory lock is re-entrant on its connection. */
  datatype Hold = Hold(conn: nat, count: nat)

  type Key = (nat, string)

  /** `leaked` records the local locks that an exit left locked. */
  datatype State = State(threads: map<nat, Thread>, held: set<Key>, leaked: set<Key>,
                         conns: map<nat, Connection>, pg: map<nat, Hold>)

  datatype Step =
    | Acquire(t: nat, name: string)
    | BeginLocal(t: nat)
    | OpenNothing(t: nat)
    | OpenFails(t: nat)
    | Open(t: nat, c: nat)
    | TryLock(t: nat)
    | TryLockFails(t: nat, granted: bool)
    | LeaveBody(t: nat)
    | SkipUnlock(t: nat)
    | Unlock(t: nat)
    | UnlockFails(t: nat)
    | Close(t: nat)
    | CloseFails(t: nat)
    | Free(t: nat)
    | ConnectionDies(c: nat)

  function LockId(name: string): Option<nat> {
    if name == "rss_patch_feed_enabled" then Some(83001)
    else if name == "rss_patch_company_enabled" then Some(83002)
    else if name == "rss_sync" then Some(83003)
    else None
  }

  /** The three jobs that have an advisory lock have one each, and no other name has one. */
  lemma LockIds(a: string, b: string)
    ensures LockId(a).Some? <==> a in {"rss_patch_feed_enabled", "rss_patch_company_enabled", "rss_sync"}
    ensures LockId(a).Some? && LockId(a) == LockId(b) ==> a == b
  {
  }

  function KeyOf(thread: Thread): Key {
    (thread.process, thread.name)
  }

  predicate Busy(s: State, t: nat) {
    t in s.threads && s.threads[t].pc != Idle
  }

  predicate At(s: State, t: nat, pc: Pc) {
    t in s.threads && s.threads[t].pc == pc
  }

  predicate InBody(s: State, t: nat, name: string) {
    At(s, t, Body) && s.threads[t].name == name
  }

  ghost predicate Everybody(s: State, pc: Pc) {
    forall t :: t in s.threads ==> s.threads[t].pc == pc
  }

  /** The thread's advisory lock connection is alive. */
  predicate LockLives(s: State, t: nat) {
    t in s.threads && s.threads[t].conn.Some? && s.threads[t].conn.value in s.conns && s.conns[s.threads[t].conn.value].alive
  }

  // --- Advisory locks ---

  predicate CanLock(pg: map<nat, Hold>, id: nat, c: nat) {
    id in pg ==> pg[id].conn == c
  }

  function Locked(pg: map<nat, Hold>, id: nat, c: nat): map<nat, Hold> {
    pg[id := Hold(c, if id in pg then pg[id].count + 1 else 1)]
  }

  function Unlocked(pg: map<nat, Hold>, id: nat, c: nat): map<nat, Hold> {
    if id !in pg || pg[id].conn != c then pg
    else if pg[id].count <= 1 then pg - {id}
    else pg[id := Hold(c, pg[id].count - 1)]
  }

  function FreedBy(pg: map<nat, Hold>, c: nat): map<nat, Hold> {
    map id | id in pg && pg[id].conn != c :: pg[id]
  }

  // --- Steps ---

  predicate Enabled(s: State, step: Step) {
    match step
    case Acquire(t, _) => At(s, t, Idle)
    case BeginLocal(t) => At(s, t, Entered) && LockId(s.threads[t].name).None?
    case OpenNothing(t) => At(s, t, Entered) && LockId(s.threads[t].name).Some?
    case OpenFails(t) => At(s, t, Entered) && LockId(s.threads[t].name).Some?
    case Open(t, c) =>
      && At(s, t, Entered) && LockId(s.threads[t].name).Some?
      && (c in s.conns ==> s.conns[c].user.None? && s.conns[c].process == s.threads[t].process)
    case TryLock(t) => At(s, t, Connected) && LockLives(s, t)
    case TryLockFails(t, granted) => At(s, t, Connected) && (granted ==> LockLives(s, t))
    case LeaveBody(t) => At(s, t, Body)
    case SkipUnlock(t) => At(s, t, Leaving) && !(s.threads[t].acquired && s.threads[t].conn.Some?)
    case Unlock(t) => At(s, t, Leaving) && s.threads[t].acquired && LockLives(s, t)
    case UnlockFails(t) => At(s, t, Leaving) && s.threads[t].acquired && s.threads[t].conn.Some?
    case Close(t) => At(s, t, Closing)
    case CloseFails(t) => At(s, t, Closing) && s.threads[t].conn.Some?
    case Free(t) => At(s, t, Freeing)
    case ConnectionDies(c) => c in s.conns
  }

  function Goto(s: State, t: nat, pc: Pc): State
    requires t in s.threads
  {
    s.(threads := s.threads[t := s.threads[t].(pc := pc)])
  }

  /** The connection goes back to the pool. */
  function Returned(s: State, t: nat): map<nat, Connection>
    requires t in s.threads
  {
    var conn := s.threads[t].conn;
    if conn.Some? && conn.value in s.conns then s.conns[conn.value := s.conns[conn.value].(user := None)] else s.conns
  }

  function Outside(thread: Thread): Thread {
    thread.(pc := Idle, conn := None, acquired := false)
  }

  function Apply(s: State, step: Step): State
    requires Enabled(s, step)
  {
    match step
    case Acquire(t, name) =>
      var thread := s.threads[t].(name := name, pc := Entered);
      // A lock already held is refused at once, and the thread stays outside.
      if KeyOf(thread) in s.held then s
      else s.(threads := s.threads[t := thread], held := s.held + {KeyOf(thread)})
    case BeginLocal(t) => Goto(s, t, Body)
    case OpenNothing(t) => Goto(s, t, Body)
    case OpenFails(t) => Goto(s, t, Leaving)
    case Open(t, c) =>
      var alive := if c in s.conns then s.conns[c].alive else true;
      s.(threads := s.threads[t := s.threads[t].(pc := Connected, conn := Some(c))],
         conns := s.conns[c := Connection(s.threads[t].process, alive, Some(t))])
    case TryLock(t) =>
      var c, id := s.threads[t].conn.Coalesce(Some(0)).value, LockId(s.threads[t].name).Coalesce(Some(0)).value;
      if CanLock(s.pg, id, c) then
        s.(threads := s.threads[t := s.threads[t].(pc := Body, acquired := true)], pg := Locked(s.pg, id, c))
      else Goto(s, t, Leaving)
    case TryLockFails(t, granted) =>
      var c, id := s.threads[t].conn.Coalesce(Some(0)).value, LockId(s.threads[t].name).Coalesce(Some(0)).value;
      var pg := if granted && CanLock(s.pg, id, c) then Locked(s.pg, id, c) else s.pg;
      Goto(s, t, Leaving).(pg := pg)
    case LeaveBody(t) => Goto(s, t, Leaving)
    case SkipUnlock(t) => Goto(s, t, Closing)
    case Unlock(t) =>
      var c, id := s.threads[t].conn.Coalesce(Some(0)).value, LockId(s.threads[t].name).Coalesce(Some(0)).value;
      Goto(s, t, Closing).(pg := Unlocked(s.pg, id, c))
    // The exception is swallowed, and the lock stays with the connection.
    case UnlockFails(t) => Goto(s, t, Closing)
    case Close(t) =>
      s.(threads := s.threads[t := s.threads[t].(pc := Freeing, conn := None)], conns := Returned(s, t))
    // The exception leaves the clean-up before the local lock is released.
    case CloseFails(t) =>
      s.(threads := s.threads[t := Outside(s.threads[t])], conns := Returned(s, t),
         leaked := s.leaked + {KeyOf(s.threads[t])})
    case Free(t) =>
      s.(threads := s.threads[t := Outside(s.threads[t])], held := s.held - {KeyOf(s.threads[t])})
    case ConnectionDies(c) =>
      s.(conns := s.conns[c := s.conns[c].(alive := false)], pg := FreedBy(s.pg, c))
  }

  ghost predicate Initial(s: State) {
    && (forall t :: t in s.threads ==> s.threads[t] == Outside(s.threads[t]))
    && s.held == {} && s.leaked == {} && s.conns == map[] && s.pg == map[]
  }

  // --- The invariant: local locks ---

  /** A busy thread has its local lock, and no other thread of its process is busy with the name. */
  ghost predicate LocalHolds(s: State) {
    && (forall t :: Busy(s, t) ==> KeyOf(s.threads[t]) in s.held && KeyOf(s.threads[t]) !in s.leaked)
    && (forall t, u :: Busy(s, t) && Busy(s, u) && KeyOf(s.threads[t]) == KeyOf(s.threads[u]) ==> t == u)
    && s.leaked <= s.held
  }

  ghost predicate HasHolder(s: State, key: Key) {
    exists t :: Busy(s, t) && KeyOf(s.threads[t]) == key
  }

  /** A locked local lock belongs to a busy thread, unless an exit leaked it. */
  ghost predicate HeldHasReason(s: State) {
    forall key :: key in s.held ==> key in s.leaked || HasHolder(s, key)
  }

  // --- The invariant: connections and advisory locks ---

  predicate ThreadFits(thread: Thread) {
    && (thread.pc == Idle ==> thread.conn.None? && !thread.acquired)
    && (thread.pc == Entered || thread.pc == Freeing ==> thread.conn.None?)
    && (thread.pc == Entered || thread.pc == Connected ==> !thread.acquired)
    && (thread.conn.Some? ==> LockId(thread.name).Some?)
    && (thread.pc == Connected ==> thread.conn.Some?)
    && (thread.pc == Body ==> (thread.conn.Some? <==> thread.acquired))
  }

  predicate OwnsConnection(s: State, t: nat)
    requires t in s.threads
  {
    var conn := s.threads[t].conn;
    conn.Some? ==> conn.value in s.conns && s.conns[conn.value] == Connection(s.threads[t].process, s.conns[conn.value].alive, Some(t))
  }

  /** While its connection lives, a thread that acquired the advisory lock and has not unlocked it holds it. */
  predicate HoldsAdvisory(s: State, t: nat)
    requires t in s.threads
  {
    var thread := s.threads[t];
    thread.acquired && (thread.pc == Body || thread.pc == Leaving) && LockLives(s, t) ==>
      var id := LockId(thread.name);
      id.Some? && id.value in s.pg && Some(s.pg[id.value].conn) == thread.conn
  }

  ghost predicate ThreadsHold(s: State) {
    forall t :: t in s.threads ==> ThreadFits(s.threads[t]) && OwnsConnection(s, t) && HoldsAdvisory(s, t)
  }

  ghost predicate Inv(s: State) {
    LocalHolds(s) && HeldHasReason(s) && ThreadsHold(s)
  }

  lemma InitialInv(s: State)
    requires Initial(s)
    ensures Inv(s)
  {
  }

  lemma LocalKept(s: State, step: Step)
    requires Enabled(s, step) && LocalHolds(s)
    ensures LocalHolds(Apply(s, step))
  {
    var s' := Apply(s, step);
    forall t | Busy(s', t) ensures KeyOf(s'.threads[t]) in s'.held && KeyOf(s'.threads[t]) !in s'.leaked {
      BusyHolds(s, step, t);
    }
    forall t, u | Busy(s', t) && Busy(s', u) && KeyOf(s'.threads[t]) == KeyOf(s'.threads[u]) ensures t == u {
      BusyAlone(s, step, t, u);
    }
  }

  lemma BusyHolds(s: State, step: Step, t: nat)
    requires Enabled(s, step) && LocalHolds(s) && Busy(Apply(s, step), t)
    ensures var s' := Apply(s, step); KeyOf(s'.threads[t]) in s'.held && KeyOf(s'.threads[t]) !in s'.leaked
  {
  }

  lemma BusyAlone(s: State, step: Step, t: nat, u: nat)
    requires Enabled(s, step) && LocalHolds(s) && Busy(Apply(s, step), t) && Busy(Apply(s, step), u)
    ensures var s' := Apply(s, step); KeyOf(s'.threads[t]) == KeyOf(s'.threads[u]) ==> t == u
  {
  }

  lemma HolderKept(s: State, step: Step, key: Key)
    requires Enabled(s, step) && LocalHolds(s) && HasHolder(s, key)
    ensures var s' := Apply(s, step);
            key in s'.held ==> key in s'.leaked || HasHolder(s', key)
  {
    var s' := Apply(s, step);
    var t :| Busy(s, t) && KeyOf(s.threads[t]) == key;
    if Busy(s', t) {
      assert KeyOf(s'.threads[t]) == key;
    }
  }

  lemma ReasonKept(s: State, step: Step)
    requires Enabled(s, step) && LocalHolds(s) && HeldHasReason(s)
    ensures HeldHasReason(Apply(s, step))
  {
    var s' := Apply(s, step);
    forall key | key in s'.held ensures key in s'.leaked || HasHolder(s', key) {
      if key in s.held {
        if key !in s.leaked {
          HolderKept(s, step, key);
        }
      } else {
        assert step.Acquire? && Busy(s', step.t) && KeyOf(s'.threads[step.t]) == key;
      }
    }
  }

  lemma ThreadKept(s: State, step: Step, u: nat)
    requires Enabled(s, step) && ThreadsHold(s) && u in s.threads
    ensures var s' := Apply(s, step);
            u in s'.threads && ThreadFits(s'.threads[u]) && OwnsConnection(s', u) && HoldsAdvisory(s', u)
  {
    FitKept(s, step, u);
    ConnectionKept(s, step, u);
    AdvisoryKept(s, step, u);
  }

  lemma ConnectionKept(s: State, step: Step, u: nat)
    requires Enabled(s, step) && ThreadsHold(s) && u in s.threads
    ensures var s' := Apply(s, step); u in s'.threads && OwnsConnection(s', u)
  {
  }

  lemma FitKept(s: State, step: Step, u: nat)
    requires Enabled(s, step) && ThreadsHold(s) && u in s.threads
    ensures var s' := Apply(s, step); u in s'.threads && ThreadFits(s'.threads[u])
  {
  }

  lemma AdvisoryKept(s: State, step: Step, u: nat)
    requires Enabled(s, step) && ThreadsHold(s) && u in s.threads
    ensures var s' := Apply(s, step); u in s'.threads && HoldsAdvisory(s', u)
  {
    if step.ConnectionDies? {
      AdvisoryOutlivesDeath(s, step.c, u);
    } else if step.t == u {
      AdvisoryKeptByActor(s, step, u);
    } else {
      AdvisoryKeptByOther(s, step, u);
    }
  }

  lemma AdvisoryOutlivesDeath(s: State, c: nat, u: nat)
    requires c in s.conns && ThreadsHold(s) && u in s.threads
    ensures HoldsAdvisory(Apply(s, ConnectionDies(c)), u)
  {
    assert OwnsConnection(s, u) && HoldsAdvisory(s, u);
  }

  lemma AdvisoryKeptByActor(s: State, step: Step, u: nat)
    requires Enabled(s, step) && ThreadsHold(s) && !step.ConnectionDies? && step.t == u
    ensures var s' := Apply(s, step); u in s'.threads && HoldsAdvisory(s', u)
  {
    assert ThreadFits(s.threads[u]) && OwnsConnection(s, u) && HoldsAdvisory(s, u);
  }

  lemma AdvisoryKeptByOther(s: State, step: Step, u: nat)
    requires Enabled(s, step) && ThreadsHold(s) && !step.ConnectionDies? && step.t != u && u in s.threads
    ensures var s' := Apply(s, step); u in s'.threads && HoldsAdvisory(s', u)
  {
    assert OwnsConnection(s, u) && HoldsAdvisory(s, u) && OwnsConnection(s, step.t);
  }

  lemma InvKept(s: State, step: Step)
    requires Enabled(s, step) && Inv(s)
    ensures Inv(Apply(s, step))
  {
    var s' := Apply(s, step);
    LocalKept(s, step);
    ReasonKept(s, step);
    forall u | u in s'.threads ensures ThreadFits(s'.threads[u]) && OwnsConnection(s', u) && HoldsAdvisory(s', u) {
      ThreadKept(s, step, u);
    }
  }

  // --- Runs ---

  ghost predicate Run(s: State, steps: seq<Step>, t: State)
    decreases |steps|
  {
    if steps == [] then s == t
    else Enabled(s, steps[0]) && Run(Apply(s, steps[0]), steps[1..], t)
  }

  lemma {:induction false} RunKeepsInv(s: State, steps: seq<Step>, t: State)
    requires Inv(s) && Run(s, steps, t)
    ensures Inv(t)
    decreases |steps|
  {
    if steps != [] {
      InvKept(s, steps[0]);
      RunKeepsInv(Apply(s, steps[0]), steps[1..], t);
    }
  }

  /** At most one thread of a process is in the body for a name. */
  lemma OnePerProcess(s0: State, steps: seq<Step>, s: State, name: string, t: nat, u: nat)
    requires Initial(s0) && Run(s0, steps, s)
    requires InBody(s, t, name) && InBody(s, u, name) && s.threads[t].process == s.threads[u].process
    ensures t == u
  {
    InitialInv(s0);
    RunKeepsInv(s0, steps, s);
    assert Busy(s, t) && Busy(s, u);
  }

  /** At most one thread overall is in the body for a name with an advisory lock, counting those whose connection lives. */
  lemma OneOverall(s0: State, steps: seq<Step>, s: State, name: string, t: nat, u: nat)
    requires Initial(s0) && Run(s0, steps, s) && LockId(name).Some?
    requires InBody(s, t, name) && LockLives(s, t) && InBody(s, u, name) && LockLives(s, u)
    ensures t == u
  {
    InitialInv(s0);
    RunKeepsInv(s0, steps, s);
    assert HoldsAdvisory(s, t) && HoldsAdvisory(s, u) && OwnsConnection(s, t) && OwnsConnection(s, u);
  }

  /**
   A thread that asks for a name gets in if and only if no thread of its process is inside for that
   name and no exit of its process leaked the name's lock.
   */
  lemma AcquireSucceedsIff(s0: State, steps: seq<Step>, s: State, t: nat, name: string)
    requires Initial(s0) && Run(s0, steps, s) && At(s, t, Idle)
    ensures At(Apply(s, Acquire(t, name)), t, Entered)
       <==> (s.threads[t].process, name) !in s.leaked
            && !exists u :: u in s.threads && s.threads[u].pc != Idle
                            && s.threads[u].process == s.threads[t].process && s.threads[u].name == name
  {
    var key := (s.threads[t].process, name);
    LocalLockIsFreed(s0, steps, s, key);
    if u :| Busy(s, u) && KeyOf(s.threads[u]) == key {
      assert u in s.threads && s.threads[u].pc != Idle;
    }
    if u :| u in s.threads && s.threads[u].pc != Idle && s.threads[u].process == key.0 && s.threads[u].name == name {
      assert Busy(s, u) && KeyOf(s.threads[u]) == key;
    }
  }

  /** The body is entered without an advisory lock for other names or without Postgres, else by being granted it. */
  lemma BodyIsEnteredBy(s: State, step: Step, t: nat)
    requires Inv(s) && Enabled(s, step) && !At(s, t, Body)
    ensures At(Apply(s, step), t, Body) <==>
            || step == BeginLocal(t)
            || step == OpenNothing(t)
            || (step == TryLock(t) && (var id := LockId(s.threads[t].name).Coalesce(Some(0)).value;
                                       id in s.pg ==> Some(s.pg[id].conn) == s.threads[t].conn))
  {
    if t in s.threads {
      assert ThreadFits(s.threads[t]);
    }
  }

  /** With a live connection, the advisory lock is granted if and only if no other connection holds it. */
  lemma TryLockSucceedsIff(s: State, t: nat)
    requires Inv(s) && Enabled(s, TryLock(t))
    ensures var thread := s.threads[t];
            && thread.conn.Some? && LockId(thread.name).Some?
            && (At(Apply(s, TryLock(t)), t, Body) <==>
                  (LockId(thread.name).value in s.pg ==> s.pg[LockId(thread.name).value].conn == thread.conn.value))
            && (At(Apply(s, TryLock(t)), t, Body) || At(Apply(s, TryLock(t)), t, Leaving))
  {
    assert ThreadFits(s.threads[t]);
  }

  /** A local lock is locked exactly while a thread of its process is inside, or after an exit whose close failed. */
  lemma LocalLockIsFreed(s0: State, steps: seq<Step>, s: State, key: Key)
    requires Initial(s0) && Run(s0, steps, s)
    ensures key in s.held <==> HasHolder(s, key) || key in s.leaked
  {
    InitialInv(s0);
    RunKeepsInv(s0, steps, s);
  }

  predicate ClosesBadly(s: State, step: Step, key: Key) {
    step.CloseFails? && step.t in s.threads && KeyOf(s.threads[step.t]) == key
  }

  /** Some step of the run is an exit for the key whose close raised. */
  ghost predicate CloseFailed(s: State, steps: seq<Step>, key: Key)
    decreases |steps|
  {
    steps != [] && Enabled(s, steps[0])
    && (ClosesBadly(s, steps[0], key) || CloseFailed(Apply(s, steps[0]), steps[1..], key))
  }

  lemma {:induction false} LeakedIffCloseFailed(s: State, steps: seq<Step>, t: State, key: Key)
    requires Run(s, steps, t)
    ensures key in t.leaked <==> key in s.leaked || CloseFailed(s, steps, key)
    decreases |steps|
  {
    if steps != [] {
      LeakedIffCloseFailed(Apply(s, steps[0]), steps[1..], t, key);
    }
  }

  /** With everybody outside, a name can be locked again if and only if no exit for it failed to close its connection. */
  lemma LockableIffClosed(s0: State, steps: seq<Step>, s: State, key: Key)
    requires Initial(s0) && Run(s0, steps, s)
    requires Everybody(s, Idle)
    ensures key !in s.held <==> !CloseFailed(s0, steps, key)
  {
    LocalLockIsFreed(s0, steps, s, key);
    LeakedIffCloseFailed(s0, steps, s, key);
  }

  /** Once leaked, the process never runs the job again. */
  lemma LeakIsForever(s0: State, steps: seq<Step>, s: State, more: seq<Step>, t: State, u: nat)
    requires Initial(s0) && Run(s0, steps, s) && Run(s, more, t)
    requires Busy(t, u)
    ensures KeyOf(t.threads[u]) !in s.leaked
  {
    InitialInv(s0);
    RunKeepsInv(s0, steps, s);
    RunKeepsInv(s, more, t);
    LeakedIffCloseFailed(s, more, t, KeyOf(t.threads[u]));
  }

  // --- When the advisory lock comes back ---

  /** The step leaves an advisory lock behind on a live connection. */
  predicate LosesUnlock(s: State, step: Step) {
    match step
    case UnlockFails(t) => LockLives(s, t)
    case TryLockFails(_, granted) => granted
    case _ => false
  }

  /** Every advisory lock is held once, by a thread that will still try to unlock it. */
  ghost predicate HoldsAreOwned(s: State) {
    forall id :: id in s.pg ==> s.pg[id].count == 1 && HasOwner(s, id)
  }

  ghost predicate HasOwner(s: State, id: nat)
    requires id in s.pg
  {
    exists t :: OwnsHold(s, t, id)
  }

  predicate OwnsHold(s: State, t: nat, id: nat)
    requires id in s.pg
  {
    && t in s.threads && s.threads[t].acquired && (s.threads[t].pc == Body || s.threads[t].pc == Leaving)
    && LockId(s.threads[t].name) == Some(id) && s.threads[t].conn == Some(s.pg[id].conn)
    && s.pg[id].conn in s.conns && s.conns[s.pg[id].conn].alive
  }

  lemma OwnerKept(s: State, step: Step, id: nat, t: nat)
    requires Enabled(s, step) && ThreadsHold(s) && !LosesUnlock(s, step)
    requires id in s.pg && s.pg[id].count == 1 && OwnsHold(s, t, id)
    ensures var s' := Apply(s, step); id in s'.pg ==> s'.pg[id].count == 1 && OwnsHold(s', t, id)
  {
    assert ThreadFits(s.threads[t]) && OwnsConnection(s, t);
  }

  lemma NewHoldIsOwned(s: State, step: Step, id: nat)
    requires Enabled(s, step) && ThreadsHold(s) && !LosesUnlock(s, step)
    requires id !in s.pg && id in Apply(s, step).pg
    ensures step.TryLock? && Apply(s, step).pg[id].count == 1 && OwnsHold(Apply(s, step), step.t, id)
  {
  }

  lemma OwnedKept(s: State, step: Step)
    requires Enabled(s, step) && Inv(s) && HoldsAreOwned(s) && !LosesUnlock(s, step)
    ensures HoldsAreOwned(Apply(s, step))
  {
    var s' := Apply(s, step);
    forall id | id in s'.pg ensures s'.pg[id].count == 1 && HasOwner(s', id) {
      if id in s.pg {
        assert HasOwner(s, id);
        var t :| OwnsHold(s, t, id);
        OwnerKept(s, step, id, t);
      } else {
        NewHoldIsOwned(s, step, id);
      }
    }
  }

  ghost predicate NoLostUnlock(s: State, steps: seq<Step>)
    decreases |steps|
  {
    steps == [] || (Enabled(s, steps[0]) && !LosesUnlock(s, steps[0]) && NoLostUnlock(Apply(s, steps[0]), steps[1..]))
  }

  lemma {:induction false} RunKeepsOwned(s: State, steps: seq<Step>, t: State)
    requires Inv(s) && HoldsAreOwned(s) && Run(s, steps, t) && NoLostUnlock(s, steps)
    ensures HoldsAreOwned(t)
    decreases |steps|
  {
    if steps != [] {
      InvKept(s, steps[0]);
      OwnedKept(s, steps[0]);
      RunKeepsOwned(Apply(s, steps[0]), steps[1..], t);
    }
  }

  /** Unless an unlock or a lock's reply was lost, everybody outside means every advisory lock is free. */
  lemma AdvisoryIsFreed(s0: State, steps: seq<Step>, s: State)
    requires Initial(s0) && Run(s0, steps, s) && NoLostUnlock(s0, steps)
    requires Everybody(s, Idle)
    ensures s.pg == map[]
  {
    InitialInv(s0);
    RunKeepsOwned(s0, steps, s);
    SomebodyOwns(s);
  }

  lemma SomebodyOwns(s: State)
    requires HoldsAreOwned(s)
    ensures s.pg == map[] || exists t :: Busy(s, t)
  {
    if id :| id in s.pg {
      assert HasOwner(s, id);
      var t :| OwnsHold(s, t, id);
      assert Busy(s, t);
    }
  }

  /** A holder that leaves keeps the advisory lock locked on its connection exactly when the unlock failed or was not the last. */
  lemma LostUnlockStaysLocked(s: State, step: Step)
    requires Inv(s) && Enabled(s, step) && (step.Unlock? || step.UnlockFails?) && LockLives(s, step.t)
    ensures LockId(s.threads[step.t].name).Some?
    ensures var id := LockId(s.threads[step.t].name).value;
            && id in s.pg
            && (id in Apply(s, step).pg <==> step.UnlockFails? || s.pg[id].count > 1)
  {
    assert HoldsAdvisory(s, step.t);
  }

  // --- The connection must live ---

  lemma {:induction false} RunAppend(s: State, steps: seq<Step>, t: State, more: seq<Step>, u: State)
    requires Run(s, steps, t) && Run(t, more, u)
    ensures Run(s, steps + more, u)
    decreases |steps|
  {
    if steps == [] {
      assert steps + more == more;
    } else {
      RunAppend(Apply(s, steps[0]), steps[1..], t, more, u);
      assert (steps + more)[1..] == steps[1..] + more;
    }
  }

  lemma RunOne(s: State, step: Step)
    requires Enabled(s, step)
    ensures Run(s, [step], Apply(s, step))
  {
    assert Run(Apply(s, step), [step][1..], Apply(s, step));
  }

  /** An idle thread gets into the body for a name that is free on both levels. */
  lemma Enters(s: State, t: nat, name: string, c: nat) returns (steps: seq<Step>, s': State)
    requires At(s, t, Idle) && LockId(name).Some? && (s.threads[t].process, name) !in s.held
    requires c !in s.conns && LockId(name).value !in s.pg
    ensures Run(s, steps, s') && InBody(s', t, name) && LockLives(s', t)
    ensures s'.threads == s.threads[t := Thread(s.threads[t].process, name, Body, Some(c), true)]
    ensures s'.held == s.held + {(s.threads[t].process, name)}
    ensures s'.conns == s.conns[c := Connection(s.threads[t].process, true, Some(t))]
    ensures s'.pg == s.pg[LockId(name).value := Hold(c, 1)]
  {
    var s1 := Apply(s, Acquire(t, name));
    RunOne(s, Acquire(t, name));
    var s2 := Apply(s1, Open(t, c));
    RunOne(s1, Open(t, c));
    RunAppend(s, [Acquire(t, name)], s1, [Open(t, c)], s2);
    s' := Apply(s2, TryLock(t));
    RunOne(s2, TryLock(t));
    RunAppend(s, [Acquire(t, name)] + [Open(t, c)], s2, [TryLock(t)], s');
    steps := [Acquire(t, name)] + [Open(t, c)] + [TryLock(t)];
  }

  lemma DeathFrees(s: State, c: nat, id: nat)
    requires c in s.conns && (id in s.pg ==> s.pg[id].conn == c)
    ensures var s' := Apply(s, ConnectionDies(c));
            && Run(s, [ConnectionDies(c)], s') && id !in s'.pg
            && s'.threads == s.threads && s'.held == s.held && s'.conns.Keys == s.conns.Keys
  {
    RunOne(s, ConnectionDies(c));
  }

  /** Two processes run the same job once the first one's connection has died. */
  lemma DeadConnectionAdmitsTwo(s0: State)
    requires Initial(s0) && 0 in s0.threads && 1 in s0.threads
    requires s0.threads[0].process != s0.threads[1].process
    ensures exists steps, s :: Run(s0, steps, s) && InBody(s, 0, "rss_sync") && InBody(s, 1, "rss_sync")
  {
    var first, mid := EntersAndLosesConnection(s0, 0, 1, "rss_sync");
    var rest, s := SecondEnters(mid, 0, 1, "rss_sync", 11);
    RunAppend(s0, first, mid, rest, s);
  }

  lemma EntersAndLosesConnection(s0: State, t: nat, u: nat, name: string) returns (steps: seq<Step>, s: State)
    requires Initial(s0) && t in s0.threads && u in s0.threads && LockId(name).Some?
    requires s0.threads[t].process != s0.threads[u].process
    ensures Run(s0, steps, s) && InBody(s, t, name) && At(s, u, Idle)
    ensures (s.threads[u].process, name) !in s.held && 11 !in s.conns && LockId(name).value !in s.pg
  {
    var first, entered := Enters(s0, t, name, 10);
    DeathFrees(entered, 10, LockId(name).value);
    s := Apply(entered, ConnectionDies(10));
    steps := first + [ConnectionDies(10)];
    RunAppend(s0, first, entered, [ConnectionDies(10)], s);
  }

  lemma SecondEnters(s: State, t: nat, u: nat, name: string, c: nat) returns (steps: seq<Step>, s': State)
    requires t != u && InBody(s, t, name)
    requires At(s, u, Idle) && LockId(name).Some? && (s.threads[u].process, name) !in s.held
    requires c !in s.conns && LockId(name).value !in s.pg
    ensures Run(s, steps, s') && InBody(s', t, name) && InBody(s', u, name)
  {
    steps, s' := Enters(s, u, name, c);
  }

  // --- Runs in which a clean-up fails ---

  lemma RunThen(s0: State, steps: seq<Step>, s: State, step: Step)
    requires Run(s0, steps, s) && Enabled(s, step)
    ensures Run(s0, steps + [step], Apply(s, step))
  {
    RunOne(s, step);
    RunAppend(s0, steps, s, [step], Apply(s, step));
  }

  /** A lock connection's `close` raises, and the local lock stays locked with everybody outside. */
  lemma CloseFailureLeaks(s0: State, t: nat)
    requires Initial(s0) && t in s0.threads
    ensures exists steps, s :: Run(s0, steps, s) && Everybody(s, Idle) && (s0.threads[t].process, "rss_sync") in s.leaked
  {
    var entering, s1 := Enters(s0, t, "rss_sync", 10);
    var steps, s := LeavesLeaking(s0, entering, s1, t);
  }

  lemma LeavesLeaking(s0: State, steps: seq<Step>, s: State, t: nat) returns (steps': seq<Step>, s': State)
    requires Run(s0, steps, s) && At(s, t, Body) && s.threads[t].acquired && s.threads[t].conn.Some?
    ensures Run(s0, steps', s') && KeyOf(s.threads[t]) in s'.leaked
    ensures s'.threads == s.threads[t := Outside(s.threads[t])]
  {
    RunThen(s0, steps, s, LeaveBody(t));
    var s1 := Apply(s, LeaveBody(t));
    RunThen(s0, steps + [LeaveBody(t)], s1, UnlockFails(t));
    var s2 := Apply(s1, UnlockFails(t));
    RunThen(s0, steps + [LeaveBody(t)] + [UnlockFails(t)], s2, CloseFails(t));
    s' := Apply(s2, CloseFails(t));
    steps' := steps + [LeaveBody(t)] + [UnlockFails(t)] + [CloseFails(t)];
  }

  /** The unlock fails on a live connection; everything else goes well, and everybody is outside. */
  lemma UnlockIsLost(s0: State, t: nat) returns (steps: seq<Step>, s: State)
    requires Initial(s0) && t in s0.threads
    ensures Run(s0, steps, s) && Everybody(s, Idle)
    ensures s.threads.Keys == s0.threads.Keys
    ensures forall u :: u in s.threads ==> s.threads[u].process == s0.threads[u].process
    ensures s.held == {} && s.pg == map[83003 := Hold(10, 1)]
    ensures s.conns == map[10 := Connection(s0.threads[t].process, true, None)]
  {
    var entering, s1 := Enters(s0, t, "rss_sync", 10);
    steps, s := LeavesLosing(s0, entering, s1, t, 10);
  }

  lemma LeavesLosing(s0: State, steps: seq<Step>, s: State, t: nat, c: nat) returns (steps': seq<Step>, s': State)
    requires Run(s0, steps, s) && At(s, t, Body) && s.threads[t].acquired && s.threads[t].conn == Some(c)
    requires c in s.conns
    ensures Run(s0, steps', s')
    ensures s'.threads == s.threads[t := Outside(s.threads[t])]
    ensures s'.held == s.held - {KeyOf(s.threads[t])} && s'.pg == s.pg
    ensures s'.conns == s.conns[c := s.conns[c].(user := None)]
  {
    RunThen(s0, steps, s, LeaveBody(t));
    var s1 := Apply(s, LeaveBody(t));
    RunThen(s0, steps + [LeaveBody(t)], s1, UnlockFails(t));
    var s2 := Apply(s1, UnlockFails(t));
    RunThen(s0, steps + [LeaveBody(t)] + [UnlockFails(t)], s2, Close(t));
    var s3 := Apply(s2, Close(t));
    RunThen(s0, steps + [LeaveBody(t)] + [UnlockFails(t)] + [Close(t)], s3, Free(t));
    s' := Apply(s3, Free(t));
    steps' := steps + [LeaveBody(t)] + [UnlockFails(t)] + [Close(t)] + [Free(t)];
  }

  /** After a lost unlock nobody is inside, and yet a thread of another process is turned away. */
  lemma LostUnlockBlocks(s0: State, t: nat, u: nat)
    requires Initial(s0) && t in s0.threads && u in s0.threads && s0.threads[t].process != s0.threads[u].process
    ensures exists steps, s, more, s' ::
              && Run(s0, steps, s) && Everybody(s, Idle) && 83003 in s.pg
              && Run(s, more, s') && At(s', u, Connected) && s'.threads[u].name == "rss_sync"
              && Enabled(s', TryLock(u)) && At(Apply(s', TryLock(u)), u, Leaving)
  {
    var steps, s := UnlockIsLost(s0, t);
    var more, s' := IsTurnedAway(s, u, "rss_sync", 11);
  }

  lemma IsTurnedAway(s: State, u: nat, name: string, c: nat) returns (steps: seq<Step>, s': State)
    requires At(s, u, Idle) && LockId(name).Some? && (s.threads[u].process, name) !in s.held
    requires c !in s.conns && LockId(name).value in s.pg && s.pg[LockId(name).value].conn != c
    ensures Run(s, steps, s') && At(s', u, Connected) && s'.threads[u].name == name
    ensures Enabled(s', TryLock(u)) && At(Apply(s', TryLock(u)), u, Leaving)
  {
    steps, s' := Connects(s, u, name, c);
  }

  /** A free local lock and a connection of one's own: all that comes before the advisory lock. */
  lemma Connects(s: State, t: nat, name: string, c: nat) returns (steps: seq<Step>, s': State)
    requires At(s, t, Idle) && LockId(name).Some? && (s.threads[t].process, name) !in s.held
    requires c in s.conns ==> s.conns[c].user.None? && s.conns[c].alive && s.conns[c].process == s.threads[t].process
    ensures Run(s, steps, s')
    ensures s'.threads == s.threads[t := s.threads[t].(name := name, pc := Connected, conn := Some(c))]
    ensures s'.pg == s.pg && s'.conns == s.conns[c := Connection(s.threads[t].process, true, Some(t))]
  {
    var s1 := Apply(s, Acquire(t, name));
    RunOne(s, Acquire(t, name));
    RunThen(s, [Acquire(t, name)], s1, Open(t, c));
    steps := [Acquire(t, name)] + [Open(t, c)];
    s' := Apply(s1, Open(t, c));
  }

  /** On the same pooled connection the lock is granted again, and then one unlock is not enough. */
  lemma PooledConnectionHoldsTwice(s0: State, t: nat)
    requires Initial(s0) && t in s0.threads
    ensures exists steps, s :: Run(s0, steps, s) && InBody(s, t, "rss_sync") && 83003 in s.pg && s.pg[83003].count == 2
  {
    var steps, s := UnlockIsLost(s0, t);
    var more, s1 := Connects(s, t, "rss_sync", 10);
    RunAppend(s0, steps, s, more, s1);
    GrantedAgain(s0, steps + more, s1, t);
  }

  lemma GrantedAgain(s0: State, steps: seq<Step>, s: State, t: nat)
    requires Run(s0, steps, s) && At(s, t, Connected) && s.threads[t].name == "rss_sync" && s.threads[t].conn == Some(10)
    requires LockLives(s, t) && s.pg == map[83003 := Hold(10, 1)]
    ensures exists steps, s :: Run(s0, steps, s) && InBody(s, t, "rss_sync") && 83003 in s.pg && s.pg[83003].count == 2
  {
    RunThen(s0, steps, s, TryLock(t));
    var s' := Apply(s, TryLock(t));
    assert InBody(s', t, "rss_sync") && s'.pg[83003].count == 2;
  }
}
