/**
 The shared key-set cache of the attestation verifier, with its lock-free fast
 path, its double-checked lock and the forced refresh after an unknown key id.
 Any number of verifier threads interleave; one step is one dictionary access or
 one lock operation.
 */
module Jwks {
  import opened Wrappers

  const TTL: int := 86400

  /** A fetched key set: the clock reading of its fetch, and the number of the event that fetched it. */
  datatype Keys = Keys(fetchedAt: int, serial: nat)

  datatype Point =
    | Begin       // about to read the clock
    | Look        // fast path: is there data?
    | Age         // fast path: is it young enough?
    | Take        // fast path: read the data
    | Wait        // about to acquire the lock
    | Recheck     // holding the lock: check again
    | Fetch       // holding the lock: fetch
    | StoreData   // holding the lock: data fetched, not yet stored
    | StoreTime   // holding the lock: data stored, timestamp not yet
    | Hand        // holding the lock: read the data and release
    | Search      // look the key id up
    | Miss        // unknown key id: about to acquire the lock
    | Reset       // holding the lock: zero the timestamp and release
    | Done
    | Failed

  /** `second` says that the thread has been through its forced refresh; `missedAt` when. */
  datatype Thread = Thread(point: Point, second: bool, now: int, got: Option<Keys>, fetched: Option<Keys>, missedAt: nat)

  datatype State = State(
    data: Option<Keys>, timestamp: int, lock: Option<nat>,
    clock: int, events: nat, resetAt: nat, threads: map<nat, Thread>)

  /** A thread starts, or takes its next step; time passes; fetches fail and keys are found or not. */
  datatype Event = Event(thread: nat, elapsed: nat, success: bool)

  predicate Initial(st: State) {
    st.data.None? && st.timestamp == 0 && st.lock.None? && st.resetAt == 0 && st.threads == map[]
  }

  function NewThread(): Thread { Thread(Begin, false, 0, None, None, 0) }

  predicate Stale(st: State, now: int) {
    st.data.None? || now - st.timestamp > TTL
  }

  /** Write a thread's new locals back. */
  function Put(st: State, t: nat, th: Thread): State {
    st.(threads := st.threads[t := th])
  }

  function Step(before: State, e: Event): State {
    var st := before.(clock := before.clock + e.elapsed, events := before.events + 1);
    var t := e.thread;
    if t !in st.threads then Put(st, t, NewThread())
    else
      var th := st.threads[t];
      match th.point
      case Begin => Put(st, t, th.(now := st.clock, point := Look))
      case Look => Put(st, t, th.(point := if st.data.Some? then Age else Wait))
      case Age => Put(st, t, th.(point := if th.now - st.timestamp <= TTL then Take else Wait))
      case Take => Put(st, t, th.(got := st.data, point := Search))
      case Wait => if st.lock.Some? then st else Put(st.(lock := Some(t)), t, th.(point := Recheck))
      case Recheck => Put(st, t, th.(point := if Stale(st, th.now) then Fetch else Hand))
      case Fetch =>
        if e.success then Put(st, t, th.(fetched := Some(Keys(st.clock, st.events)), point := StoreData))
        else Put(st.(lock := None), t, th.(point := Failed))
      case StoreData => Put(st.(data := th.fetched), t, th.(point := StoreTime))
      case StoreTime => Put(st.(timestamp := th.now), t, th.(point := Hand))
      case Hand => Put(st.(lock := None), t, th.(got := st.data, point := Search))
      case Search => Put(st, t, th.(point := if e.success then Done else if th.second then Failed else Miss))
      case Miss => if st.lock.Some? then st else Put(st.(lock := Some(t)), t, th.(point := Reset))
      case Reset =>
        Put(st.(timestamp := 0, lock := None, resetAt := st.events), t,
            th.(point := Begin, second := true, got := None, fetched := None, missedAt := st.events))
      case Done => st
      case Failed => st
  }

  function Run(st: State, run: seq<Event>): State
    decreases |run|
  {
    if run == [] then st else Run(Step(st, run[0]), run[1..])
  }

  // ----- the invariant -----

  predicate Locked(p: Point) {
    p in {Recheck, Fetch, StoreData, StoreTime, Hand, Reset}
  }

  /** Young enough for the thread's own clock reading, and newer than its own refresh. */
  predicate GoodFor(th: Thread, keys: Option<Keys>) {
    && keys.Some?
    && keys.value.fetchedAt >= th.now - TTL
    && (th.second ==> keys.value.serial > th.missedAt)
  }

  predicate CacheOk(st: State) {
    && st.clock > TTL && st.resetAt <= st.events && 0 <= st.timestamp <= st.clock
    && (st.data.Some? ==> st.timestamp <= st.data.value.fetchedAt <= st.clock && st.data.value.serial <= st.events)
    && (st.timestamp != 0 ==> st.data.Some? && st.data.value.serial > st.resetAt)
  }

  /** Fetched under the lock: newer than the last refresh, and nothing newer is cached. */
  predicate FetchOk(st: State, th: Thread) {
    && th.fetched.Some?
    && th.now <= th.fetched.value.fetchedAt <= st.clock
    && st.resetAt < th.fetched.value.serial <= st.events
    && (st.data.Some? ==> st.data.value.fetchedAt <= th.fetched.value.fetchedAt
                          && st.data.value.serial <= th.fetched.value.serial)
  }

  predicate ThreadOk(st: State, t: nat, th: Thread) {
    && (Locked(th.point) <==> st.lock == Some(t))
    && (th.second ==> th.missedAt <= st.resetAt)
    && (th.point != Begin ==> TTL < th.now <= st.clock)
    && (th.point == Age ==> st.data.Some?)
    && (th.point == Take ==> GoodFor(th, st.data))
    && (th.point == StoreData ==> FetchOk(st, th))
    && (th.point == StoreTime ==> FetchOk(st, th) && st.data == th.fetched)
    && (th.point == Hand ==> GoodFor(th, st.data))
    && (th.point in {Search, Miss, Reset, Done} ==> GoodFor(th, th.got))
  }

  predicate Inv(st: State) {
    && CacheOk(st)
    && (st.lock.Some? ==> st.lock.value in st.threads && Locked(st.threads[st.lock.value].point))
    && forall t | t in st.threads :: ThreadOk(st, t, st.threads[t])
  }

  /** What one thread's step may do to what the other threads rely on. */
  predicate Advances(st: State, st': State, t: nat) {
    && st.clock <= st'.clock && st.resetAt <= st'.resetAt <= st'.events && st.events < st'.events
    && (st.data.Some? ==>
          && st'.data.Some? && st.data.value.fetchedAt <= st'.data.value.fetchedAt
          && st.data.value.serial <= st'.data.value.serial)
    && (st.lock != Some(t) && st.lock.Some? ==>
          st'.lock == st.lock && st'.data == st.data && st'.resetAt == st.resetAt)
    && (st.lock == None ==> st'.lock == None || st'.lock == Some(t))
    && (st.lock == Some(t) ==> st'.lock == None || st'.lock == Some(t))
  }

  lemma OthersKeep(st: State, st': State, t: nat, u: nat, th: Thread)
    requires ThreadOk(st, u, th) && u != t && Advances(st, st', t)
    ensures ThreadOk(st', u, th)
  {
  }

  lemma StepAdvances(st: State, e: Event)
    requires Inv(st)
    ensures Advances(st, Step(st, e), e.thread)
  {
    if e.thread in st.threads {
      assert ThreadOk(st, e.thread, st.threads[e.thread]);
    }
  }

  lemma StepKeepsCache(st: State, e: Event)
    requires Inv(st)
    ensures CacheOk(Step(st, e))
  {
    if e.thread in st.threads {
      assert ThreadOk(st, e.thread, st.threads[e.thread]);
    }
  }

  lemma FastStepKeepsOwn(st: State, e: Event)
    requires Inv(st) && e.thread in st.threads && st.threads[e.thread].point in {Begin, Look, Age, Take, Search, Done, Failed}
    ensures ThreadOk(Step(st, e), e.thread, Step(st, e).threads[e.thread])
  {
    assert ThreadOk(st, e.thread, st.threads[e.thread]);
  }

  lemma LockStepKeepsOwn(st: State, e: Event)
    requires Inv(st) && e.thread in st.threads && st.threads[e.thread].point in {Wait, Recheck, Miss, Reset}
    ensures ThreadOk(Step(st, e), e.thread, Step(st, e).threads[e.thread])
  {
    assert ThreadOk(st, e.thread, st.threads[e.thread]);
  }

  lemma FetchStepKeepsOwn(st: State, e: Event)
    requires Inv(st) && e.thread in st.threads && st.threads[e.thread].point in {Fetch, StoreData, StoreTime, Hand}
    ensures ThreadOk(Step(st, e), e.thread, Step(st, e).threads[e.thread])
  {
    assert ThreadOk(st, e.thread, st.threads[e.thread]);
  }

  lemma StepKeepsOwn(st: State, e: Event)
    requires Inv(st)
    ensures ThreadOk(Step(st, e), e.thread, Step(st, e).threads[e.thread])
  {
    if e.thread in st.threads {
      hide Inv, Step, ThreadOk;
      match st.threads[e.thread].point
      case Wait => LockStepKeepsOwn(st, e);
      case Recheck => LockStepKeepsOwn(st, e);
      case Miss => LockStepKeepsOwn(st, e);
      case Reset => LockStepKeepsOwn(st, e);
      case Fetch => FetchStepKeepsOwn(st, e);
      case StoreData => FetchStepKeepsOwn(st, e);
      case StoreTime => FetchStepKeepsOwn(st, e);
      case Hand => FetchStepKeepsOwn(st, e);
      case _ => FastStepKeepsOwn(st, e);
    }
  }

  lemma StepKeepsLock(st: State, e: Event)
    requires Inv(st)
    ensures var st' := Step(st, e);
            st'.lock.Some? ==> st'.lock.value in st'.threads && Locked(st'.threads[st'.lock.value].point)
  {
    if e.thread in st.threads {
      assert ThreadOk(st, e.thread, st.threads[e.thread]);
    }
  }

  lemma StepKeeps(st: State, e: Event)
    requires Inv(st)
    ensures Inv(Step(st, e))
  {
    hide CacheOk, ThreadOk, Advances, Locked;
    var st' := Step(st, e);
    StepKeepsCache(st, e);
    StepKeepsLock(st, e);
    StepAdvances(st, e);
    StepKeepsOwn(st, e);
    StepTouchesOne(st, e);
    forall u | u in st'.threads && u != e.thread ensures ThreadOk(st', u, st'.threads[u]) {
      OthersKeep(st, st', e.thread, u, st.threads[u]);
    }
  }

  lemma StepTouchesOne(st: State, e: Event)
    ensures var st' := Step(st, e);
            forall u | u in st'.threads && u != e.thread :: u in st.threads && st'.threads[u] == st.threads[u]
  {
  }

  lemma {:induction false} RunKeeps(st: State, run: seq<Event>)
    requires Inv(st)
    ensures Inv(Run(st, run))
    decreases |run|
  {
    hide Inv, Step;
    if run == [] {
    } else {
      StepKeeps(st, run[0]);
      RunKeeps(Step(st, run[0]), run[1..]);
    }
  }

  /**
   The keys any thread searches were fetched no longer than the TTL before its own
   clock reading, and after a forced refresh they were fetched after that refresh
   invalidated the cache.
   */
  predicate SearchesFresh(st: State) {
    forall t | t in st.threads && st.threads[t].point in {Search, Miss, Reset, Done} ::
      var th := st.threads[t];
      && th.got.Some? && th.got.value.fetchedAt >= th.now - 86400
      && (th.second ==> th.got.value.serial > th.missedAt)
  }

  /** Freshness in every interleaving, for a clock that starts past the TTL, as Unix time does. */
  lemma KeysAreFresh(st: State, run: seq<Event>)
    requires Initial(st) && st.clock > 86400
    ensures SearchesFresh(Run(st, run))
  {
    hide Step, CacheOk;
    InitialOk(st);
    RunKeeps(st, run);
    assert forall t | t in Run(st, run).threads :: ThreadOk(Run(st, run), t, Run(st, run).threads[t]);
  }

  lemma InitialOk(st: State)
    requires Initial(st) && st.clock > TTL
    ensures Inv(st)
  {
  }

  // ----- the check inside the lock -----

  /** One thread's part in the mutual exclusion; a thread about to fetch still sees a stale cache. */
  predicate Excluded(st: State, t: nat, th: Thread) {
    && (Locked(th.point) <==> st.lock == Some(t))
    && (th.point == Fetch ==> Stale(st, th.now))
    && (th.point == StoreData ==> th.fetched.Some?)
    && (th.point == StoreTime ==> st.data.Some?)
  }

  /** Mutual exclusion, whatever the clock reads. */
  predicate Exclusive(st: State) {
    && (st.lock.Some? ==> st.lock.value in st.threads)
    && forall t | t in st.threads :: Excluded(st, t, st.threads[t])
  }

  lemma StepKeepsExclusive(st: State, e: Event)
    requires Exclusive(st)
    ensures Exclusive(Step(st, e))
  {
    hide Excluded;
    var st' := Step(st, e);
    StepTouchesOne(st, e);
    OwnExclusion(st, e);
    forall u | u in st'.threads && u != e.thread ensures Excluded(st', u, st'.threads[u]) {
      OtherExclusion(st, e, u);
    }
  }

  lemma OwnExclusion(st: State, e: Event)
    requires Exclusive(st)
    ensures var st' := Step(st, e);
            && e.thread in st'.threads && Excluded(st', e.thread, st'.threads[e.thread])
            && (st'.lock.Some? ==> st'.lock.value in st'.threads)
  {
    if e.thread in st.threads {
      assert Excluded(st, e.thread, st.threads[e.thread]);
    }
  }

  lemma OtherExclusion(st: State, e: Event, u: nat)
    requires Exclusive(st) && u in st.threads && u != e.thread
    ensures Excluded(Step(st, e), u, st.threads[u])
  {
    assert Excluded(st, u, st.threads[u]);
    if e.thread in st.threads {
      assert Excluded(st, e.thread, st.threads[e.thread]);
    }
  }

  lemma {:induction false} RunKeepsExclusive(st: State, run: seq<Event>)
    requires Exclusive(st)
    ensures Exclusive(Run(st, run))
    decreases |run|
  {
    hide Exclusive, Step;
    if run == [] {
    } else {
      StepKeepsExclusive(st, run[0]);
      RunKeepsExclusive(Step(st, run[0]), run[1..]);
    }
  }

  /** The run zeroes the timestamp nowhere. */
  predicate NoReset(st: State, run: seq<Event>)
    decreases |run|
  {
    run != [] ==>
      && !(run[0].thread in st.threads && st.threads[run[0].thread].point == Reset)
      && NoReset(Step(st, run[0]), run[1..])
  }

  /** The thread inside the lock has fetched and not yet stored the timestamp. */
  predicate Storing(st: State) {
    && st.lock.Some? && st.lock.value in st.threads
    && (st.threads[st.lock.value].point == StoreData || st.threads[st.lock.value].point == StoreTime)
  }

  /** A key set fetched for clock reading `now`, or a later one, is in the cache or on its way there. */
  predicate Fetched(st: State, now: int) {
    if Storing(st) then st.threads[st.lock.value].now >= now
    else st.data.Some? && st.timestamp >= now
  }

  lemma StepKeepsFetched(st: State, e: Event, now: int)
    requires Exclusive(st) && Fetched(st, now)
    requires !(e.thread in st.threads && st.threads[e.thread].point == Reset)
    ensures Fetched(Step(st, e), now)
  {
    if e.thread in st.threads {
      assert Excluded(st, e.thread, st.threads[e.thread]);
    }
  }

  lemma {:induction false} RunKeepsFetched(st: State, run: seq<Event>, now: int)
    requires Exclusive(st) && Fetched(st, now) && NoReset(st, run)
    ensures Fetched(Run(st, run), now)
    decreases |run|
  {
    hide Exclusive, Fetched, Step;
    if run == [] {
    } else {
      StepKeepsExclusive(st, run[0]);
      StepKeepsFetched(st, run[0], now);
      RunKeepsFetched(Step(st, run[0]), run[1..], now);
    }
  }

  /**
   What checking again inside the lock buys: in every interleaving, between two fetches
   there is a forced refresh, or their threads' clock readings are more than the TTL
   apart. Threads that pile up on one stale cache cause one fetch.
   */
  lemma FetchesAreApart(st: State, past: seq<Event>, first: Event, between: seq<Event>, second: nat)
    requires Initial(st)
    requires var before := Run(st, past);
             && first.thread in before.threads && before.threads[first.thread].point == Fetch && first.success
             && NoReset(Step(before, first), between)
             && var after := Run(Step(before, first), between);
                second in after.threads && after.threads[second].point == Fetch
    ensures var before := Run(st, past);
            var after := Run(Step(before, first), between);
            after.threads[second].now - before.threads[first.thread].now > 86400
  {
    hide Run;
    var before := Run(st, past);
    var now := before.threads[first.thread].now;
    RunKeepsExclusive(st, past);
    StepKeepsExclusive(before, first);
    FetchIsOnItsWay(before, first);
    RunKeepsExclusive(Step(before, first), between);
    RunKeepsFetched(Step(before, first), between, now);
    AtFetch(Run(Step(before, first), between), second, now);
  }

  lemma FetchIsOnItsWay(st: State, e: Event)
    requires Exclusive(st) && e.thread in st.threads && st.threads[e.thread].point == Fetch && e.success
    ensures Fetched(Step(st, e), st.threads[e.thread].now)
  {
    assert Excluded(st, e.thread, st.threads[e.thread]);
  }

  lemma AtFetch(st: State, t: nat, now: int)
    requires Exclusive(st) && Fetched(st, now) && t in st.threads && st.threads[t].point == Fetch
    ensures st.threads[t].now - now > TTL
  {
    assert Excluded(st, t, st.threads[t]);
  }

  // ----- the lock is given back -----

  /** Steps a thread inside the lock can take before it leaves. */
  function StepsInside(p: Point): nat {
    match p
    case Recheck => 5
    case Fetch => 4
    case StoreData => 3
    case StoreTime => 2
    case Hand => 1
    case Reset => 1
    case _ => 0
  }

  /** How often the run lets thread `t` take a step. */
  function Turns(run: seq<Event>, t: nat): nat {
    if run == [] then 0 else (if run[0].thread == t then 1 else 0) + Turns(run[1..], t)
  }

  lemma HolderAdvances(st: State, e: Event, t: nat)
    requires Exclusive(st) && st.lock == Some(t)
    ensures var st' := Step(st, e);
            || st'.lock.None?
            || (&& st'.lock == Some(t)
                && if e.thread == t then StepsInside(st'.threads[t].point) < StepsInside(st.threads[t].point)
                   else st'.threads[t] == st.threads[t])
  {
    assert Excluded(st, t, st.threads[t]);
    if e.thread in st.threads {
      assert Excluded(st, e.thread, st.threads[e.thread]);
    }
  }

  /**
   No deadlock: in every interleaving, whatever the outcome of its fetch, the thread
   inside the lock gives it back within five steps of its own.
   */
  lemma {:induction false} LockIsGivenBack(st: State, run: seq<Event>, t: nat)
    requires Exclusive(st) && st.lock == Some(t) && Turns(run, t) >= StepsInside(st.threads[t].point)
    ensures StepsInside(st.threads[t].point) <= 5
    ensures exists k | 0 <= k <= |run| :: Run(st, run[..k]).lock.None?
    decreases |run|
  {
    hide Step, Exclusive;
    assert 0 < StepsInside(st.threads[t].point) by { HolderIsInside(st, t); }
    HolderAdvances(st, run[0], t);
    StepKeepsExclusive(st, run[0]);
    var next := Step(st, run[0]);
    var k: nat;
    if next.lock.None? {
      k := 0;
      assert Run(next, run[1..][..0]) == next;
    } else {
      LockIsGivenBack(next, run[1..], t);
      k :| 0 <= k <= |run[1..]| && Run(next, run[1..][..k]).lock.None?;
    }
    assert run[..k + 1][1..] == run[1..][..k] && run[..k + 1][0] == run[0];
    assert Run(st, run[..k + 1]) == Run(next, run[1..][..k]);
  }

  lemma HolderIsInside(st: State, t: nat)
    requires Exclusive(st) && st.lock == Some(t)
    ensures t in st.threads && 0 < StepsInside(st.threads[t].point)
  {
    assert Excluded(st, t, st.threads[t]);
  }

  // ----- the assumption on the clock is needed -----

  lemma {:induction false} RunSnoc(st: State, run: seq<Event>, e: Event)
    ensures Run(st, run + [e]) == Step(Run(st, run), e)
    decreases |run|
  {
    hide Step;
    if run == [] {
      assert (run + [e])[1..] == [];
    } else {
      assert (run + [e])[1..] == run[1..] + [e];
      RunSnoc(Step(st, run[0]), run[1..], e);
    }
  }

  /** Thread 0 alone, `n` events after `st`, no time having passed. */
  function Solo(st: State, n: nat, data: Option<Keys>, timestamp: int, locked: bool, resetAt: nat, th: Thread): State {
    State(data, timestamp, if locked then Some(0) else None, st.clock, st.events + n, resetAt, map[0 := th])
  }

  /** One more step of thread 0 leads from `before` to `after`. */
  lemma Then(st: State, run: seq<Event>, success: bool, before: State, after: State) returns (longer: seq<Event>)
    requires Run(st, run) == before && Step(before, Event(0, 0, success)) == after
    ensures Run(st, longer) == after
  {
    hide Step;
    longer := run + [Event(0, 0, success)];
    RunSnoc(st, run, Event(0, 0, success));
  }

  /** A first lookup fetches and stores a key set. */
  lemma FirstLookup(st: State) returns (run: seq<Event>)
    requires Initial(st)
    ensures var keys := Some(Keys(st.clock, st.events + 6));
            Run(st, run) == Solo(st, 9, keys, st.clock, false, 0, Thread(Search, false, st.clock, keys, keys, 0))
  {
    hide Run;
    var now := st.clock;
    var keys := Some(Keys(now, st.events + 6));
    assert Run(st, []) == st by { RunNothing(st); }
    var s1 := Solo(st, 1, None, 0, false, 0, Thread(Begin, false, 0, None, None, 0));
    run := Then(st, [], true, st, s1);
    var s2 := Solo(st, 2, None, 0, false, 0, Thread(Look, false, now, None, None, 0));
    run := Then(st, run, true, s1, s2);
    var s3 := Solo(st, 3, None, 0, false, 0, Thread(Wait, false, now, None, None, 0));
    run := Then(st, run, true, s2, s3);
    var s4 := Solo(st, 4, None, 0, true, 0, Thread(Recheck, false, now, None, None, 0));
    run := Then(st, run, true, s3, s4);
    var s5 := Solo(st, 5, None, 0, true, 0, Thread(Fetch, false, now, None, None, 0));
    run := Then(st, run, true, s4, s5);
    var s6 := Solo(st, 6, None, 0, true, 0, Thread(StoreData, false, now, None, keys, 0));
    run := Then(st, run, true, s5, s6);
    var s7 := Solo(st, 7, keys, 0, true, 0, Thread(StoreTime, false, now, None, keys, 0));
    run := Then(st, run, true, s6, s7);
    var s8 := Solo(st, 8, keys, now, true, 0, Thread(Hand, false, now, None, keys, 0));
    run := Then(st, run, true, s7, s8);
    run := Then(st, run, true, s8, Solo(st, 9, keys, now, false, 0, Thread(Search, false, now, keys, keys, 0)));
  }

  lemma RunNothing(st: State)
    ensures Run(st, []) == st
  {
  }

  /** It misses the key id and zeroes the timestamp. */
  lemma ThenMiss(st: State) returns (run: seq<Event>)
    requires Initial(st)
    ensures var keys, at := Some(Keys(st.clock, st.events + 6)), st.events + 12;
            Run(st, run) == Solo(st, 12, keys, 0, false, at, Thread(Begin, true, st.clock, None, None, at))
  {
    hide Run;
    var now, at := st.clock, st.events + 12;
    var keys := Some(Keys(now, st.events + 6));
    run := FirstLookup(st);
    var s9 := Solo(st, 9, keys, now, false, 0, Thread(Search, false, now, keys, keys, 0));
    var s10 := Solo(st, 10, keys, now, false, 0, Thread(Miss, false, now, keys, keys, 0));
    run := Then(st, run, false, s9, s10);
    var s11 := Solo(st, 11, keys, now, true, 0, Thread(Reset, false, now, keys, keys, 0));
    run := Then(st, run, true, s10, s11);
    run := Then(st, run, true, s11, Solo(st, 12, keys, 0, false, at, Thread(Begin, true, now, None, None, at)));
  }

  /** With the clock within the TTL of zero, the miss is answered from the cache it meant to invalidate. */
  lemma EarlyMiss(st: State) returns (run: seq<Event>)
    requires Initial(st) && st.clock <= TTL
    ensures var keys, at := Some(Keys(st.clock, st.events + 6)), st.events + 12;
            Run(st, run) == Solo(st, 16, keys, 0, false, at, Thread(Search, true, st.clock, keys, None, at))
  {
    hide Run;
    var now, at := st.clock, st.events + 12;
    var keys := Some(Keys(now, st.events + 6));
    run := ThenMiss(st);
    var s12 := Solo(st, 12, keys, 0, false, at, Thread(Begin, true, now, None, None, at));
    var s13 := Solo(st, 13, keys, 0, false, at, Thread(Look, true, now, None, None, at));
    run := Then(st, run, true, s12, s13);
    var s14 := Solo(st, 14, keys, 0, false, at, Thread(Age, true, now, None, None, at));
    run := Then(st, run, true, s13, s14);
    var s15 := Solo(st, 15, keys, 0, false, at, Thread(Take, true, now, None, None, at));
    run := Then(st, run, true, s14, s15);
    run := Then(st, run, true, s15, Solo(st, 16, keys, 0, false, at, Thread(Search, true, now, keys, None, at)));
  }

  /** Every interleaving searches fresh keys if and only if the clock starts past the TTL. */
  lemma AlwaysFreshIff(st: State)
    requires Initial(st)
    ensures (forall run: seq<Event> :: SearchesFresh(Run(st, run))) <==> st.clock > 86400
  {
    hide Step, Run;
    if st.clock > TTL {
      forall run: seq<Event> ensures SearchesFresh(Run(st, run)) {
        KeysAreFresh(st, run);
      }
    } else {
      var run := EarlyMiss(st);
      var th := Run(st, run).threads[0];
      assert th.second && th.got.value.serial <= th.missedAt;
    }
  }
}
