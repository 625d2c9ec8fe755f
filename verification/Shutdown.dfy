/** The destructor's wait ends: workers take boundedly many steps, and can take one for as long as any is left. */
module Shutdown {
  import opened Wrappers
  import opened Records
  import opened SessionRules
  import opened Server
  import opened SessionInvariant
  import opened ServerInvariant
  import opened Sweeping
  import opened Guarantees

  /** Steps a worker at this program point can still take. */
  function StepsLeft(p: Point): nat {
    match p
    case Pending => 5
    case Started => 4
    case Holding => 3
    case Ready => 2
    case Leaving => 1
    case Exited => 0
  }

  /** The steps left, each tagged with its thread. */
  function Budget(workers: map<nat, Worker>): set<(nat, int)> {
    set t, k | t in workers && 0 <= k < StepsLeft(workers[t].point) :: (t, k)
  }

  predicate TakesStep(sv: Server, l: Label) {
    l.Work? && l.thread in sv.workers && Enabled(sv.workers[l.thread], l.action)
  }

  /** Worker steps of the run that were possible when scheduled. */
  function StepsTaken(env: Env, sv: Server, run: seq<Event>): nat
    decreases |run|
  {
    if run == [] then 0
    else (if TakesStep(sv, run[0].step) then 1 else 0) + StepsTaken(env, Next(env, sv, run[0]), run[1..])
  }

  /** Submissions of the run that started a worker. */
  function Dispatches(env: Env, sv: Server, run: seq<Event>): nat
    decreases |run|
  {
    if run == [] then 0
    else (if Apply(env, sv, run[0].step, run[0].now).1 == Dispatched then 1 else 0)
         + Dispatches(env, Next(env, sv, run[0]), run[1..])
  }

  // ----- one step -----

  lemma ThreadPays(workers: map<nat, Worker>, t: nat, w: Worker)
    requires t in workers && StepsLeft(w.point) < StepsLeft(workers[t].point)
    ensures |Budget(workers[t := w])| < |Budget(workers)|
  {
    var k := StepsLeft(workers[t].point) - 1;
    assert (t, k) in Budget(workers) && (t, k) !in Budget(workers[t := w]);
    assert Budget(workers[t := w]) <= Budget(workers) - {(t, k)};
    SubsetOfSameSize(Budget(workers[t := w]), Budget(workers) - {(t, k)});
  }

  lemma ThreadStarts(workers: map<nat, Worker>, t: nat, w: Worker)
    ensures |Budget(workers[t := w])| <= |Budget(workers)| + 5
  {
    var tags := Tags(t, 5);
    TagsCount(t, 5);
    assert Budget(workers[t := w]) <= Budget(workers) + tags;
    SubsetOfSameSize(Budget(workers[t := w]), Budget(workers) + tags);
  }

  lemma WorkPays(env: Env, w: Worker, s: Option<Session>, a: Action, now: int)
    requires Enabled(w, a)
    ensures StepsLeft(WorkStep(env, w, s, a, now).0.point) < StepsLeft(w.point)
  {
  }

  /** A worker step costs one, a dispatched submission brings five, nothing else counts. */
  lemma StepCosts(env: Env, sv: Server, l: Label, now: int)
    ensures var (sv', reply) := Apply(env, sv, l, now);
            |Budget(sv'.workers)| + (if TakesStep(sv, l) then 1 else 0)
            <= |Budget(sv.workers)| + if reply == Dispatched then 5 else 0
  {
    hide Budget, WorkStep, CreateStep, JoinRecord, AcceptRecord, SubmitRecord, Enforce;
    match l
    case Create(policy, nonce, mint) =>
      SweepParts(env.options, sv, now);
      CreateShape(env, sv, policy, nonce, mint, now);
    case Submit(token, payload, thread) =>
      var id := Authenticate(sv, token);
      if id.Some? {
        var s := SubmitRecord(env, sv.sessions[id.value], token, payload, now).0;
        ThreadStarts(sv.workers, thread, Worker(s.id, Pending, None, []));
      }
    case Work(thread, a) =>
      if TakesStep(sv, l) {
        var w := sv.workers[thread];
        WorkPays(env, w, Get(sv.sessions, w.session), a, now);
        ThreadPays(sv.workers, thread, WorkStep(env, w, Get(sv.sessions, w.session), a, now).0);
      }
    case _ =>
  }

  // ----- whole runs -----

  lemma {:induction false} StepsAreBounded(env: Env, sv: Server, run: seq<Event>)
    ensures StepsTaken(env, sv, run) + |Budget(After(env, sv, run).workers)|
            <= |Budget(sv.workers)| + 5 * Dispatches(env, sv, run)
    decreases |run|
  {
    hide Apply, Budget, TakesStep;
    if run == [] {
    } else {
      StepCosts(env, sv, run[0].step, run[0].now);
      StepsAreBounded(env, Next(env, sv, run[0]), run[1..]);
    }
  }

  /** Between one and five steps are left to every live thread. */
  lemma {:induction false} BudgetOfLive(workers: map<nat, Worker>)
    ensures |Live(workers)| <= |Budget(workers)| <= 5 * |Live(workers)|
    decreases |workers|
  {
    if workers == map[] {
      assert Live(workers) == {} && Budget(workers) == {};
    } else {
      var t :| t in workers;
      var rest := workers - {t};
      assert rest.Keys == workers.Keys - {t};
      BudgetOfLive(rest);
      OneThread(workers, t);
      assert Live(workers) == Live(rest) + if workers[t].point == Exited then {} else {t};
    }
  }

  lemma OneThread(workers: map<nat, Worker>, t: nat)
    requires t in workers
    ensures |Budget(workers)| == |Budget(workers - {t})| + StepsLeft(workers[t].point)
  {
    hide StepsLeft;
    var tags := Tags(t, StepsLeft(workers[t].point));
    TagsCount(t, StepsLeft(workers[t].point));
    assert Budget(workers) == Budget(workers - {t}) + tags;
    assert Budget(workers - {t}) !! tags;
  }

  function Tags(t: nat, n: nat): set<(nat, int)> {
    set k | 0 <= k < n :: (t, k)
  }

  lemma {:induction false} TagsCount(t: nat, n: nat)
    ensures |Tags(t, n)| == n
  {
    if n == 0 {
    } else {
      TagsCount(t, n - 1);
      assert Tags(t, n) == Tags(t, n - 1) + {(t, n - 1)};
    }
  }

  /** However a server is used, its workers take at most five steps per dispatched submission. */
  lemma FiveStepsPerDispatch(env: Env, run: seq<Event>)
    ensures StepsTaken(env, EMPTY, run) <= 5 * Dispatches(env, EMPTY, run)
  {
    StepsAreBounded(env, EMPTY, run);
    assert Budget(EMPTY.workers) == {};
  }

  predicate OnlyWork(run: seq<Event>) {
    forall e | e in run :: e.step.Work?
  }

  lemma {:induction false} WorkDispatchesNothing(env: Env, sv: Server, run: seq<Event>)
    requires OnlyWork(run)
    ensures Dispatches(env, sv, run) == 0
    decreases |run|
  {
    hide WorkStep;
    if run == [] {
    } else {
      WorkDispatchesNothing(env, Next(env, sv, run[0]), run[1..]);
    }
  }

  lemma {:induction false} WorkIsValid(env: Env, sv: Server, run: seq<Event>)
    requires OnlyWork(run)
    ensures Valid(env, sv, run)
    decreases |run|
  {
    hide WorkStep;
    if run == [] {
    } else {
      WorkIsValid(env, Next(env, sv, run[0]), run[1..]);
    }
  }

  /**
   Once requests stop, the workers take at most five steps for each one counted,
   and the counter is zero exactly when none of them can take another.
   */
  lemma WaitEnds(env: Env, sv: Server, run: seq<Event>)
    requires Reachable(env, sv) && OnlyWork(run)
    ensures StepsTaken(env, sv, run) + After(env, sv, run).active <= 5 * sv.active
    ensures After(env, sv, run).active == 0
            <==> forall t, a | t in After(env, sv, run).workers :: !Enabled(After(env, sv, run).workers[t], a)
  {
    hide Reachable, Inv, Apply, Budget, Enabled;
    ReachableInv(env, sv);
    WorkIsValid(env, sv, run);
    RunKeeps(env, sv, run);
    IdleIff(env, sv);
    IdleIff(env, After(env, sv, run));
    StepsAreBounded(env, sv, run);
    WorkDispatchesNothing(env, sv, run);
    BudgetOfLive(sv.workers);
    BudgetOfLive(After(env, sv, run).workers);
  }

  /** And they can always get there: some schedule of worker steps brings the counter to zero. */
  lemma CanDrain(env: Env, sv: Server) returns (run: seq<Event>)
    requires Inv(env, sv)
    ensures OnlyWork(run) && After(env, sv, run).active == 0
    ensures |run| <= |Budget(sv.workers)| <= 5 * sv.active
    decreases |Budget(sv.workers)|
  {
    hide Inv, Apply, Budget;
    IdleIff(env, sv);
    BudgetOfLive(sv.workers);
    if sv.active == 0 {
      run := [];
    } else {
      var t, a :| t in sv.workers && Enabled(sv.workers[t], a);
      var e := Event(Work(t, a), 0);
      StepCosts(env, sv, e.step, e.now);
      StepKeeps(env, sv, e.step, e.now);
      assert Apply(env, sv, e.step, e.now).1 != Dispatched by { WorkAnswers(env, sv, t, a); }
      var rest := CanDrain(env, Next(env, sv, e));
      run := [e] + rest;
      assert run[1..] == rest;
    }
  }

  lemma WorkAnswers(env: Env, sv: Server, t: nat, a: Action)
    ensures Apply(env, sv, Work(t, a), 0).1 != Dispatched
  {
    hide WorkStep;
  }
}
