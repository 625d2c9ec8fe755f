/**
 Sessions do not interfere: how one session evolves, and what its participants
 are told, depends on its own record, its own workers, the clock and sweeps.
 */
module Isolation {
  import opened Wrappers
  import opened Records
  import opened SessionRules
  import opened Server
  import opened SessionInvariant
  import opened ServerInvariant
  import opened Sweeping
  import opened Runs

  /** Everything of the server that belongs to one session. */
  datatype View = View(session: Option<Session>, workers: map<nat, Worker>)

  function WorkersOf(workers: map<nat, Worker>, id: string): map<nat, Worker> {
    map t | t in workers && workers[t].session == id :: workers[t]
  }

  function ViewOf(sv: Server, id: string): View {
    View(Get(sv.sessions, id), WorkersOf(sv.workers, id))
  }

  /** The step is a request made with this session's names, or a step of one of its workers. */
  predicate Addresses(v: View, l: Label) {
    match l
    case Create(_, _, _) => false
    case Join(invitation, _, _) => v.session.Some? && v.session.value.invitation == invitation
    case Accept(token) => v.session.Some? && token in v.session.value.participants
    case Submit(token, _, _) => v.session.Some? && token in v.session.value.participants
    case GetResult(token) => v.session.Some? && token in v.session.value.participants
    case GetStatus(token) => v.session.Some? && token in v.session.value.participants
    case Work(thread, action) => thread in v.workers && Enabled(v.workers[thread], action)
  }

  /** The step as the session alone would perform it, with its answer. */
  function LocalStep(env: Env, v: View, l: Label, now: int): (View, Reply)
    requires Addresses(v, l)
  {
    match l
    case Join(_, nonce, newToken) =>
      var (s, reply) := JoinRecord(env, v.session.value, nonce, newToken, now);
      (v.(session := Some(s)), reply)
    case Accept(token) =>
      var (s, reply) := AcceptRecord(env, v.session.value, token, now);
      (v.(session := Some(s)), reply)
    case Submit(token, payload, thread) =>
      var (s, reply) := SubmitRecord(env, v.session.value, token, payload, now);
      if reply == Dispatched
      then (View(Some(s), v.workers[thread := Worker(s.id, Pending, None, [])]), reply)
      else (v.(session := Some(s)), reply)
    case GetResult(_) =>
      var s := Enforce(env.options, v.session.value, now);
      (v.(session := Some(s)), ResultReply(s))
    case GetStatus(_) =>
      var s := Enforce(env.options, v.session.value, now);
      (v.(session := Some(s)), ProgressReply(s))
    case Work(thread, action) =>
      var (w, s) := WorkStep(env, v.workers[thread], v.session, action, now);
      (View(s, v.workers[thread := w]), WorkReply(action))
  }

  /** What the session sees of any step, its own or not. */
  function LocalNext(env: Env, v: View, l: Label, now: int): View {
    if Addresses(v, l) then LocalStep(env, v, l, now).0
    else if l.Create? && v.session.Some? then
      v.(session := if Swept(env.options, v.session.value, now) then None
                    else Some(Enforce(env.options, v.session.value, now)))
    else v
  }

  // ----- every step is local -----

  lemma WorkersOfOther(workers: map<nat, Worker>, thread: nat, w: Worker, id: string)
    requires w.session != id && (thread in workers ==> workers[thread].session != id)
    ensures WorkersOf(workers[thread := w], id) == WorkersOf(workers, id)
  {
  }

  lemma WorkersOfOwn(workers: map<nat, Worker>, thread: nat, w: Worker, id: string)
    requires w.session == id
    ensures WorkersOf(workers[thread := w], id) == WorkersOf(workers, id)[thread := w]
  {
  }

  lemma RequestIsLocal(env: Env, sv: Server, l: Label, now: int, id: string)
    requires Inv(env, sv) && Fresh(sv, l) && id in sv.minted && !l.Create? && !l.Work?
    ensures ViewOf(Apply(env, sv, l, now).0, id) == LocalNext(env, ViewOf(sv, id), l, now)
    ensures Addresses(ViewOf(sv, id), l) ==> Apply(env, sv, l, now).1 == LocalStep(env, ViewOf(sv, id), l, now).1
  {
    hide Inv, RecordOk, JoinRecord, AcceptRecord, SubmitRecord, Enforce, WorkersOf;
    match l
    case Join(invitation, _, _) => InvitedIff(env, sv, invitation, id);
    case Accept(token) => AuthenticateIff(env, sv, token, id);
    case Submit(token, payload, thread) => SubmitIsLocal(env, sv, token, payload, thread, now, id);
    case GetResult(token) => AuthenticateIff(env, sv, token, id);
    case GetStatus(token) => AuthenticateIff(env, sv, token, id);
  }

  lemma SubmitIsLocal(env: Env, sv: Server, token: string, payload: string, thread: nat, now: int, id: string)
    requires Inv(env, sv) && thread !in sv.workers
    ensures var l := Submit(token, payload, thread);
            && ViewOf(SubmitStep(env, sv, token, payload, thread, now).0, id) == LocalNext(env, ViewOf(sv, id), l, now)
            && (Addresses(ViewOf(sv, id), l) ==>
                  SubmitStep(env, sv, token, payload, thread, now).1 == LocalStep(env, ViewOf(sv, id), l, now).1)
  {
    hide Inv, RecordOk, SubmitRecord, Enforce, WorkersOf;
    AuthenticateIff(env, sv, token, id);
    match Authenticate(sv, token)
    case None =>
    case Some(own) =>
      SubmitKeepsId(env, sv, own, token, payload, now);
      var s := SubmitRecord(env, sv.sessions[own], token, payload, now).0;
      var w := Worker(s.id, Pending, None, []);
      if own == id {
        WorkersOfOwn(sv.workers, thread, w, id);
      } else {
        WorkersOfOther(sv.workers, thread, w, id);
      }
  }

  lemma SubmitKeepsId(env: Env, sv: Server, id: string, token: string, payload: string, now: int)
    requires Inv(env, sv) && id in sv.sessions && token in sv.sessions[id].participants
    ensures SubmitRecord(env, sv.sessions[id], token, payload, now).0.id == id
  {
    hide RecordOk, WorkersOk;
  }

  lemma WorkIsLocal(env: Env, sv: Server, thread: nat, action: Action, now: int, id: string)
    requires Inv(env, sv)
    ensures var l := Work(thread, action);
            && ViewOf(WorkerStep(env, sv, thread, action, now).0, id) == LocalNext(env, ViewOf(sv, id), l, now)
            && (Addresses(ViewOf(sv, id), l) ==>
                  WorkerStep(env, sv, thread, action, now).1 == LocalStep(env, ViewOf(sv, id), l, now).1)
  {
    hide Inv, RecordOk, WorkStep, FitsRecord;
    if thread in sv.workers && Enabled(sv.workers[thread], action) {
      var w := sv.workers[thread];
      var (w', s') := WorkStep(env, w, Get(sv.sessions, w.session), action, now);
      WorkStepShape(env, w, Get(sv.sessions, w.session), action, now);
      if w.session == id {
        WorkersOfOwn(sv.workers, thread, w', id);
      } else {
        WorkersOfOther(sv.workers, thread, w', id);
      }
    }
  }

  lemma WorkStepShape(env: Env, w: Worker, s: Option<Session>, a: Action, now: int)
    requires Enabled(w, a)
    ensures var (w', s') := WorkStep(env, w, s, a, now); w'.session == w.session && (s'.Some? <==> s.Some?)
  {
  }

  lemma CreateIsLocal(env: Env, sv: Server, l: Label, now: int, id: string)
    requires Inv(env, sv) && Fresh(sv, l) && id in sv.minted && l.Create?
    ensures ViewOf(Apply(env, sv, l, now).0, id) == LocalNext(env, ViewOf(sv, id), l, now)
  {
    hide Inv, RecordOk, Sweep, CreateStep, Enforce, Evictable;
    SweepParts(env.options, sv, now);
    CreateShape(env, sv, l.policy, l.nonce, l.mint, now);
    assert id in sv.sessions ==> (id in Doomed(env.options, sv, now) <==> Swept(env.options, sv.sessions[id], now));
  }

  /** The effect of any step on a session, and the answer to its own requests, are functions of its view alone. */
  lemma StepIsLocal(env: Env, sv: Server, l: Label, now: int, id: string)
    requires Inv(env, sv) && Fresh(sv, l) && id in sv.minted
    ensures ViewOf(Apply(env, sv, l, now).0, id) == LocalNext(env, ViewOf(sv, id), l, now)
    ensures Addresses(ViewOf(sv, id), l) ==> Apply(env, sv, l, now).1 == LocalStep(env, ViewOf(sv, id), l, now).1
  {
    hide Inv, RecordOk, CreateStep, JoinStep, AcceptStep, SubmitStep, WorkerStep, LocalNext, LocalStep, ViewOf;
    if l.Create? {
      CreateIsLocal(env, sv, l, now, id);
    } else if l.Work? {
      WorkIsLocal(env, sv, l.thread, l.action, now, id);
    } else {
      RequestIsLocal(env, sv, l, now, id);
    }
  }

  /** A request or worker step of one session leaves every other session and its workers as they were. */
  lemma OthersUntouched(env: Env, sv: Server, l: Label, now: int, id: string)
    requires Inv(env, sv) && Fresh(sv, l) && id in sv.minted
    requires !l.Create? && !Addresses(ViewOf(sv, id), l)
    ensures ViewOf(Apply(env, sv, l, now).0, id) == ViewOf(sv, id)
  {
    hide Inv, Apply, Fresh, ViewOf;
    StepIsLocal(env, sv, l, now, id);
  }

  // ----- two runs -----

  /** From this view the two steps cannot be told apart, or both concern other sessions only. */
  predicate Indistinct(v: View, l: Label, m: Label) {
    || l == m
    || (l.Create? && m.Create?)
    || (!l.Create? && !m.Create? && !Addresses(v, l) && !Addresses(v, m))
  }

  /** The schedules agree wherever this session is concerned, and always on the clock. */
  ghost predicate SameSchedule(env: Env, sv: Server, id: string, run: seq<Event>, other: seq<Event>)
    decreases |run|
  {
    && |run| == |other|
    && (run != [] ==>
          && run[0].now == other[0].now
          && Indistinct(ViewOf(sv, id), run[0].step, other[0].step)
          && SameSchedule(env, Next(env, sv, run[0]), id, run[1..], other[1..]))
  }

  /** Everything about one session after each step, with the answers given to its participants. */
  function History(env: Env, sv: Server, id: string, run: seq<Event>): seq<(View, Option<Reply>)>
    decreases |run|
  {
    if run == [] then []
    else
      var (next, reply) := Apply(env, sv, run[0].step, run[0].now);
      [(ViewOf(next, id), if Addresses(ViewOf(sv, id), run[0].step) then Some(reply) else None)]
      + History(env, next, id, run[1..])
  }

  /** Non-interference: two runs that agree on one session's own steps give it the same history. */
  lemma {:induction false} Noninterference(env: Env, sv: Server, sw: Server, id: string, run: seq<Event>, other: seq<Event>)
    requires Inv(env, sv) && Inv(env, sw) && Valid(env, sv, run) && Valid(env, sw, other)
    requires id in sv.minted && id in sw.minted && ViewOf(sv, id) == ViewOf(sw, id)
    requires SameSchedule(env, sv, id, run, other)
    ensures History(env, sv, id, run) == History(env, sw, id, other)
    decreases |run|
  {
    hide Inv, Apply, Fresh, ViewOf, LocalStep, Addresses;
    if run == [] {
    } else {
      var e, f := run[0], other[0];
      StepIsLocal(env, sv, e.step, e.now, id);
      StepIsLocal(env, sw, f.step, f.now, id);
      CreateAddressesNobody(ViewOf(sv, id), e.step);
      CreateAddressesNobody(ViewOf(sv, id), f.step);
      StepKeeps(env, sv, e.step, e.now);
      StepKeeps(env, sw, f.step, f.now);
      StepTokens(env, sv, e.step, e.now, id);
      StepTokens(env, sw, f.step, f.now, id);
      Noninterference(env, Next(env, sv, e), Next(env, sw, f), id, run[1..], other[1..]);
    }
  }

  lemma CreateAddressesNobody(v: View, l: Label)
    ensures l.Create? ==> !Addresses(v, l)
  {
  }

  /** In particular: what another session's participant submits changes nothing here, now or later. */
  lemma PayloadsDoNotLeak(env: Env, sv: Server, id: string, token: string, p: string, q: string, thread: nat, now: int,
                          rest: seq<Event>, other: seq<Event>)
    requires Inv(env, sv) && id in sv.sessions && token !in sv.sessions[id].participants
    requires Valid(env, sv, [Event(Submit(token, p, thread), now)] + rest)
    requires Valid(env, sv, [Event(Submit(token, q, thread), now)] + other)
    requires SameSchedule(env, Next(env, sv, Event(Submit(token, p, thread), now)), id, rest, other)
    ensures History(env, sv, id, [Event(Submit(token, p, thread), now)] + rest)
            == History(env, sv, id, [Event(Submit(token, q, thread), now)] + other)
  {
    hide Inv, Apply, Fresh, History;
    var run, twin := [Event(Submit(token, p, thread), now)] + rest, [Event(Submit(token, q, thread), now)] + other;
    assert run[1..] == rest && twin[1..] == other;
    RecordAndName(env, sv, id);
    Noninterference(env, sv, sv, id, run, twin);
  }
}
