/**
 Every session settles: a measure over its record and its pending spawn drops
 with every change of the record, so a session changes at most linearly often in
 the number of expected participants, however many requests arrive.
 */
module Termination {
  import opened Wrappers
  import opened Records
  import opened SessionRules
  import opened Server
  import opened SessionInvariant
  import opened ServerInvariant
  import opened Sweeping
  import opened Runs
  import opened Isolation

  function Rank(phase: Phase): nat {
    match phase
    case Open => 3
    case Sealed => 2
    case Calculating => 1
    case _ => 0
  }

  function PendingThreads(workers: map<nat, Worker>): set<nat> {
    set t | t in workers && workers[t].point == Pending
  }

  /** Missing joins, accepts and inputs, and phases left. */
  function Missing(s: Session): int {
    (s.policy.expected - |s.participants|)
    + (s.policy.expected - |AcceptedTokens(s)|)
    + (s.policy.expected - |SubmittedTokens(s)|)
    + Rank(s.phase)
  }

  function Measure(s: Session, workers: map<nat, Worker>): int {
    Missing(s) + |PendingThreads(workers)|
  }

  lemma MeasureIsNatural(env: Env, s: Session, workers: map<nat, Worker>)
    requires RecordOk(env, s)
    ensures Measure(s, workers) >= 0
  {
    hide PhaseOk, PolicyOk, InputOk, ResultOk;
    SubsetOfSameSize(AcceptedTokens(s), s.participants.Keys);
    SubsetOfSameSize(SubmittedTokens(s), s.participants.Keys);
  }

  // ----- each operation on the record -----

  lemma EnforceDrops(options: Options, s: Session, now: int)
    ensures var e := Enforce(options, s, now); e == s || Missing(e) < Missing(s)
  {
    var e := Enforce(options, s, now);
    assert AcceptedTokens(e) == AcceptedTokens(s) && SubmittedTokens(e) == SubmittedTokens(s);
  }

  lemma JoinDrops(env: Env, s: Session, nonce: string, token: string, now: int)
    requires token !in s.participants
    ensures var s' := JoinRecord(env, s, nonce, token, now).0; s' == s || Missing(s') < Missing(s)
  {
    hide JoinRecord, Missing, AddParticipant, Enforce;
    EnforceDrops(env.options, s, now);
    JoinCases(env, s, nonce, token, now);
    AddCounts(s, nonce, token);
  }

  lemma AddCounts(s: Session, nonce: string, token: string)
    requires token !in s.participants
    ensures Missing(AddParticipant(s, nonce, token)) == Missing(s) - 1
  {
    var s' := AddParticipant(s, nonce, token);
    assert AcceptedTokens(s') == AcceptedTokens(s) && SubmittedTokens(s') == SubmittedTokens(s);
    assert s'.participants.Keys == s.participants.Keys + {token};
  }

  lemma AcceptDrops(env: Env, s: Session, token: string, now: int)
    requires token in s.participants
    ensures var s' := AcceptRecord(env, s, token, now).0; s' == s || Missing(s') < Missing(s)
  {
    EnforceDrops(env.options, s, now);
    var e := Enforce(env.options, s, now);
    if !e.participants[token].accepted && e.phase == Open {
      MarkAcceptedCounts(s, token);
      var s' := AcceptRecord(env, s, token, now).0;
      SameRoster(MarkAccepted(s, token), s');
    }
  }

  lemma MarkAcceptedCounts(s: Session, token: string)
    requires token in s.participants && !s.participants[token].accepted
    ensures var s' := MarkAccepted(s, token); Missing(s') == Missing(s) - 1
  {
    var s' := MarkAccepted(s, token);
    assert s'.participants.Keys == s.participants.Keys;
    assert AcceptedTokens(s') == AcceptedTokens(s) + {token};
    assert SubmittedTokens(s') == SubmittedTokens(s);
  }

  lemma SameRoster(s: Session, s': Session)
    requires s'.participants == s.participants && s'.policy == s.policy
    ensures Missing(s') - Rank(s'.phase) == Missing(s) - Rank(s.phase)
  {
    assert AcceptedTokens(s') == AcceptedTokens(s) && SubmittedTokens(s') == SubmittedTokens(s);
  }

  /** The last input drops the measure twice, which pays for the spawn it makes pending. */
  lemma SubmitDrops(env: Env, s: Session, token: string, payload: string, now: int)
    requires token in s.participants
    ensures var (s', reply) := SubmitRecord(env, s, token, payload, now);
            && (s' == s || Missing(s') < Missing(s))
            && (reply == Dispatched ==> Missing(s') < Missing(s) - 1)
  {
    EnforceDrops(env.options, s, now);
    var e := Enforce(env.options, s, now);
    if !e.participants[token].submitted && e.phase == Sealed && Canonical(env.lib, e, payload).Some? {
      var text := Canonical(env.lib, s, payload).value;
      MarkSubmittedCounts(s, token, text);
      var s' := SubmitRecord(env, s, token, payload, now).0;
      SameRoster(MarkSubmitted(s, token, text), s');
    }
  }

  lemma MarkSubmittedCounts(s: Session, token: string, text: string)
    requires token in s.participants && !s.participants[token].submitted
    ensures var s' := MarkSubmitted(s, token, text); Missing(s') == Missing(s) - 1
  {
    var s' := MarkSubmitted(s, token, text);
    assert s'.participants.Keys == s.participants.Keys;
    assert SubmittedTokens(s') == SubmittedTokens(s) + {token};
    assert AcceptedTokens(s') == AcceptedTokens(s);
  }

  /** Worker steps: a failed spawn may rewrite an aborted record, but it is pending no more. */
  lemma WorkDrops(env: Env, workers: map<nat, Worker>, thread: nat, s: Session, a: Action, now: int)
    requires thread in workers && Enabled(workers[thread], a)
    ensures var (w', s') := WorkStep(env, workers[thread], Some(s), a, now);
            && s'.Some?
            && Measure(s'.value, workers[thread := w']) <= Measure(s, workers)
            && (s'.value != s ==> Measure(s'.value, workers[thread := w']) < Measure(s, workers))
  {
    hide Missing, PendingThreads, Published, JobOf;
    var (w', s') := WorkStep(env, workers[thread], Some(s), a, now);
    SameRoster(s, s'.value);
    PendingAfter(workers, thread, w');
  }

  lemma PendingAfter(workers: map<nat, Worker>, thread: nat, w': Worker)
    requires thread in workers && w'.point != Pending
    ensures |PendingThreads(workers[thread := w'])|
            == |PendingThreads(workers)| - (if workers[thread].point == Pending then 1 else 0)
  {
    assert PendingThreads(workers[thread := w']) == PendingThreads(workers) - {thread};
  }

  // ----- any step of the server -----

  lemma LocalDrops(env: Env, v: View, l: Label, now: int)
    requires v.session.Some? && LocalNext(env, v, l, now).session.Some?
    requires l.Join? ==> l.newToken !in v.session.value.participants
    requires l.Submit? ==> l.thread !in v.workers
    ensures var v' := LocalNext(env, v, l, now);
            && Measure(v'.session.value, v'.workers) <= Measure(v.session.value, v.workers)
            && (v'.session != v.session ==>
                  Measure(v'.session.value, v'.workers) < Measure(v.session.value, v.workers))
  {
    hide Missing, Enforce, JoinRecord, AcceptRecord, SubmitRecord, WorkStep, Swept, PendingThreads;
    var s := v.session.value;
    EnforceDrops(env.options, s, now);
    if Addresses(v, l) {
      match l
      case Join(_, nonce, newToken) => JoinDrops(env, s, nonce, newToken, now);
      case Accept(token) => AcceptDrops(env, s, token, now);
      case Submit(token, payload, thread) =>
        SubmitDrops(env, s, token, payload, now);
        OnePending(v.workers, thread, SubmitRecord(env, s, token, payload, now).0.id);
      case GetResult(_) =>
      case GetStatus(_) =>
      case Work(thread, a) => WorkDrops(env, v.workers, thread, s, a, now);
    }
  }

  lemma OnePending(workers: map<nat, Worker>, thread: nat, id: string)
    requires thread !in workers
    ensures |PendingThreads(workers[thread := Worker(id, Pending, None, [])])| == |PendingThreads(workers)| + 1
  {
    assert PendingThreads(workers[thread := Worker(id, Pending, None, [])]) == PendingThreads(workers) + {thread};
  }

  /** Every step that changes a live record makes its measure strictly smaller; no step makes it larger. */
  lemma StepDrops(env: Env, sv: Server, l: Label, now: int, id: string)
    requires Inv(env, sv) && Fresh(sv, l) && id in sv.sessions && id in Apply(env, sv, l, now).0.sessions
    ensures var sv' := Apply(env, sv, l, now).0;
            var before := Measure(sv.sessions[id], WorkersOf(sv.workers, id));
            var after := Measure(sv'.sessions[id], WorkersOf(sv'.workers, id));
            after <= before && (sv'.sessions[id] != sv.sessions[id] ==> after < before)
  {
    hide RecordOk, IndexesOk, WorkersOk, Apply, LocalNext, WorkersOf, Measure;
    RecordAndName(env, sv, id);
    StepIsLocal(env, sv, l, now, id);
    if l.Join? { TokenIsNew(sv, id, l.newToken); }
    if l.Submit? { WorkersOfSubset(sv.workers, id, l.thread); }
    LocalDrops(env, ViewOf(sv, id), l, now);
  }

  lemma WorkersOfSubset(workers: map<nat, Worker>, id: string, thread: nat)
    requires thread !in workers
    ensures thread !in WorkersOf(workers, id)
  {
  }

  // ----- whole runs -----

  /** How often a run changes a record that stays in the table. */
  function Changes(env: Env, sv: Server, id: string, run: seq<Event>): nat
    decreases |run|
  {
    if run == [] then 0
    else
      var next := Next(env, sv, run[0]);
      (if id in sv.sessions && id in next.sessions && next.sessions[id] != sv.sessions[id] then 1 else 0)
      + Changes(env, next, id, run[1..])
  }

  lemma {:induction false} ChangesAreBounded(env: Env, sv: Server, id: string, run: seq<Event>)
    requires Inv(env, sv) && Valid(env, sv, run) && id in sv.sessions
    ensures Changes(env, sv, id, run) <= Measure(sv.sessions[id], WorkersOf(sv.workers, id))
    decreases |run|
  {
    hide Inv, RecordOk, Apply, Fresh, Measure;
    RecordAndName(env, sv, id);
    MeasureIsNatural(env, sv.sessions[id], WorkersOf(sv.workers, id));
    if run == [] {
    } else {
      var next := Next(env, sv, run[0]);
      StepKeeps(env, sv, run[0].step, run[0].now);
      if id in next.sessions {
        StepDrops(env, sv, run[0].step, run[0].now, id);
        ChangesAreBounded(env, next, id, run[1..]);
      } else {
        StepTokens(env, sv, run[0].step, run[0].now, id);
        AbsentNeverChanges(env, next, id, run[1..]);
      }
    }
  }

  lemma {:induction false} AbsentNeverChanges(env: Env, sv: Server, id: string, run: seq<Event>)
    requires Inv(env, sv) && Valid(env, sv, run) && id in sv.minted && id !in sv.sessions
    ensures Changes(env, sv, id, run) == 0
    decreases |run|
  {
    hide Inv, Apply, Fresh;
    if run == [] {
    } else {
      StepKeeps(env, sv, run[0].step, run[0].now);
      StepKeepsAbsent(env, sv, run[0].step, run[0].now, id);
      AbsentNeverChanges(env, Next(env, sv, run[0]), id, run[1..]);
    }
  }

  /** From its creation on, a session's record changes at most 3n + 1 times for n expected participants. */
  lemma LinearLifetime(env: Env, sv: Server, policy: SessionPolicy, nonce: string, mint: Mint, now: int, run: seq<Event>)
    requires Inv(env, sv) && Fresh(sv, Create(policy, nonce, mint))
    requires var made := CreateStep(env, sv, policy, nonce, mint, now).0;
             mint.id in made.sessions && Valid(env, made, run)
    ensures Changes(env, CreateStep(env, sv, policy, nonce, mint, now).0, mint.id, run) <= 3 * policy.expected + 1
  {
    hide Inv, RecordOk, CreateStep, Apply, Fresh, Measure;
    var made := CreateStep(env, sv, policy, nonce, mint, now).0;
    CreateStepKeeps(env, sv, policy, nonce, mint, now);
    ChangesAreBounded(env, made, mint.id, run);
    NewbornMeasure(env, sv, policy, nonce, mint, now);
  }

  lemma NewbornMeasure(env: Env, sv: Server, policy: SessionPolicy, nonce: string, mint: Mint, now: int)
    requires Inv(env, sv) && Fresh(sv, Create(policy, nonce, mint))
    requires mint.id in CreateStep(env, sv, policy, nonce, mint, now).0.sessions
    ensures var made := CreateStep(env, sv, policy, nonce, mint, now).0;
            Measure(made.sessions[mint.id], WorkersOf(made.workers, mint.id)) == 3 * policy.expected + 1
  {
    hide Inv, CreateStep, NewSession, Missing;
    IdUnknown(env, sv, mint.id);
    CreatedRecord(env, sv, policy, nonce, mint, now);
    NewMissing(env.registry[policy.policyClass], policy, nonce, mint, now);
    assert WorkersOf(sv.workers, mint.id) == map[];
    assert PendingThreads(map[]) == {};
  }

  lemma CreatedRecord(env: Env, sv: Server, policy: SessionPolicy, nonce: string, mint: Mint, now: int)
    requires mint.id !in sv.sessions && mint.id in CreateStep(env, sv, policy, nonce, mint, now).0.sessions
    ensures var made := CreateStep(env, sv, policy, nonce, mint, now).0;
            && policy.policyClass in env.registry && made.workers == sv.workers
            && made.sessions[mint.id] == NewSession(env.registry[policy.policyClass], policy, nonce,
                                                    mint.id, mint.creator, mint.invitation, now)
  {
    hide Sweep, CreateStep, Doomed;
    SweepParts(env.options, sv, now);
    CreateShape(env, sv, policy, nonce, mint, now);
  }

  lemma NewMissing(def: PolicyDefinition, policy: SessionPolicy, nonce: string, mint: Mint, now: int)
    ensures Missing(NewSession(def, policy, nonce, mint.id, mint.creator, mint.invitation, now))
            == 3 * policy.expected + 1
  {
    var s := NewSession(def, policy, nonce, mint.id, mint.creator, mint.invitation, now);
    assert AcceptedTokens(s) == {mint.creator} && SubmittedTokens(s) == {};
  }

  lemma IdUnknown(env: Env, sv: Server, id: string)
    requires Inv(env, sv) && id !in sv.minted
    ensures id !in sv.sessions && forall t | t in sv.workers :: sv.workers[t].session != id
  {
    hide RecordOk, FitsRecord;
    forall t | t in sv.workers ensures sv.workers[t].session != id {
      assert WorkerOk(env, sv, sv.workers[t]);
    }
  }
}
