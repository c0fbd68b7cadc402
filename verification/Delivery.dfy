/** Delivering one nudge per publication over a network that loses, delays and repeats, between a sender whose workers
  * die and a receiver that commits before it answers.
  */
module Delivery {
  import opened Commits

  type Id = string

  /** The exact bytes of a nudge. */
  type Bytes = string

  datatype JobState = Pending | Retryable | Unknown | Accepted | Refused

  datatype Claim = Claim(worker: nat, fence: nat)

  datatype Job = Job(bytes: Bytes, state: JobState, claim: Option<Claim>, expired: bool, fence: nat)

  datatype Answer = Committed | TryAgain | Rejected | Lost

  datatype Phase =
    | Idle
    | Claimed(id: Id, fence: nat)
    | Waiting(id: Id, fence: nat)
    | Answered(id: Id, fence: nat, answer: Answer)

  /** `flights` are requests that may still reach the receiver, `rows` its committed nudges, and `commits` counts how
    * often it committed each publication. */
  datatype State = State(jobs: map<Id, Job>, workers: map<nat, Phase>, flights: set<(Id, Bytes)>, rows: map<Id, Bytes>, commits: multiset<Id>)

  datatype Action =
    | Wake(w: nat)
    | Take(w: nat, id: Id)
    | Send(w: nat)
    | Decline(w: nat, final: bool)     // the sender itself finds the nudge out of date, or cannot send it yet
    | Arrive(id: Id, bytes: Bytes, room: bool)
    | Answer(w: nat, answer: Answer)
    | Finish(w: nat)
    | Expire(id: Id)
    | Reconcile(w: nat, id: Id)
    | Requeue(w: nat, id: Id)
    | Die(w: nat)

  predicate Resolved(s: JobState) {
    s in {Accepted, Refused}
  }

  function StateFor(a: Answer): JobState {
    match a
    case Committed => Accepted
    case TryAgain => Retryable
    case Rejected => Refused
    case Lost => Unknown
  }

  function Set(s: State, w: nat, phase: Phase): State {
    s.(workers := s.workers[w := phase])
  }

  function SetJob(s: State, id: Id, j: Job): State {
    s.(jobs := s.jobs[id := j])
  }

  /** The receiver's transaction: an unknown publication is committed when there is room, a known one is left alone. */
  function Admit(s: State, id: Id, bytes: Bytes, room: bool): State {
    if id in s.rows || !room then s else s.(rows := s.rows[id := bytes], commits := s.commits + multiset{id})
  }

  /** The receiver answers that it committed only after it has committed exactly these bytes. */
  predicate MayAnswer(s: State, id: Id, a: Answer) {
    a == Committed ==> id in s.jobs && id in s.rows && s.rows[id] == s.jobs[id].bytes
  }

  function FinishJob(s: State, w: nat, id: Id, fence: nat, a: Answer): State {
    if id in s.jobs && s.jobs[id].claim == Some(Claim(w, fence)) && !s.jobs[id].expired
    then SetJob(s, id, s.jobs[id].(state := StateFor(a), claim := None)) else s
  }

  function Step(s: State, act: Action): State {
    match act
    case Wake(w) => if w in s.workers then s else Set(s, w, Idle)
    case Take(w, id) =>
      if w in s.workers && s.workers[w].Idle? && id in s.jobs && s.jobs[id].claim.None? && s.jobs[id].state in {Pending, Retryable} then
        var f := s.jobs[id].fence + 1;
        Set(SetJob(s, id, s.jobs[id].(claim := Some(Claim(w, f)), fence := f, expired := false)), w, Claimed(id, f))
      else s
    case Send(w) =>
      if w in s.workers && s.workers[w].Claimed? && s.workers[w].id in s.jobs then
        Set(s.(flights := s.flights + {(s.workers[w].id, s.jobs[s.workers[w].id].bytes)}), w, Waiting(s.workers[w].id, s.workers[w].fence))
      else s
    case Decline(w, final) =>
      if w in s.workers && s.workers[w].Claimed?
      then Set(s, w, Answered(s.workers[w].id, s.workers[w].fence, if final then Rejected else TryAgain)) else s
    case Arrive(id, bytes, room) => if (id, bytes) in s.flights then Admit(s, id, bytes, room) else s
    case Answer(w, a) =>
      if w in s.workers && s.workers[w].Waiting? && MayAnswer(s, s.workers[w].id, a)
      then Set(s, w, Answered(s.workers[w].id, s.workers[w].fence, a)) else s
    case Finish(w) =>
      if w in s.workers && s.workers[w].Answered?
      then Set(FinishJob(s, w, s.workers[w].id, s.workers[w].fence, s.workers[w].answer), w, Idle) else s
    case Expire(id) => if id in s.jobs then SetJob(s, id, s.jobs[id].(expired := true)) else s
    case Reconcile(w, id) =>
      if w in s.workers && s.workers[w].Idle? && id in s.jobs && s.jobs[id].claim.Some? && s.jobs[id].expired
      then SetJob(s, id, s.jobs[id].(state := Unknown, claim := None)) else s
    case Requeue(w, id) =>
      if w in s.workers && s.workers[w].Idle? && id in s.jobs && s.jobs[id].state == Unknown && s.jobs[id].claim.None?
      then SetJob(s, id, s.jobs[id].(state := Retryable)) else s
    case Die(w) => s.(workers := s.workers - {w})
  }

  function Run(s: State, acts: seq<Action>): State
    decreases |acts|
  {
    if acts == [] then s else Run(Step(s, acts[0]), acts[1..])
  }

  predicate Fresh(s: State) {
    && s.workers == map[] && s.flights == {} && s.rows == map[] && s.commits == multiset{}
    && (forall id :: id in s.jobs ==> s.jobs[id].state == Pending && s.jobs[id].claim.None?)
  }

  predicate Delivered(s: State, id: Id) {
    id in s.jobs && id in s.rows && s.rows[id] == s.jobs[id].bytes
  }

  ghost predicate Safe(s: State) {
    && (forall id :: id in s.jobs && s.jobs[id].state == Accepted ==> Delivered(s, id))
    && (forall id :: id in s.jobs && Resolved(s.jobs[id].state) ==> s.jobs[id].claim.None?)
    && (forall w :: w in s.workers && s.workers[w].Answered? && s.workers[w].answer == Committed ==> Delivered(s, s.workers[w].id))
    && (forall f :: f in s.flights ==> f.0 in s.jobs && s.jobs[f.0].bytes == f.1)
    && (forall id :: id in s.rows ==> Delivered(s, id))
    && (forall id :: s.commits[id] == if id in s.rows then 1 else 0)
  }

  lemma TakeKeepsSafe(s: State, w: nat, id: Id)
    requires Safe(s)
    ensures Safe(Step(s, Take(w, id)))
  {
  }

  lemma ArriveKeepsSafe(s: State, id: Id, bytes: Bytes, room: bool)
    requires Safe(s)
    ensures Safe(Step(s, Arrive(id, bytes, room)))
  {
    if (id, bytes) in s.flights {
      var t := Admit(s, id, bytes, room);
      forall k | k in s.rows ensures k in t.rows && t.rows[k] == s.rows[k] {
      }
      forall k ensures t.commits[k] == if k in t.rows then 1 else 0 {
      }
    }
  }

  lemma FinishKeepsSafe(s: State, w: nat)
    requires Safe(s)
    ensures Safe(Step(s, Finish(w)))
  {
  }

  lemma AnswerKeepsSafe(s: State, w: nat, a: Answer)
    requires Safe(s)
    ensures Safe(Step(s, Action.Answer(w, a)))
  {
  }

  lemma JobKeepsSafe(s: State, id: Id, j: Job)
    requires Safe(s) && id in s.jobs && j.bytes == s.jobs[id].bytes
    requires j.state == s.jobs[id].state || !Resolved(j.state)
    requires j.claim.None? || j.claim == s.jobs[id].claim
    ensures Safe(SetJob(s, id, j))
  {
    var t := SetJob(s, id, j);
    forall k | k in s.jobs ensures k in t.jobs && t.jobs[k].bytes == s.jobs[k].bytes {
    }
  }

  lemma StepKeepsSafe(s: State, act: Action)
    requires Safe(s)
    ensures Safe(Step(s, act))
  {
    match act
    case Take(w, id) => TakeKeepsSafe(s, w, id);
    case Arrive(id, bytes, room) => ArriveKeepsSafe(s, id, bytes, room);
    case Finish(w) => FinishKeepsSafe(s, w);
    case Answer(w, a) => AnswerKeepsSafe(s, w, a);
    case Expire(id) => if id in s.jobs { JobKeepsSafe(s, id, s.jobs[id].(expired := true)); }
    case Reconcile(_, id) => if id in s.jobs { JobKeepsSafe(s, id, s.jobs[id].(state := Unknown, claim := None)); }
    case Requeue(_, id) => if id in s.jobs { JobKeepsSafe(s, id, s.jobs[id].(state := Retryable)); }
    case _ =>
  }

  lemma {:induction false} RunKeepsSafe(s: State, acts: seq<Action>)
    requires Safe(s)
    ensures Safe(Run(s, acts))
    decreases |acts|
  {
    if acts != [] {
      StepKeepsSafe(s, acts[0]);
      RunKeepsSafe(Step(s, acts[0]), acts[1..]);
    }
  }

  /** What the receiver committed stays as it is. */
  lemma {:induction false} RowsOnlyGrow(s: State, acts: seq<Action>, id: Id)
    requires id in s.rows
    ensures id in Run(s, acts).rows && Run(s, acts).rows[id] == s.rows[id]
    decreases |acts|
  {
    if acts != [] {
      RowsOnlyGrow(Step(s, acts[0]), acts[1..], id);
    }
  }

  /** Exactly one effect: with any loss, delay, repetition, death and lease expiry, and any number of workers, a job
    * that is accepted was committed by the receiver with its exact bytes, and no publication is committed twice. */
  lemma AcceptedIsCommittedOnce(s: State, acts: seq<Action>, id: Id)
    requires Fresh(s)
    ensures var t := Run(s, acts);
      && (id in t.jobs && t.jobs[id].state == Accepted ==> Delivered(t, id) && t.commits[id] == 1)
      && t.commits[id] <= 1
  {
    RunKeepsSafe(s, acts);
  }

  /** The worker has claimed the job and not sent it yet. */
  predicate AboutToSend(s: State, w: nat, id: Id) {
    w in s.workers && s.workers[w].Claimed? && s.workers[w].id == id
  }

  /** A worker sends a job that is resolved already. */
  predicate Resends(s: State, act: Action) {
    act.Send? && act.w in s.workers && s.workers[act.w].Claimed? && s.workers[act.w].id in s.jobs
    && Resolved(s.jobs[s.workers[act.w].id].state)
  }

  /** An expired claim is taken from a worker that is still about to send under it. */
  predicate Robs(s: State, act: Action) {
    && act.Reconcile? && Step(s, act) != s
    && var c := s.jobs[act.id].claim.value;
    && c.worker in s.workers && s.workers[c.worker] == Claimed(act.id, c.fence)
  }

  /** No step of the run satisfies `p` in the state it is taken in. */
  predicate Never(p: (State, Action) -> bool, s: State, acts: seq<Action>)
    decreases |acts|
  {
    acts == [] || (!p(s, acts[0]) && Never(p, Step(s, acts[0]), acts[1..]))
  }

  /** Whoever is about to send holds the claim it sends under, and a resolved job is nobody's. */
  predicate Held(s: State) {
    && (forall id :: id in s.jobs && Resolved(s.jobs[id].state) ==> s.jobs[id].claim.None?)
    && (forall w :: w in s.workers && s.workers[w].Claimed? ==>
         s.workers[w].id in s.jobs && s.jobs[s.workers[w].id].claim == Some(Claim(w, s.workers[w].fence)))
  }

  lemma HeldStep(s: State, act: Action)
    requires Held(s) && !Robs(s, act)
    ensures Held(Step(s, act))
  {
    match act
    case Reconcile(w, id) => HeldReconcile(s, w, id);
    case _ =>
  }

  lemma HeldReconcile(s: State, w: nat, id: Id)
    requires Held(s) && !Robs(s, Reconcile(w, id))
    ensures Held(Step(s, Reconcile(w, id)))
  {
    var t := Step(s, Reconcile(w, id));
    if t != s {
      forall v | v in t.workers && t.workers[v].Claimed?
        ensures t.workers[v].id in t.jobs && t.jobs[t.workers[v].id].claim == Some(Claim(v, t.workers[v].fence))
      {
        assert s.jobs[s.workers[v].id].claim == Some(Claim(v, s.workers[v].fence));
        if s.workers[v].id == id {
          assert Robs(s, Reconcile(w, id));
        }
      }
    }
  }

  /** A resolved job is never sent again, by any number of workers, as long as no expired claim is taken from a worker
    * that is about to send under it. */
  lemma {:induction false} ResolvedIsNotSent(s: State, acts: seq<Action>)
    requires Held(s) && Never(Robs, s, acts)
    ensures Never(Resends, s, acts) && Held(Run(s, acts))
    decreases |acts|
  {
    if acts != [] {
      HeldStep(s, acts[0]);
      ResolvedIsNotSent(Step(s, acts[0]), acts[1..]);
    }
  }

  /** The other way round: once a claim is taken like that, the robber can deliver the job to its acceptance, and the
    * robbed worker then sends the accepted job. */
  lemma RobbedResends(s: State, v: nat, id: Id)
    requires Safe(s) && Robs(s, Reconcile(v, id))
    ensures var w, t := s.jobs[id].claim.value.worker, Run(s, Redelivery(s, v, id));
      && id in t.jobs && t.jobs[id].state == Accepted && Delivered(t, id) && AboutToSend(t, w, id) && Resends(t, Send(w))
  {
    var claiming := [Reconcile(v, id), Requeue(v, id), Take(v, id)];
    RobberClaims(s, v, id);
    SendCommits(Run(s, claiming), v, id, s.jobs[id].fence + 1);
    RunAppend(s, claiming, Attempt(v, id, s.jobs[id].bytes));
  }

  lemma RobberClaims(s: State, v: nat, id: Id)
    requires Robs(s, Reconcile(v, id))
    ensures var f, t := s.jobs[id].fence + 1, Run(s, [Reconcile(v, id), Requeue(v, id), Take(v, id)]);
      && t.workers == s.workers[v := Claimed(id, f)] && t.rows == s.rows
      && t.jobs == s.jobs[id := Job(s.jobs[id].bytes, Retryable, Some(Claim(v, f)), false, f)]
  {
    RunThree(s, Reconcile(v, id), Requeue(v, id), Take(v, id));
  }

  /** The steps of an attempt that is answered. */
  function Attempt(v: nat, id: Id, bytes: Bytes): seq<Action> {
    [Send(v), Arrive(id, bytes, true), Action.Answer(v, Committed)] + [Finish(v)]
  }

  function Redelivery(s: State, v: nat, id: Id): seq<Action>
    requires id in s.jobs
  {
    [Reconcile(v, id), Requeue(v, id), Take(v, id)] + Attempt(v, id, s.jobs[id].bytes)
  }

  /** An undisturbed attempt of a claimed job ends accepted and disturbs nobody else. */
  lemma SendCommits(s: State, v: nat, id: Id, f: nat)
    requires v in s.workers && s.workers[v] == Claimed(id, f)
    requires id in s.jobs && s.jobs[id].claim == Some(Claim(v, f)) && !s.jobs[id].expired
    requires id in s.rows ==> s.rows[id] == s.jobs[id].bytes
    ensures var t := Run(s, Attempt(v, id, s.jobs[id].bytes));
      id in t.jobs && t.jobs[id].state == Accepted && Delivered(t, id) && t.workers == s.workers[v := Idle]
  {
    var bytes := s.jobs[id].bytes;
    var sending := [Send(v), Arrive(id, bytes, true), Action.Answer(v, Committed)];
    RunAppend(s, sending, [Finish(v)]);
    RunThree(s, sending[0], sending[1], sending[2]);
    var s3 := Run(s, sending);
    assert s3.workers == s.workers[v := Answered(id, f, Committed)] && s3.jobs == s.jobs;
    assert Run(s3, [Finish(v)]) == Run(Step(s3, Finish(v)), []);
  }

  /** Two workers do come to that, as the delivery loop and a management retry of one service may: the first is slow
    * between its claim and its send, its claim expires, and the second delivers the job meanwhile. */
  lemma TwoWorkersResend(id: Id, bytes: Bytes) returns (acts: seq<Action>)
    ensures !Never(Robs, OneJob(id, bytes), acts)
    ensures var t := Run(OneJob(id, bytes), acts);
      id in t.jobs && t.jobs[id].state == Accepted && Resends(t, Send(0))
  {
    var s, slow := OneJob(id, bytes), [Wake(0), Wake(1)] + [Take(0, id), Expire(id)];
    SlowWorker(id, bytes);
    RunKeepsSafe(s, slow);
    var rest := Redelivery(Run(s, slow), 1, id);
    RobbedResends(Run(s, slow), 1, id);
    acts := slow + rest;
    RunAppend(s, slow, rest);
    if Never(Robs, s, acts) {
      ResolvedIsNotSent(s, acts);
      assert false;
    }
  }

  lemma SlowWorker(id: Id, bytes: Bytes)
    ensures var t := Run(OneJob(id, bytes), [Wake(0), Wake(1)] + [Take(0, id), Expire(id)]);
      t.jobs == map[id := Job(bytes, Pending, Some(Claim(0, 1)), true, 1)] && t.workers == map[0 := Claimed(id, 1), 1 := Idle]
  {
    var s := OneJob(id, bytes);
    RunAppend(s, [Wake(0), Wake(1)], [Take(0, id), Expire(id)]);
    RunTwo(s, Wake(0), Wake(1));
    RunTwo(Run(s, [Wake(0), Wake(1)]), Take(0, id), Expire(id));
  }

  /** Once resolved, a job keeps its answer for good, whoever runs. */
  lemma {:induction false} ResolvedStays(s: State, acts: seq<Action>, id: Id)
    requires id in s.jobs && Resolved(s.jobs[id].state) && s.jobs[id].claim.None?
    ensures id in Run(s, acts).jobs && Run(s, acts).jobs[id].state == s.jobs[id].state
    decreases |acts|
  {
    if acts != [] {
      ResolvedStays(Step(s, acts[0]), acts[1..], id);
    }
  }

  lemma {:induction false} RunAppend(s: State, a: seq<Action>, b: seq<Action>)
    ensures Run(s, a + b) == Run(Run(s, a), b)
    decreases |a|
  {
    if a == [] {
      assert a + b == b;
    } else {
      assert (a + b)[1..] == a[1..] + b;
      RunAppend(Step(s, a[0]), a[1..], b);
    }
  }

  lemma RunTwo(s: State, x: Action, y: Action)
    ensures Run(s, [x, y]) == Step(Step(s, x), y)
  {
    assert [x, y][1..] == [y] && [y][1..] == [];
    assert Run(s, [x, y]) == Run(Step(s, x), [y]) == Run(Step(Step(s, x), y), []);
  }

  lemma RunThree(s: State, x: Action, y: Action, z: Action)
    ensures Run(s, [x, y, z]) == Step(Step(Step(s, x), y), z)
  {
    assert [x, y, z][1..] == [y, z] && [y, z][1..] == [z] && [z][1..] == [];
    assert Run(s, [x, y, z]) == Run(Step(s, x), [y, z]) == Run(Step(Step(s, x), y), [z]) == Run(Step(Step(Step(s, x), y), z), []);
  }

  function OneJob(id: Id, bytes: Bytes): State {
    State(map[id := Job(bytes, Pending, None, false, 0)], map[], {}, map[], multiset{})
  }

  lemma FirstSend(id: Id, bytes: Bytes)
    ensures Run(OneJob(id, bytes), [Wake(0), Take(0, id), Send(0)])
            == State(map[id := Job(bytes, Pending, Some(Claim(0, 1)), false, 1)], map[0 := Waiting(id, 1)], {(id, bytes)}, map[], multiset{})
  {
    RunThree(OneJob(id, bytes), Wake(0), Take(0, id), Send(0));
  }

  lemma AnswerLost(s: State, id: Id, bytes: Bytes)
    requires s == State(map[id := Job(bytes, Pending, Some(Claim(0, 1)), false, 1)], map[0 := Waiting(id, 1)], {(id, bytes)}, map[], multiset{})
    ensures Run(s, [Arrive(id, bytes, true), Answer(0, Lost), Finish(0)])
            == State(map[id := Job(bytes, Unknown, None, false, 1)], map[0 := Idle], {(id, bytes)}, map[id := bytes], multiset{id})
  {
    RunThree(s, Arrive(id, bytes, true), Answer(0, Lost), Finish(0));
  }

  lemma RetryDeclined(s: State, id: Id, bytes: Bytes)
    requires s == State(map[id := Job(bytes, Unknown, None, false, 1)], map[0 := Idle], {(id, bytes)}, map[id := bytes], multiset{id})
    ensures Run(s, [Requeue(0, id), Take(0, id), Decline(0, true)])
            == State(map[id := Job(bytes, Retryable, Some(Claim(0, 2)), false, 2)], map[0 := Answered(id, 2, Rejected)],
                     {(id, bytes)}, map[id := bytes], multiset{id})
  {
    RunThree(s, Requeue(0, id), Take(0, id), Decline(0, true));
  }

  lemma RetryRefused(s: State, id: Id, bytes: Bytes)
    requires s == State(map[id := Job(bytes, Retryable, Some(Claim(0, 2)), false, 2)], map[0 := Answered(id, 2, Rejected)],
                        {(id, bytes)}, map[id := bytes], multiset{id})
    ensures var t := Run(s, [Finish(0)]); id in t.jobs && t.jobs[id].state == Refused && Delivered(t, id)
  {
    assert Run(s, [Finish(0)]) == Run(Step(s, Finish(0)), []);
  }

  /** The only worker's attempt whose answer was lost, and its retry after the membership has moved on. */
  function LostThenDeclined(id: Id, bytes: Bytes): seq<Action>
  {
    [Wake(0), Take(0, id), Send(0)] + ([Arrive(id, bytes, true), Answer(0, Lost), Finish(0)]
    + ([Requeue(0, id), Take(0, id), Decline(0, true)] + [Finish(0)]))
  }

  /** A request for the publication leaves a worker. */
  predicate Sends(s: State, act: Action, id: Id) {
    act.Send? && AboutToSend(s, act.w, id) && id in s.jobs
  }

  /** A publication that was not sent in the run, because every attempt was declined by the sender itself or never came
    * so far, is not committed, and nothing on its way can commit it. */
  lemma {:induction false} NeverSentNeverCommitted(s: State, acts: seq<Action>, id: Id)
    requires id !in s.rows && (forall f :: f in s.flights ==> f.0 != id)
    requires Never((t, a) => Sends(t, a, id), s, acts)
    ensures id !in Run(s, acts).rows && forall f :: f in Run(s, acts).flights ==> f.0 != id
    decreases |acts|
  {
    if acts != [] {
      NeverSentNeverCommitted(Step(s, acts[0]), acts[1..], id);
    }
  }

  /** A publication that was sent may be committed without its sender noticing anything. */
  lemma {:induction false} SentMayBeCommitted(s: State, acts: seq<Action>, id: Id)
    requires Safe(s) && !Never((t, a) => Sends(t, a, id), s, acts)
    ensures var t := Run(s, acts); id in t.jobs && (id, t.jobs[id].bytes) in t.flights
    decreases |acts|
  {
    StepKeepsSafe(s, acts[0]);
    if Sends(s, acts[0], id) {
      FlightsStay(Step(s, acts[0]), acts[1..], (id, s.jobs[id].bytes));
      RunKeepsSafe(s, acts);
    } else {
      SentMayBeCommitted(Step(s, acts[0]), acts[1..], id);
    }
  }

  lemma {:induction false} FlightsStay(s: State, acts: seq<Action>, f: (Id, Bytes))
    requires f in s.flights
    ensures f in Run(s, acts).flights
    decreases |acts|
  {
    if acts != [] {
      FlightsStay(Step(s, acts[0]), acts[1..], f);
    }
  }

  /** What a job's answer says about the receiver, refusal included: it excludes a commit exactly when the run sent
    * nothing. Otherwise some receiver that has committed the publication fits everything the sender has seen. */
  lemma UncommittedIffNeverSent(s: State, acts: seq<Action>, id: Id)
    requires Fresh(s)
    ensures var t := Run(s, acts);
      forall bytes :: Step(t, Arrive(id, bytes, true)).jobs == t.jobs && Step(t, Arrive(id, bytes, true)).workers == t.workers
    ensures Never((u, a) => Sends(u, a, id), s, acts) <==> forall bytes :: id !in Step(Run(s, acts), Arrive(id, bytes, true)).rows
  {
    var t := Run(s, acts);
    if Never((u, a) => Sends(u, a, id), s, acts) {
      NeverSentNeverCommitted(s, acts, id);
      forall bytes ensures Step(t, Arrive(id, bytes, true)) == t {
        assert (id, bytes) !in t.flights;
      }
    } else {
      SentMayBeCommitted(s, acts, id);
      var u := Step(t, Arrive(id, t.jobs[id].bytes, true));
      assert id in u.rows;
    }
  }

  /** A refused job may have been committed all the same. Only acceptance says what the receiver holds. */
  lemma RefusedMayBeCommitted(id: Id, bytes: Bytes)
    ensures var t := Run(OneJob(id, bytes), LostThenDeclined(id, bytes));
            id in t.jobs && t.jobs[id].state == Refused && Delivered(t, id)
  {
    var first, second := [Wake(0), Take(0, id), Send(0)], [Arrive(id, bytes, true), Answer(0, Lost), Finish(0)];
    var third, last := [Requeue(0, id), Take(0, id), Decline(0, true)], [Finish(0)];
    FirstSend(id, bytes);
    RunAppend(OneJob(id, bytes), first, second + (third + last));
    var s1 := Run(OneJob(id, bytes), first);
    AnswerLost(s1, id, bytes);
    RunAppend(s1, second, third + last);
    var s2 := Run(s1, second);
    RetryDeclined(s2, id, bytes);
    RunAppend(s2, third, last);
    RetryRefused(Run(s2, third), id, bytes);
  }

  const FIRST_DELAY := 10
  const LONGEST_DELAY := 300

  /** Seconds between attempts: doubled each time, and capped. */
  function Delay(attempts: nat): (d: nat)
    requires attempts >= 1
    ensures FIRST_DELAY <= d <= LONGEST_DELAY
    decreases attempts
  {
    if attempts == 1 then FIRST_DELAY
    else
      var previous := Delay(attempts - 1);
      if 2 * previous > LONGEST_DELAY then LONGEST_DELAY else 2 * previous
  }

  /** The delay never shrinks, and from the sixth attempt on it is the longest one. */
  lemma {:induction false} DelayGrows(attempts: nat)
    requires attempts >= 1
    ensures Delay(attempts) <= Delay(attempts + 1)
    ensures Delay(attempts) == LONGEST_DELAY <==> attempts >= 6
    decreases attempts
  {
    if attempts > 1 {
      DelayGrows(attempts - 1);
      if attempts == 6 {
        assert Delay(1) == 10 && Delay(2) == 20 && Delay(3) == 40 && Delay(4) == 80 && Delay(5) == 160;
      } else if attempts < 6 {
        assert Delay(1) == 10 && Delay(2) == 20 && Delay(3) == 40 && Delay(4) == 80;
      }
    }
  }

  /** Whether a job is due, from the instant its last attempt was recorded; an unreadable instant is never due. */
  method DeliveryDue(attempts: nat, last: Option<int>, now: int) returns (due: bool)
    ensures due <==> attempts == 0 || (last.Some? && now >= last.value + Delay(attempts))
  {
    if attempts == 0 {
      return true;
    }
    if last.None? {
      return false;
    }
    var delay, i := FIRST_DELAY, 1;
    while i < attempts && delay < LONGEST_DELAY
      invariant 1 <= i <= attempts
      invariant (if delay > LONGEST_DELAY then LONGEST_DELAY else delay) == Delay(i)
      invariant delay >= LONGEST_DELAY ==> Delay(i) == LONGEST_DELAY
    {
      delay := delay * 2;
      i := i + 1;
    }
    if delay > LONGEST_DELAY {
      delay := LONGEST_DELAY;
    }
    LongestStays(i, attempts);
    due := now >= last.value + delay;
  }

  lemma {:induction false} LongestStays(i: nat, n: nat)
    requires 1 <= i <= n
    ensures Delay(i) == LONGEST_DELAY ==> Delay(n) == LONGEST_DELAY
    decreases n
  {
    if i < n {
      LongestStays(i, n - 1);
    }
  }
}
