/** Management requests: every protected effect belongs to a job that was linked to the request before it, and the one
  * ref move that has no job, the adoption of a membership revision, never happens under a request.
  */
module Management {

  datatype Action = SyncNow | Retry | VerifyAll

  datatype RequestState = Queued | Running | Finished | Held | Undecided

  datatype Status = NoStatus | NoOp | AlreadySettled | Incomplete | Failed | Verified | Lapsed | BlockedStatus | UncertainStatus

  /** What is kept of a settled verification: nothing readable, its expiry, or its result. */
  datatype Observation = NoObservation | ExpiredObservation | FinishedObservation

  const ASSOCIATIONS := 1000
  const ATTEMPTS := 20

  /** Effects outside the store: those of a job (a push, a ref move, a tree write, a delivery, an observation of the
    * peer), and the move of the local membership ref. */
  datatype Effect = OfJob(job: string) | MembershipMove

  /** Who runs a reconcile: an operator, or the service on behalf of a request. */
  datatype Context = ByOperator | ByRequest

  /** One piece of work of an execution, with the number of steps it lives and where it is refused. */
  datatype Work =
    | AdoptMembership(remote: string, local: string, fastForward: bool, alive: nat)
    | RecoverPublication(job: string, delivery: string, moved: bool, alive: nat)
    | RecoverImport(job: string, addsCheckpoint: bool, alive: nat)
    | FreshImport(job: string, addsCheckpoint: bool, jobsFull: bool, alive: nat)
    | Deliver(job: string, answered: bool, alive: nat)
    | Verify(job: string, jobsFull: bool, alive: nat)

  /** What the finished execution printed, as far as the disposition reads it. */
  datatype Printed = Settled | Deferred | BlockedByHold | Refusal(final: bool) | VerificationDone | Unreadable

  /** The membership step of a reconcile, shared by both contexts: a reconcile goes on only over an adopted revision, and
    * the ref moves only by an operator's hand and only forward. */
  method AdoptRevision(context: Context, remote: string, local: string, fastForward: bool, alive: nat)
    returns (stop: bool, adopted: string, ghost performed: set<Effect>)
    ensures !stop <==> remote == local
    ensures context == ByRequest ==> adopted == local && performed == {}
    ensures MembershipMove in performed <==> adopted != local
    ensures adopted != local ==> stop && adopted == remote && fastForward
    ensures context == ByOperator && fastForward && alive > 0 ==> adopted == remote
  {
    stop, adopted, performed := remote != local, local, {};
    if stop && context == ByOperator && fastForward && alive > 0 {
      adopted, performed := remote, {MembershipMove};
    }
  }

  /** A membership revision that the reconcile would have to adopt first. */
  predicate Pending(work: Work) {
    work.AdoptMembership? && work.remote != work.local
  }

  /** The effect is one that this work may have under a request: not that of adopting a membership revision or a
    * checkpoint, and of a verification under a verifying request alone. */
  predicate Causes(action: Action, work: Work, e: Effect) {
    match work
    case AdoptMembership(_, _, _, _) => false
    case RecoverPublication(job, _, _, _) => action != VerifyAll && e == OfJob(job)
    case RecoverImport(job, addsCheckpoint, _) => action != VerifyAll && !addsCheckpoint && e == OfJob(job)
    case FreshImport(job, addsCheckpoint, jobsFull, _) => action == SyncNow && !addsCheckpoint && !jobsFull && e == OfJob(job)
    case Deliver(job, _, _) => action == Retry && e == OfJob(job)
    case Verify(job, jobsFull, _) => action == VerifyAll && !jobsFull && e == OfJob(job)
  }

  /** The effect stems from a work that comes before every pending membership revision. */
  predicate Explained(action: Action, works: seq<Work>, e: Effect) {
    exists k :: 0 <= k < |works| && Causes(action, works[k], e)
                && (action == VerifyAll || forall j :: 0 <= j < k ==> !Pending(works[j]))
  }

  class Request {
    const action: Action
    const obligations: set<string>    // the jobs a retry was accepted for
    var state: RequestState
    var status: Status
    var attempts: nat
    var linked: map<string, bool>     // linked jobs, and whether each is settled
    var reserved: nat                 // places reserved for further links
    var hold: bool                    // the execution was stopped for lack of capacity before an effect
    var eligible: set<string>         // the obligations this execution of a retry may touch
    ghost var effects: set<Effect>    // what this request performed

    /** A retry is accepted with the obligations of its predecessor, all linked; any other request has no link. */
    constructor (action: Action, inherited: map<string, bool>)
      requires |inherited| <= ASSOCIATIONS && (action != Retry ==> inherited == map[])
      ensures Valid() && state == Queued && effects == {} && linked == inherited
      ensures this.action == action && obligations == inherited.Keys
    {
      this.action, obligations := action, inherited.Keys;
      state, status, attempts, linked, reserved, hold, eligible, effects := Queued, NoStatus, 0, inherited, 0, false, {}, {};
    }

    /** Links come before effects; no effect is without a job; a retry touches its obligations only; places are not
      * overbooked; and a request that waits to run again, or ended as a no-op, has performed nothing. */
    ghost predicate Valid()
      reads this
    {
      && (forall e :: e in effects ==> e.OfJob? && e.job in linked && (action == Retry ==> e.job in obligations))
      && (action == Retry ==> obligations <= linked.Keys)
      && eligible <= obligations
      && |linked| + reserved <= ASSOCIATIONS && attempts <= ATTEMPTS
      && (state == Queued ==> effects == {} && (action != Retry ==> linked == map[]))
      && (status == NoOp ==> effects == {})
      && (action == VerifyAll ==> |linked| <= 1)
    }

    /** Nothing but an execution performs effects. */
    ghost predicate Working()
      reads this
    {
      Valid() && state == Running && status == NoStatus
    }

    /** A retry touches nothing but its eligible obligations. */
    predicate MayTouch(job: string)
      reads this
    {
      action == Retry ==> job in eligible
    }

    method Reserve() returns (ok: bool)
      requires Working()
      modifies this`reserved
      ensures Working() && ok == (|linked| + old(reserved) < ASSOCIATIONS) && reserved == old(reserved) + if ok then 1 else 0
    {
      ok := |linked| + reserved + 1 <= ASSOCIATIONS;
      if ok {
        reserved := reserved + 1;
      }
    }

    /** Links a job, using a reserved place or reserving one; a job already linked needs none. */
    method Associate(job: string, authorized: bool) returns (ok: bool)
      requires Working() && action != VerifyAll
      modifies this`linked, this`reserved, this`hold
      ensures Working() && (ok ==> job in linked) && (!authorized || !MayTouch(job) ==> !ok)
      ensures linked == old(linked) || (job !in old(linked) && ok && linked == old(linked)[job := false])
      ensures authorized && MayTouch(job) && old(|linked| + reserved) < ASSOCIATIONS ==> ok && |linked| + reserved <= old(|linked| + reserved) + 1
    {
      if !authorized || !MayTouch(job) { return false; }
      if job !in linked && reserved == 0 {
        ok := Reserve();
        if !ok {
          hold := true;
          return;
        }
      }
      if job !in linked {
        linked, reserved := linked[job := false], reserved - 1;
      }
      ok := true;
    }

    /** An effect of a linked job. */
    method Perform(job: string)
      requires Working() && job in linked && MayTouch(job)
      modifies this`effects
      ensures Working() && effects == old(effects) + {OfJob(job)}
    {
      effects := effects + {OfJob(job)};
    }

    method Conclude(job: string)
      requires Working() && job in linked
      modifies this`linked
      ensures Working() && linked == old(linked)[job := true]
    {
      linked := linked[job := true];
    }

    /** Finishes a publication and links its delivery at the reserved place, in one transaction. */
    method Hand(job: string, delivery: string)
      requires Working() && job in linked && reserved > 0 && action != VerifyAll
      modifies this`linked, this`reserved
      ensures Working()
      ensures linked == if delivery in old(linked) then old(linked)[job := true] else old(linked)[job := true][delivery := false]
    {
      linked := linked[job := true];
      if delivery !in linked {
        linked, reserved := linked[delivery := false], reserved - 1;
      }
    }

    /** Recovery of a signed publication: link, reserve the delivery's place, push, move the local ref, finish and link
      * the delivery. */
    method DoRecoverPublication(job: string, delivery: string, moved: bool, alive: nat)
      requires Working() && action != VerifyAll
      modifies this
      ensures Working() && old(effects) <= effects <= old(effects) + {OfJob(job)} && old(linked).Keys <= linked.Keys <= old(linked).Keys + {job, delivery}
      ensures state == old(state) && attempts == old(attempts) && eligible == old(eligible)
      ensures !old(MayTouch(job)) ==> effects == old(effects) && linked == old(linked)
      ensures alive >= 5 && old(MayTouch(job)) && old(|linked| + reserved) + 2 <= ASSOCIATIONS ==>
        effects == old(effects) + {OfJob(job)} && job in linked && linked[job] && delivery in linked
    {
      if alive < 1 { return; }
      var ok := Associate(job, true);
      if !ok || alive < 2 { return; }
      ok := Reserve();
      if !ok {
        hold := true;
        return;
      }
      if alive < 3 { return; }
      if !moved { Perform(job); }
      if alive < 4 { return; }
      Perform(job);
      if alive < 5 { return; }
      Hand(job, delivery);
    }

    /** Recovery of an import: link, begin, write paths, move index and ref, finish. One that would adopt a checkpoint is
      * left to an operator. */
    method DoRecoverImport(job: string, addsCheckpoint: bool, alive: nat)
      requires Working() && action != VerifyAll
      modifies this
      ensures Working() && old(effects) <= effects <= old(effects) + {OfJob(job)} && old(linked).Keys <= linked.Keys <= old(linked).Keys + {job}
      ensures state == old(state) && attempts == old(attempts) && eligible == old(eligible)
      ensures addsCheckpoint || !old(MayTouch(job)) ==> effects == old(effects)
      ensures alive >= 4 && !addsCheckpoint && old(MayTouch(job)) && old(|linked| + reserved) < ASSOCIATIONS ==>
        effects == old(effects) + {OfJob(job)} && job in linked && linked[job]
    {
      if alive < 1 { return; }
      var ok := Associate(job, true);
      if !ok || addsCheckpoint || alive < 2 { return; }
      Perform(job);
      if alive < 3 { return; }
      Perform(job);
      if alive < 4 { return; }
      Conclude(job);
    }

    /** The admission of a new job, together with its link. */
    method AdmitLinked(job: string, jobsFull: bool) returns (ok: bool)
      requires Working() && action != Retry && (action == VerifyAll ==> linked == map[])
      modifies this`linked, this`reserved, this`hold
      ensures Working() && (ok ==> job in linked) && (jobsFull ==> !ok && linked == old(linked))
      ensures linked == old(linked) || (job !in old(linked) && linked == old(linked)[job := false])
      ensures !jobsFull && old(reserved > 0 || |linked| + reserved < ASSOCIATIONS) ==> ok
      ensures jobsFull && old(reserved) > 0 && linked == map[] ==> hold
    {
      if job !in linked && reserved == 0 {
        // Full capacity means earlier links, and those keep the outcome open: no hold is recorded here.
        ok := Reserve();
        if !ok { return; }
      }
      ok := !jobsFull;
      if jobsFull {
        hold := hold || linked == map[];
      } else if job !in linked {
        linked, reserved := linked[job := false], reserved - 1;
      }
    }

    /** A fresh import: the job is admitted and linked in one transaction, then applied like a recovered one. A retry never
      * comes to this, and a checkpoint is left to an operator. */
    method DoFreshImport(job: string, addsCheckpoint: bool, jobsFull: bool, alive: nat)
      requires Working() && action != VerifyAll
      modifies this
      ensures Working() && old(effects) <= effects <= old(effects) + {OfJob(job)} && old(linked).Keys <= linked.Keys <= old(linked).Keys + {job}
      ensures state == old(state) && attempts == old(attempts) && eligible == old(eligible)
      ensures jobsFull || addsCheckpoint || action == Retry ==> effects == old(effects) && linked == old(linked)
      ensures alive >= 4 && action == SyncNow && !addsCheckpoint && !jobsFull && old(|linked| + reserved) < ASSOCIATIONS ==>
        effects == old(effects) + {OfJob(job)} && job in linked && linked[job]
    {
      if action == Retry || addsCheckpoint || alive < 1 { return; }
      var admitted := AdmitLinked(job, jobsFull);
      if !admitted || alive < 2 { return; }
      Perform(job);
      if alive < 3 { return; }
      Perform(job);
      if alive < 4 { return; }
      Conclude(job);
    }

    /** Delivery of a nudge under a retry: no link is made here, because the job is one of its obligations already; claim
      * it, send, and settle it when the peer's answer is final. */
    method DoDeliver(job: string, answered: bool, alive: nat)
      requires Working()
      modifies this
      ensures Working() && linked.Keys == old(linked).Keys
      ensures state == old(state) && attempts == old(attempts) && eligible == old(eligible)
      ensures effects == old(effects) + if action == Retry && job in eligible && alive >= 2 then {OfJob(job)} else {}
      ensures action == Retry && job in eligible && alive >= 3 && answered ==> linked[job]
    {
      if action != Retry || !MayTouch(job) || alive < 2 { return; }
      Perform(job);
      if alive >= 3 && answered {
        Conclude(job);
      }
    }

    /** A verification: reserve, admit and link its job, then observe both nodes and finish. */
    method DoVerify(job: string, jobsFull: bool, alive: nat)
      requires Working() && action == VerifyAll && linked == map[]
      modifies this
      ensures Working() && old(effects) <= effects <= old(effects) + {OfJob(job)} && linked.Keys <= {job}
      ensures state == old(state) && attempts == old(attempts) && eligible == old(eligible)
      ensures jobsFull ==> effects == old(effects) && linked == map[] && (alive >= 1 ==> hold)
      ensures alive >= 4 && !jobsFull && old(reserved) < ASSOCIATIONS ==>
        effects == old(effects) + {OfJob(job)} && linked == map[job := true]
    {
      if alive < 1 { return; }
      var ok := Reserve();
      if !ok {
        hold := true;
        return;
      }
      ok := AdmitLinked(job, jobsFull);
      if !ok || alive < 3 { return; }
      Perform(job);
      if alive < 4 { return; }
      Conclude(job);
    }

    predicate AllSettled()
      reads this
    {
      forall j :: j in linked ==> linked[j]
    }

    /** One piece of work: it has only the effects it may cause, and a pending membership revision stops the execution. */
    method Do(work: Work) returns (stop: bool)
      requires Working()
      modifies this
      ensures Working() && attempts == old(attempts) && old(linked).Keys <= linked.Keys
      ensures old(effects) <= effects && forall e :: e in effects - old(effects) ==> Causes(action, work, e)
      ensures stop <==> action != VerifyAll && Pending(work)
    {
      stop := false;
      if action == VerifyAll {
        if work.Verify? && linked == map[] {
          DoVerify(work.job, work.jobsFull, work.alive);
        }
        return;
      }
      match work {
        case AdoptMembership(remote, local, fastForward, alive) =>
          var adopted;
          ghost var performed;
          stop, adopted, performed := AdoptRevision(ByRequest, remote, local, fastForward, alive);
          effects := effects + performed;
        case RecoverPublication(job, delivery, moved, alive) => DoRecoverPublication(job, delivery, moved, alive);
        case RecoverImport(job, addsCheckpoint, alive) => DoRecoverImport(job, addsCheckpoint, alive);
        case FreshImport(job, addsCheckpoint, jobsFull, alive) => DoFreshImport(job, addsCheckpoint, jobsFull, alive);
        case Deliver(job, answered, alive) => DoDeliver(job, answered, alive);
        case Verify(_, _, _) =>
      }
    }

    /** The work of one execution, in order; nothing is performed past a membership revision that waits for an operator. */
    method Execute(works: seq<Work>)
      requires Working()
      modifies this
      ensures Working() && attempts == old(attempts)
      ensures old(linked).Keys <= linked.Keys
      ensures old(effects) <= effects && forall e :: e in effects - old(effects) ==> Explained(action, works, e)
    {
      var i, stop := 0, false;
      while i < |works| && !stop
        invariant 0 <= i <= |works| && Working() && old(linked).Keys <= linked.Keys && attempts == old(attempts)
        invariant old(effects) <= effects && forall e :: e in effects - old(effects) ==> Explained(action, works, e)
        invariant stop || action == VerifyAll || forall j :: 0 <= j < i ==> !Pending(works[j])
      {
        ghost var before := effects;
        stop := Do(works[i]);
        forall e | e in effects - before ensures Explained(action, works, e) {
          assert Causes(action, works[i], e);
        }
        i := i + 1;
      }
    }

    method Move(to: RequestState, status: Status)
      requires Valid() && to != Queued && (status == NoOp ==> effects == {})
      modifies this`state, this`status, this`reserved
      ensures Valid() && state == to && this.status == status && reserved == 0
    {
      state, this.status, reserved := to, status, 0;
    }

    /** A dispatch of a queued request: claim it, do the work, and record what is known. A refused claim holds the request,
      * and a dispatch whose process dies leaves it running. */
    method Dispatch(works: seq<Work>, open: set<string>, authorized: bool, printed: Printed, code: int, cancelled: bool, survives: bool)
      requires Valid() && state == Queued
      modifies this
      ensures Valid() && state in {Running, Finished, Held, Undecided}
      ensures old(linked).Keys <= linked.Keys
      ensures !authorized || old(attempts) >= ATTEMPTS ==> state == Held && effects == {} && linked == old(linked) && attempts == old(attempts)
      ensures authorized && old(attempts) < ATTEMPTS ==> attempts == old(attempts) + 1 && (!survives ==> state == Running)
      ensures authorized && old(attempts) < ATTEMPTS && survives && cancelled ==> state == Undecided
      ensures state == Finished && status in {NoOp, Failed} ==> effects == {} && linked == map[]
      ensures state == Finished && status == AlreadySettled ==> linked != map[] && AllSettled()
      ensures authorized && old(attempts) < ATTEMPTS && survives && !cancelled && code == 0 ==>
        match action
        case SyncNow =>
          && (printed == Settled ==> state == Finished && (status == NoOp <==> linked == map[]))
          && (printed == Settled ==> (status == AlreadySettled <==> linked != map[] && AllSettled()))
          && (printed == Deferred ==> state == Held)
        case Retry => linked != map[] ==> state == Finished && (status == AlreadySettled <==> AllSettled())
        case VerifyAll => printed == VerificationDone ==> state == Finished && status == Verified
    {
      if !authorized || attempts >= ATTEMPTS {
        Move(Held, BlockedStatus);
        return;
      }
      state, status, attempts, hold, reserved := Running, NoStatus, attempts + 1, false, 0;
      eligible := open * obligations;
      Execute(works);
      if !survives { return; }
      if cancelled {
        Move(Undecided, UncertainStatus);
        return;
      }
      if code == 0 && ((action == SyncNow && printed in {Settled, Deferred}) || (action == Retry && linked != map[])
                       || (action == VerifyAll && printed == VerificationDone)) {
        if action == VerifyAll {
          Move(Finished, Verified);
        } else if printed == Deferred && action == SyncNow {
          Move(Held, BlockedStatus);
        } else {
          Move(Finished, if linked == map[] then NoOp else if AllSettled() then AlreadySettled else Incomplete);
        }
      } else if hold || (action == SyncNow && printed == BlockedByHold) {
        Move(Held, BlockedStatus);
      } else if action != Retry && printed.Refusal? && linked == map[] {
        Move(if printed.final then Finished else Held, if printed.final then Failed else BlockedStatus);
      } else if action == SyncNow && printed == Deferred && code == 10 && linked == map[] {
        Move(Held, BlockedStatus);
      } else {
        Move(Undecided, UncertainStatus);
      }
    }

    /** Some linked job is settled elsewhere, by periodic recovery. */
    method SettleElsewhere(job: string)
      requires Valid() && state != Queued
      modifies this`linked
      ensures Valid() && linked.Keys == old(linked).Keys
    {
      if job in linked {
        linked := linked[job := true];
      }
    }

    /** A recovery pass over an interrupted request: settled obligations finish it, a verification as what was kept of it;
      * no obligation at all lets it run again, and anything else stays open. */
    method Recover(authorized: bool, operatorHold: bool, holdCleared: bool, kept: Observation)
      requires Valid() && state in {Running, Held, Undecided}
      modifies this`state, this`status, this`reserved
      ensures Valid()
      ensures state == Queued ==> linked == map[] && effects == {} && authorized && attempts < ATTEMPTS && (operatorHold ==> holdCleared)
      ensures linked == map[] && authorized && attempts < ATTEMPTS && (operatorHold ==> holdCleared) ==> state == Queued
      ensures state == Finished <==> linked != map[] && AllSettled() && (action == VerifyAll ==> kept != NoObservation)
      ensures state == Finished ==> status == if action != VerifyAll then AlreadySettled else if kept.FinishedObservation? then Verified else Lapsed
      ensures linked != map[] && AllSettled() && state != Finished ==> state == old(state) && status == old(status) && reserved == old(reserved)
      ensures linked != map[] && !AllSettled() ==> state in {Held, Undecided}
    {
      if linked != map[] && AllSettled() {
        if action != VerifyAll {
          Move(Finished, AlreadySettled);
        } else if kept != NoObservation {
          Move(Finished, if kept == ExpiredObservation then Lapsed else Verified);
        }
      } else if linked != map[] {
        if state == Running {
          Move(Undecided, UncertainStatus);
        }
      } else if !authorized || attempts >= ATTEMPTS || (operatorHold && !holdCleared) {
        Move(Held, BlockedStatus);
      } else {
        state, status, reserved := Queued, NoStatus, 0;
      }
    }
  }

  datatype Event =
    | DispatchOnce(works: seq<Work>, open: set<string>, authorized: bool, printed: Printed, code: int, cancelled: bool, survives: bool)
    | Elsewhere(job: string)
    | RecoveryPass(authorized: bool, operatorHold: bool, holdCleared: bool, kept: Observation)

  /** A whole life of a request: dispatches that may die anywhere, recovery passes, and settlements elsewhere, in any
    * order. Every effect is one of a linked job, so the membership ref is never moved under it; a retry performs effects
    * of its obligations only; and whenever the request waits to run again, or ended as a no-op, it performed none. */
  method Life(action: Action, inherited: map<string, bool>, events: seq<Event>) returns (r: Request)
    requires |inherited| <= ASSOCIATIONS && (action != Retry ==> inherited == map[])
    ensures fresh(r) && r.Valid() && r.action == action
    ensures MembershipMove !in r.effects && forall e :: e in r.effects ==> e.job in r.linked
    ensures action == Retry ==> forall e :: e in r.effects ==> e.job in inherited
    ensures r.state == Queued || r.status == NoOp ==> r.effects == {}
  {
    r := new Request(action, inherited);
    var i := 0;
    while i < |events|
      invariant 0 <= i <= |events| && fresh(r) && r.Valid() && r.action == action && r.obligations == inherited.Keys
    {
      match events[i] {
        case DispatchOnce(works, open, authorized, printed, code, cancelled, survives) =>
          if r.state == Queued { r.Dispatch(works, open, authorized, printed, code, cancelled, survives); }
        case Elsewhere(job) =>
          if r.state != Queued { r.SettleElsewhere(job); }
        case RecoveryPass(authorized, operatorHold, holdCleared, kept) =>
          if r.state in {Running, Held, Undecided} { r.Recover(authorized, operatorHold, holdCleared, kept); }
      }
      i := i + 1;
    }
  }
}
