/** The durable control row of a sync group: whether protected effects may start, and why not. */
module Control {

  datatype ControlState = Active | Paused | Blocked

  datatype Reason = NoReason | OperatorPause | ConflictHold | RecoveryHold | TrustHold | MembershipEmergency

  datatype Mode = Normal | Emergency

  datatype Row = Row(revision: nat, state: ControlState, reason: Reason, mode: Mode, config: string)

  /** The combinations the store ever writes. An emergency membership never leaves the group active. */
  predicate Coherent(c: Row) {
    && (c.state == Active <==> c.reason == NoReason)
    && (c.state == Paused <==> c.reason == OperatorPause)
    && (c.reason == MembershipEmergency ==> c.mode == Emergency)
    && (c.mode == Emergency ==> c.state != Active)
  }

  function Initial(config: string): Row {
    Row(1, Active, NoReason, Normal, config)
  }

  function Priority(r: Reason): nat {
    match r
    case TrustHold => 3
    case RecoveryHold => 2
    case ConflictHold => 1
    case _ => 0
  }

  predicate SafetyHold(r: Reason) {
    r in {ConflictHold, RecoveryHold, TrustHold}
  }

  /** Records a safety hold; the strongest established one stays. */
  function Hold(c: Row, reason: Reason, config: string): Row
    requires SafetyHold(reason)
  {
    if c.state == Blocked && c.reason == reason && c.config == config then c
    else
      var kept := if c.state == Blocked && Priority(reason) < Priority(c.reason) then c.reason else reason;
      c.(revision := c.revision + 1, state := Blocked, reason := kept, config := config)
  }

  datatype Attempt = Done(row: Row) | Refused

  /** The operator's pause and resume, under an exact revision. */
  function Set(c: Row, expected: nat, target: ControlState, config: string): Attempt
    requires target != Blocked
  {
    if c.revision != expected || c.state == Blocked then Refused
    else
      var to := if target == Active && c.mode == Emergency then Blocked else target;
      if c.state == to && (to != Active || c.config == config) then Done(c)
      else
        var reason := if to == Paused then OperatorPause else if to == Blocked then MembershipEmergency else NoReason;
        Done(c.(revision := c.revision + 1, state := to, reason := reason, config := if to == Paused then c.config else config))
  }

  /** Applies the posture of a verified membership revision. */
  function Adopt(c: Row, mode: Mode, config: string): Row {
    var (state, reason) :=
      if mode == Emergency then (if c.state == Active then (Blocked, MembershipEmergency) else (c.state, c.reason))
      else if c.state == Blocked && c.reason == MembershipEmergency then (Active, NoReason)
      else (c.state, c.reason);
    if state != c.state || reason != c.reason || c.mode != mode || (state == Active && c.config != config)
    then Row(c.revision + 1, state, reason, mode, if state == Paused then c.config else config)
    else c
  }

  /** Clears a safety hold after a verified administrator checkpoint; an emergency membership stays blocked. */
  function ClearByCheckpoint(c: Row, expected: nat, config: string): Attempt {
    if c.revision != expected || c.state != Blocked || !SafetyHold(c.reason) then Refused
    else if c.mode == Emergency then Done(c.(revision := c.revision + 1, reason := MembershipEmergency, config := config))
    else Done(c.(revision := c.revision + 1, state := Active, reason := NoReason, config := config))
  }

  function Outcome(c: Row, a: Attempt): Row {
    match a
    case Done(d) => d
    case Refused => c
  }

  datatype Act =
    | DoHold(reason: Reason, config: string)
    | DoSet(expected: nat, target: ControlState, config: string)
    | DoAdopt(mode: Mode, config: string)
    | DoClear(expected: nat, config: string)

  function Perform(c: Row, a: Act): Row {
    match a
    case DoHold(reason, config) => if SafetyHold(reason) then Hold(c, reason, config) else c
    case DoSet(expected, target, config) => if target == Blocked then c else Outcome(c, Set(c, expected, target, config))
    case DoAdopt(mode, config) => Adopt(c, mode, config)
    case DoClear(expected, config) => Outcome(c, ClearByCheckpoint(c, expected, config))
  }

  function PerformAll(c: Row, acts: seq<Act>): Row
    decreases |acts|
  {
    if acts == [] then c else PerformAll(Perform(c, acts[0]), acts[1..])
  }

  /** Every control row the store can reach is coherent, and its emergency posture is the one last adopted. */
  lemma {:induction false} ControlStaysCoherent(c: Row, acts: seq<Act>)
    requires Coherent(c)
    ensures Coherent(PerformAll(c, acts)) && c.revision <= PerformAll(c, acts).revision
    ensures PerformAll(c, acts).mode == LastAdopted(c.mode, acts)
    decreases |acts|
  {
    if acts != [] {
      ControlStaysCoherent(Perform(c, acts[0]), acts[1..]);
    }
  }

  function LastAdopted(mode: Mode, acts: seq<Act>): Mode
    decreases |acts|
  {
    if acts == [] then mode else LastAdopted(if acts[0].DoAdopt? then acts[0].mode else mode, acts[1..])
  }

  /** A safety hold is weakened by nothing but a checkpoint: holds, pauses, resumes and membership changes keep the
    * group blocked with a reason at least as strong. */
  lemma {:induction false} HoldOnlyStrengthens(c: Row, acts: seq<Act>)
    requires Coherent(c) && c.state == Blocked && SafetyHold(c.reason)
    requires forall a :: a in acts ==> !a.DoClear?
    ensures var d := PerformAll(c, acts);
      d.state == Blocked && SafetyHold(d.reason) && Priority(c.reason) <= Priority(d.reason)
    decreases |acts|
  {
    if acts != [] {
      HoldOnlyStrengthens(Perform(c, acts[0]), acts[1..]);
    }
  }
}
