/** Signal, PutStatus and the reconciler as version-checked writers of one custom resource's status. */
module Signals {
  import opened Base
  import opened Phases

  datatype SimpleKind = BooleanKind | IntegerKind | FloatKind | StringKind

  datatype SignalValue =
    | BooleanValue(b: bool) | IntegerValue(n: int) | FloatValue(x: real) | StringValue(s: string)
    | NotPrimitive

  /** literalPrimitiveKind */
  function KindOf(v: SignalValue): Option<SimpleKind> {
    match v
    case BooleanValue(_) => Some(BooleanKind)
    case IntegerValue(_) => Some(IntegerKind)
    case FloatValue(_) => Some(FloatKind)
    case StringValue(_) => Some(StringKind)
    case NotPrimitive => None
  }

  /** `declared` is None for a type that no signal can have; a malformed spec is empty or cannot be read. */
  datatype Spec = Spec(isCondition: bool, declared: Option<SimpleKind>, malformed: bool)

  datatype Status = Status(signal: Option<SignalValue>, phase: Phase, attempts: nat, cacheStatus: nat)

  datatype Refusal = NotFound | BadValue | NotACondition | OtherValue | Completed | BadSpec | WrongKind | Conflict | Unanswered

  /** What a reconciler has decided to write: the conditions of a condition action, the whole status of a task. A status
      that is written once goes to the version it was decided on or nowhere. */
  datatype Change = SetPhase(phase: Phase) | Replace(status: Status) | Once(status: Status)

  /** A writer reads a version and writes back; a reconciler reads again between its decision and its write.
      Versions are counted from one. */
  datatype Progress = Fresh | Decided | Holding(rev: nat, next: Status) | Done(refusal: Option<Refusal>)

  datatype Call =
    | Signal(value: SignalValue, progress: Progress)
    | PutStatus(attempts: nat, cacheStatus: nat, progress: Progress)
    | Reconcile(basis: nat, change: Change, progress: Progress)

  /** `reconciled` is the last version that a reconciler wrote. */
  datatype State = State(spec: Spec, versions: seq<Status>, reconciled: nat, deleted: bool, calls: map<nat, Call>)

  /** What a task's reconciliation came to: a phase observed of its plugin, a restart after a failure that is retried, a
      permanent failure, a counted system error, or a refusal of the task as it is. */
  datatype Outcome = Observed(phase: Phase, cacheStatus: nat) | Restarted | PermanentlyFailed | SystemError | Invalid

  datatype Step =
    | Start(id: nat, call: Call)
    | Get(id: nat, rev: nat, late: bool, task: Outcome)
    | Refetch(id: nat, rev: nat)
    | Missing(id: nat)
    | Update(id: nat, answered: bool)
    | GiveUp(id: nat)
    | Touch
    | Remove

  const CACHE_DISABLED: nat := 0

  const EMPTY := Status(None, Unspecified, 0, CACHE_DISABLED)

  function Init(spec: Spec): State {
    State(spec, [EMPTY], 1, false, map[])
  }

  /** What Signal does with the version it read. */
  function SignalDecision(spec: Spec, value: SignalValue, rev: nat, read: Status): Progress {
    if KindOf(value).None? then Done(Some(BadValue))
    else if !spec.isCondition then Done(Some(NotACondition))
    else if read.signal.Some? then Done(if read.signal.value == value then None else Some(OtherValue))
    else if Terminal(read.phase) then Done(Some(Completed))
    else if spec.malformed then Done(Some(BadSpec))
    else if spec.declared != KindOf(value) then Done(Some(WrongKind))
    else Holding(rev, read.(signal := Some(value)))
  }

  function PutDecision(attempts: nat, cacheStatus: nat, rev: nat, read: Status): Progress {
    if read.attempts == attempts && read.cacheStatus == cacheStatus then Done(None)
    else Holding(rev, read.(attempts := attempts, cacheStatus := cacheStatus))
  }

  /** The phase a reconciler moves a live condition to; `late` says that its deadline has passed. */
  function ConditionPhase(spec: Spec, read: Status, late: bool): Phase {
    if read.signal.Some? then Succeeded else if spec.malformed then Failed else if late then TimedOut else Paused
  }

  /** The attempts read, or one for none, and one more on a restart. */
  function AttemptsMadeOf(read: nat, task: Outcome): nat {
    var observed := if read > 0 then read else 1;
    match task
    case Observed(_, _) => observed
    case Restarted => observed + 1
    case _ => read
  }

  function CacheStatusMadeOf(read: nat, task: Outcome): nat {
    match task
    case Observed(_, cacheStatus) => cacheStatus
    case Restarted => CACHE_DISABLED
    case _ => read
  }

  function PhaseMadeOf(read: Phase, task: Outcome): Phase {
    match task
    case Observed(phase, _) => phase
    case Restarted => Queued
    case SystemError => read
    case _ => Failed
  }

  /** What reconciling a task makes of the status it read. */
  function TaskStatus(read: Status, task: Outcome): Status {
    read.(phase := PhaseMadeOf(read.phase, task), attempts := AttemptsMadeOf(read.attempts, task),
          cacheStatus := CacheStatusMadeOf(read.cacheStatus, task))
  }

  function ReconcileChange(spec: Spec, read: Status, late: bool, task: Outcome): Change {
    if spec.isCondition then SetPhase(ConditionPhase(spec, read, late))
    else if task.SystemError? || task.Invalid? then Once(TaskStatus(read, task))
    else Replace(TaskStatus(read, task))
  }

  function Changed(change: Change, latest: Status): Status {
    match change
    case SetPhase(phase) => latest.(phase := phase)
    case Replace(status) => status
    case Once(status) => status
  }

  predicate Active(call: Call) {
    call.Reconcile? && !call.progress.Done?
  }

  /** A resource is reconciled by one call at a time, which sees at least what the one before wrote. */
  predicate Enabled(s: State, step: Step) {
    match step
    case Start(id, call) =>
      && id !in s.calls && call.progress.Fresh?
      && (call.Reconcile? ==> forall i | i in s.calls :: !Active(s.calls[i]))
    case Get(id, rev, _, _) =>
      && id in s.calls && s.calls[id].progress.Fresh? && 0 < rev <= |s.versions|
      && (s.calls[id].Reconcile? ==> rev >= s.reconciled)
    case Refetch(id, rev) => id in s.calls && Active(s.calls[id]) && s.calls[id].progress.Decided? && 0 < rev <= |s.versions|
    case Missing(id) =>
      id in s.calls && s.calls[id].progress.Fresh? && s.deleted
      && (s.calls[id].Signal? ==> KindOf(s.calls[id].value).Some?)
    case Update(id, _) => id in s.calls && s.calls[id].progress.Holding?
    case GiveUp(id) =>
      id in s.calls && ((s.calls[id].Signal? && s.calls[id].progress.Fresh?) || s.calls[id].progress.Decided?)
    case Touch => |s.versions| > 0 && !s.deleted
    case Remove => !s.deleted
  }

  function Move(s: State, id: nat, call: Call): State {
    s.(calls := s.calls[id := call])
  }

  function Got(s: State, id: nat, rev: nat, late: bool, task: Outcome): Call
    requires id in s.calls && 0 < rev <= |s.versions|
  {
    var read := s.versions[rev - 1];
    match s.calls[id]
    case Signal(value, _) => Signal(value, SignalDecision(s.spec, value, rev, read))
    case PutStatus(attempts, cacheStatus, _) =>
      PutStatus(attempts, cacheStatus, PutDecision(attempts, cacheStatus, rev, read))
    case Reconcile(_, _, _) =>
      var change := ReconcileChange(s.spec, read, late, task);
      Reconcile(rev, change,
                if Terminal(read.phase) then Done(None) else if change.Once? then Holding(rev, change.status) else Decided)
  }

  /** A status update succeeds only on the version it was read from. After a conflict Signal decides again on a new
      read; a reconciler keeps its decision and only reads again. */
  function Updated(s: State, id: nat, answered: bool): State
    requires id in s.calls && s.calls[id].progress.Holding?
  {
    var call := s.calls[id];
    var p := call.progress;
    if s.deleted then Move(s, id, call.(progress := Done(Some(NotFound))))
    else if p.rev == |s.versions| then
      Move(s, id, call.(progress := Done(if answered then None else Some(Unanswered))))
        .(versions := s.versions + [p.next], reconciled := if call.Reconcile? then p.rev + 1 else s.reconciled)
    else
      Move(s, id, call.(progress := if call.Signal? then Fresh
                                      else if call.Reconcile? && !call.change.Once? then Decided else Done(Some(Conflict))))
  }

  function Apply(s: State, step: Step): State
    requires Enabled(s, step)
  {
    match step
    case Start(id, call) => Move(s, id, call)
    case Get(id, rev, late, task) => Move(s, id, Got(s, id, rev, late, task))
    case Refetch(id, rev) =>
      Move(s, id, s.calls[id].(progress := Holding(rev, Changed(s.calls[id].change, s.versions[rev - 1]))))
    case Missing(id) => Move(s, id, s.calls[id].(progress := Done(Some(NotFound))))
    case Update(id, answered) => Updated(s, id, answered)
    case GiveUp(id) => Move(s, id, s.calls[id].(progress := Done(Some(Conflict))))
    case Touch => s.(versions := s.versions + [s.versions[|s.versions| - 1]])
    case Remove => s.(deleted := true)
  }

  ghost predicate IsRun(spec: Spec, run: seq<State>, steps: seq<Step>) {
    && |run| == |steps| + 1 && run[0] == Init(spec)
    && forall i :: 0 <= i < |steps| ==> Enabled(run[i], steps[i]) && run[i + 1] == Apply(run[i], steps[i])
  }

  lemma StepAt(spec: Spec, run: seq<State>, steps: seq<Step>, i: nat)
    requires IsRun(spec, run, steps) && i < |steps|
    ensures Enabled(run[i], steps[i]) && run[i + 1] == Apply(run[i], steps[i])
  {
  }

  lemma RunStep(spec: Spec, run: seq<State>, steps: seq<Step>, i: nat)
    requires IsRun(spec, run, steps) && i + 1 < |run|
    ensures i < |steps| && Enabled(run[i], steps[i]) && run[i + 1] == Apply(run[i], steps[i])
  {
  }

  /** Two successive versions differ in what one writer owns, and only as that writer may change it. A task's
      reconciler owns the whole status. */
  predicate OneWriter(spec: Spec, a: Status, b: Status) {
    || b == a
    || b == a.(attempts := b.attempts, cacheStatus := b.cacheStatus)
    || (spec.isCondition && a.signal.None? && !Terminal(a.phase)
        && b.signal.Some? && KindOf(b.signal.value) == spec.declared && spec.declared.Some? && !spec.malformed
        && b == a.(signal := b.signal))
    || (!Terminal(a.phase) && b.signal == a.signal
        && (spec.isCondition ==>
              && b == a.(phase := b.phase) && b.phase in {Succeeded, Failed, TimedOut, Paused}
              && (b.phase == Succeeded ==> a.signal.Some?)))
  }

  /** The decision of a reconciler, against the version it read. */
  predicate ChangeOk(s: State, basis: nat, change: Change) {
    && 0 < basis <= |s.versions| && s.reconciled <= basis
    && var read := s.versions[basis - 1];
       && !Terminal(read.phase)
       && if s.spec.isCondition
          then change.SetPhase? && change.phase in {Succeeded, Failed, TimedOut, Paused}
               && (change.phase == Succeeded <==> read.signal.Some?)
          else (change.Replace? || change.Once?) && change.status.signal == read.signal
  }

  /** A call that holds a version will write what its kind of writer may. */
  predicate CallOk(s: State, call: Call) {
    && (Active(call) && !call.progress.Fresh? ==> ChangeOk(s, call.basis, call.change))
    && match call.progress
       case Holding(rev, next) =>
         && 0 < rev <= |s.versions|
         && (if call.Reconcile? then next == Changed(call.change, s.versions[rev - 1])
             else OneWriter(s.spec, s.versions[rev - 1], next) && next.phase == s.versions[rev - 1].phase)
         && (call.Signal? ==> next == s.versions[rev - 1].(signal := Some(call.value)))
         && (call.PutStatus? ==> next.attempts == call.attempts && next.cacheStatus == call.cacheStatus)
       case Done(refusal) =>
         call.Signal? && refusal.None? ==> exists k :: 0 <= k < |s.versions| && s.versions[k].signal == Some(call.value)
       case _ => true
  }

  ghost predicate Inv(s: State) {
    && |s.versions| > 0 && s.versions[0] == EMPTY && 0 < s.reconciled <= |s.versions|
    && (forall k :: 0 < k < |s.versions| ==> OneWriter(s.spec, s.versions[k - 1], s.versions[k]))
    && (forall k :: s.reconciled <= k < |s.versions| ==> s.versions[k].phase == s.versions[s.reconciled - 1].phase)
    && (forall id | id in s.calls :: CallOk(s, s.calls[id]))
    && forall i, j | i in s.calls && j in s.calls && Active(s.calls[i]) && Active(s.calls[j]) :: i == j
  }

  lemma CallStaysOk(s: State, t: State, call: Call)
    requires CallOk(s, call) && t.spec == s.spec && s.versions <= t.versions
    requires t.reconciled == s.reconciled || !Active(call)
    ensures CallOk(t, call)
  {
    if call.Signal? && call.progress == Done(None) {
      var k :| 0 <= k < |s.versions| && s.versions[k].signal == Some(call.value);
      assert t.versions[k] == s.versions[k];
    }
  }

  /** What holds of every version: a signal has the declared kind, and success means there is one. */
  predicate Consistent(spec: Spec, v: Status) {
    && (v.signal.Some? ==>
          spec.isCondition && !spec.malformed && spec.declared.Some? && KindOf(v.signal.value) == spec.declared)
    && (spec.isCondition && v.phase == Succeeded ==> v.signal.Some?)
  }

  ghost predicate GoodVersions(spec: Spec, versions: seq<Status>) {
    && |versions| > 0 && versions[0] == EMPTY
    && forall k :: 0 < k < |versions| ==> OneWriter(spec, versions[k - 1], versions[k])
  }

  lemma {:induction false} VersionsAreConsistent(spec: Spec, versions: seq<Status>, k: nat)
    requires GoodVersions(spec, versions) && k < |versions|
    ensures Consistent(spec, versions[k])
  {
    if k > 0 {
      VersionsAreConsistent(spec, versions, k - 1);
      assert OneWriter(spec, versions[k - 1], versions[k]);
    }
  }

  lemma {:induction false} SignalAndPhaseStay(spec: Spec, versions: seq<Status>, j: nat, k: nat)
    requires GoodVersions(spec, versions) && j <= k < |versions|
    ensures versions[j].signal.Some? ==> versions[k].signal == versions[j].signal
    ensures Terminal(versions[j].phase) ==> versions[k].phase == versions[j].phase
    ensures !spec.isCondition ==> versions[k].signal.None?
  {
    VersionsAreConsistent(spec, versions, k);
    if j < k {
      SignalAndPhaseStay(spec, versions, j, k - 1);
      assert OneWriter(spec, versions[k - 1], versions[k]);
    }
  }

  /** The version a writer appends follows on the latest. */
  lemma NextVersion(s: State, id: nat)
    requires Inv(s) && id in s.calls && s.calls[id].progress.Holding? && s.calls[id].progress.rev == |s.versions|
    ensures
      var call := s.calls[id];
      var latest := s.versions[|s.versions| - 1];
      && OneWriter(s.spec, latest, call.progress.next)
      && (!call.Reconcile? ==> call.progress.next.phase == latest.phase)
  {
    var call := s.calls[id];
    assert CallOk(s, call);
    if call.Reconcile? {
      assert call.basis == s.reconciled || s.versions[call.basis - 1].phase == s.versions[s.reconciled - 1].phase;
      SignalAndPhaseStay(s.spec, s.versions, call.basis - 1, |s.versions| - 1);
    }
  }

  /** The versions after an update. */
  lemma UpdatedVersions(s: State, id: nat, answered: bool)
    requires Inv(s) && Enabled(s, Update(id, answered))
    ensures
      var t := Updated(s, id, answered);
      && s.versions <= t.versions && 0 < t.reconciled <= |t.versions|
      && (forall k :: 0 < k < |t.versions| ==> OneWriter(s.spec, t.versions[k - 1], t.versions[k]))
      && (forall k :: t.reconciled <= k < |t.versions| ==> t.versions[k].phase == t.versions[t.reconciled - 1].phase)
  {
    var t := Updated(s, id, answered);
    if |t.versions| > |s.versions| {
      NextVersion(s, id);
      hide OneWriter, CallOk;
      assert t.versions[|s.versions|] == s.calls[id].progress.next;
      assert forall k :: 0 <= k < |s.versions| ==> t.versions[k] == s.versions[k];
    }
  }

  lemma UpdatedCall(s: State, id: nat, answered: bool)
    requires Inv(s) && Enabled(s, Update(id, answered))
    ensures var t := Updated(s, id, answered); CallOk(t, t.calls[id])
  {
    var t, call := Updated(s, id, answered), s.calls[id];
    assert CallOk(s, call);
    if call.Signal? && t.calls[id].progress == Done(None) {
      assert t.versions[|s.versions|] == call.progress.next;
    }
  }

  lemma UpdateInv(s: State, id: nat, answered: bool)
    requires Inv(s) && Enabled(s, Update(id, answered))
    ensures Inv(Updated(s, id, answered)) && s.versions <= Updated(s, id, answered).versions
  {
    var t := Updated(s, id, answered);
    UpdatedVersions(s, id, answered);
    UpdatedCall(s, id, answered);
    assert CallOk(t, t.calls[id]);
    hide OneWriter, CallOk, ChangeOk;
    forall i | i in t.calls && i != id ensures CallOk(t, t.calls[i]) {
      CallStaysOk(s, t, s.calls[i]);
    }
  }

  lemma GetInv(s: State, id: nat, rev: nat, late: bool, task: Outcome)
    requires Inv(s) && Enabled(s, Get(id, rev, late, task))
    ensures CallOk(s, Got(s, id, rev, late, task))
  {
  }

  lemma RefetchInv(s: State, id: nat, rev: nat)
    requires Inv(s) && Enabled(s, Refetch(id, rev))
    ensures Inv(Apply(s, Refetch(id, rev)))
  {
    var t := Apply(s, Refetch(id, rev));
    assert CallOk(s, s.calls[id]);
    assert CallOk(t, t.calls[id]);
    hide CallOk, ChangeOk, OneWriter;
    SameVersions(s, t, id);
  }

  lemma TouchInv(s: State)
    requires Inv(s) && Enabled(s, Touch)
    ensures Inv(Apply(s, Touch))
  {
    var t := Apply(s, Touch);
    var last := s.versions[|s.versions| - 1];
    assert OneWriter(s.spec, last, last);
    assert t.versions[|s.versions|] == last;
    assert forall k :: 0 <= k < |s.versions| ==> t.versions[k] == s.versions[k];
    hide OneWriter, CallOk, ChangeOk;
    forall i | i in t.calls ensures CallOk(t, t.calls[i]) {
      CallStaysOk(s, t, s.calls[i]);
    }
  }

  lemma InvStep(s: State, step: Step)
    requires Inv(s) && Enabled(s, step)
    ensures Inv(Apply(s, step)) && s.versions <= Apply(s, step).versions && Apply(s, step).spec == s.spec
  {
    match step
    case Update(id, answered) => UpdateInv(s, id, answered);
    case Touch => TouchInv(s);
    case Refetch(id, rev) => RefetchInv(s, id, rev);
    case Get(id, rev, late, task) =>
      GetInv(s, id, rev, late, task);
      hide Got, OneWriter, ChangeOk, CallOk;
      SameVersions(s, Apply(s, step), id);
    case _ => CallMoves(s, step);
  }

  lemma CallMoves(s: State, step: Step)
    requires Inv(s) && Enabled(s, step) && (step.Start? || step.Missing? || step.GiveUp? || step.Remove?)
    ensures Inv(Apply(s, step)) && s.versions <= Apply(s, step).versions && Apply(s, step).spec == s.spec
  {
    hide OneWriter;
    match step
    case Start(id, call) => SameVersions(s, Apply(s, step), id);
    case Missing(id) => SameVersions(s, Apply(s, step), id);
    case GiveUp(id) => SameVersions(s, Apply(s, step), id);
    case Remove => SameVersions(s, Apply(s, step), 0);
  }

  /** A step that moves one call and writes nothing. */
  lemma SameVersions(s: State, t: State, id: nat)
    requires Inv(s) && t == s.(calls := t.calls, deleted := t.deleted) && t.calls.Keys <= s.calls.Keys + {id}
    requires forall i | i in t.calls && i != id :: i in s.calls && t.calls[i] == s.calls[i]
    requires id in t.calls ==> CallOk(t, t.calls[id])
    requires id in t.calls && Active(t.calls[id]) ==>
      (id in s.calls && Active(s.calls[id])) || forall i | i in s.calls :: !Active(s.calls[i])
    ensures Inv(t)
  {
    forall i | i in t.calls && i != id ensures CallOk(t, t.calls[i]) {
      CallStaysOk(s, t, s.calls[i]);
    }
  }

  lemma {:induction false} InvRun(spec: Spec, run: seq<State>, steps: seq<Step>, i: nat)
    requires IsRun(spec, run, steps) && i < |run|
    ensures Inv(run[i]) && run[i].spec == spec && GoodVersions(spec, run[i].versions)
  {
    if i > 0 {
      InvRun(spec, run, steps, i - 1);
      StepAt(spec, run, steps, i - 1);
      InvStep(run[i - 1], steps[i - 1]);
    }
  }

  lemma {:induction false} VersionsOnlyGrow(spec: Spec, run: seq<State>, steps: seq<Step>, i: nat, j: nat)
    requires IsRun(spec, run, steps) && i <= j < |run|
    ensures run[i].versions <= run[j].versions
  {
    hide *;
    if i < j {
      VersionsOnlyGrow(spec, run, steps, i, j - 1);
      InvRun(spec, run, steps, j - 1);
      RunStep(spec, run, steps, j - 1);
      InvStep(run[j - 1], steps[j - 1]);
    }
  }

  /** A stored signal is never changed, has the declared kind, and belongs to a condition. */
  lemma SignalIsWriteOnce(spec: Spec, run: seq<State>, steps: seq<Step>, i: nat, j: nat, p: nat, q: nat)
    requires IsRun(spec, run, steps) && i <= j < |run|
    requires p < |run[i].versions| && p <= q < |run[j].versions| && run[i].versions[p].signal.Some?
    ensures run[j].versions[q].signal == run[i].versions[p].signal
    ensures spec.isCondition && !spec.malformed
    ensures spec.declared.Some? && KindOf(run[i].versions[p].signal.value) == spec.declared
  {
    VersionsOnlyGrow(spec, run, steps, i, j);
    InvRun(spec, run, steps, j);
    SignalAndPhaseStay(spec, run[j].versions, p, q);
    VersionsAreConsistent(spec, run[j].versions, p);
  }

  function Current(s: State): Status
    requires |s.versions| > 0
  {
    s.versions[|s.versions| - 1]
  }

  predicate Succeeds(s: State, id: nat, value: SignalValue) {
    id in s.calls && s.calls[id] == Signal(value, Done(None))
  }

  /** A Signal call that succeeded has its value stored, and from then on for good. */
  lemma SuccessMeansStored(spec: Spec, run: seq<State>, steps: seq<Step>, i: nat, j: nat, id: nat, value: SignalValue)
    requires IsRun(spec, run, steps) && i <= j < |run| && Succeeds(run[i], id, value)
    ensures |run[j].versions| > 0 && Current(run[j]).signal == Some(value)
  {
    InvRun(spec, run, steps, i);
    assert CallOk(run[i], run[i].calls[id]);
    var k :| 0 <= k < |run[i].versions| && run[i].versions[k].signal == Some(value);
    VersionsOnlyGrow(spec, run, steps, i, j);
    SignalIsWriteOnce(spec, run, steps, i, j, k, |run[j].versions| - 1);
  }

  /** So any two calls that succeeded were given the same value. */
  lemma SuccessesAgree(spec: Spec, run: seq<State>, steps: seq<Step>, i: nat, a: nat, x: SignalValue, b: nat, y: SignalValue)
    requires IsRun(spec, run, steps) && i < |run| && Succeeds(run[i], a, x) && Succeeds(run[i], b, y)
    ensures x == y
  {
    SuccessMeansStored(spec, run, steps, i, i, a, x);
    SuccessMeansStored(spec, run, steps, i, i, b, y);
  }

  /** A final phase stays, and a condition that succeeded was signalled. */
  lemma FinalPhaseStays(spec: Spec, run: seq<State>, steps: seq<Step>, i: nat, j: nat)
    requires IsRun(spec, run, steps) && i <= j < |run|
    requires |run[i].versions| > 0 && Terminal(Current(run[i]).phase)
    ensures |run[j].versions| > 0 && Current(run[j]).phase == Current(run[i]).phase
    ensures spec.isCondition && Current(run[j]).phase == Succeeded ==> Current(run[j]).signal.Some?
  {
    VersionsOnlyGrow(spec, run, steps, i, j);
    InvRun(spec, run, steps, j);
    SignalAndPhaseStay(spec, run[j].versions, |run[i].versions| - 1, |run[j].versions| - 1);
    VersionsAreConsistent(spec, run[j].versions, |run[j].versions| - 1);
  }

  /** The fate of a condition is decided on the version the reconciler read: it succeeds exactly if the signal was
      stored by then. */
  lemma ReadDecidesCondition(spec: Spec, run: seq<State>, steps: seq<Step>, i: nat, id: nat)
    requires IsRun(spec, run, steps) && i < |steps| && spec.isCondition
    requires id in run[i].calls && run[i].calls[id].Reconcile? && steps[i].Update? && steps[i].id == id
    requires |run[i + 1].versions| > |run[i].versions|
    ensures
      var basis := run[i].calls[id].basis;
      && 0 < basis <= |run[i].versions|
      && (Current(run[i + 1]).phase == Succeeded <==> run[i].versions[basis - 1].signal.Some?)
      && Current(run[i + 1]).signal == Current(run[i]).signal
  {
    InvRun(spec, run, steps, i);
    StepAt(spec, run, steps, i);
    assert CallOk(run[i], run[i].calls[id]);
  }

  /** A run goes on with any enabled step. */
  lemma Extend(spec: Spec, run: seq<State>, steps: seq<Step>, step: Step) returns (longer: seq<State>, more: seq<Step>)
    requires IsRun(spec, run, steps) && Enabled(run[|run| - 1], step)
    ensures IsRun(spec, longer, more) && longer[|longer| - 1] == Apply(run[|run| - 1], step)
  {
    longer, more := run + [Apply(run[|run| - 1], step)], steps + [step];
    forall i | 0 <= i < |more| ensures Enabled(longer[i], more[i]) && longer[i + 1] == Apply(longer[i], more[i]) {
      if i < |steps| {
        StepAt(spec, run, steps, i);
      }
    }
  }

  /** A signal that arrives between the reconciler's read and its write is answered with success and stored, and the
      condition still times out. */
  lemma LateSignalTimesOut(value: SignalValue) returns (run: seq<State>, steps: seq<Step>, spec: Spec)
    requires KindOf(value).Some?
    ensures spec.isCondition && IsRun(spec, run, steps) && |run| > 0
    ensures
      var last := run[|run| - 1];
      Succeeds(last, 1, value) && |last.versions| > 0
      && Current(last).signal == Some(value) && Current(last).phase == TimedOut
  {
    spec := Spec(true, KindOf(value), false);
    var none := SystemError;
    run, steps := [Init(spec)], [];
    assert IsRun(spec, run, steps);
    hide IsRun;
    run, steps := Extend(spec, run, steps, Start(0, Reconcile(0, SetPhase(Unspecified), Fresh)));
    run, steps := Extend(spec, run, steps, Get(0, 1, true, none));
    run, steps := Extend(spec, run, steps, Start(1, Signal(value, Fresh)));
    run, steps := Extend(spec, run, steps, Get(1, 1, false, none));
    run, steps := Extend(spec, run, steps, Update(1, true));
    run, steps := Extend(spec, run, steps, Refetch(0, 2));
    run, steps := Extend(spec, run, steps, Update(0, true));
  }

  /** A task's reconciler writes the attempts it made of those it read, here one, over those of a PutStatus that was
      answered meanwhile. */
  lemma TaskReconcileDropsAttempts(declared: Option<SimpleKind>, attempts: nat)
      returns (run: seq<State>, steps: seq<Step>, spec: Spec)
    requires attempts > 1
    ensures !spec.isCondition && IsRun(spec, run, steps) && |run| > 0
    ensures
      var last := run[|run| - 1];
      && 1 in last.calls && last.calls[1] == PutStatus(attempts, 0, Done(None))
      && |last.versions| > 0 && Current(last).attempts == 1 && Current(last).phase == Running
  {
    spec := Spec(false, declared, false);
    var none := Observed(Running, CACHE_DISABLED);
    run, steps := [Init(spec)], [];
    assert IsRun(spec, run, steps);
    hide IsRun;
    run, steps := Extend(spec, run, steps, Start(0, Reconcile(0, SetPhase(Unspecified), Fresh)));
    run, steps := Extend(spec, run, steps, Get(0, 1, false, none));
    run, steps := Extend(spec, run, steps, Start(1, PutStatus(attempts, 0, Fresh)));
    run, steps := Extend(spec, run, steps, Get(1, 1, false, none));
    run, steps := Extend(spec, run, steps, Update(1, true));
    run, steps := Extend(spec, run, steps, Refetch(0, 2));
    run, steps := Extend(spec, run, steps, Update(0, true));
  }

  /** Step i is a write of the call that goes through. */
  predicate Writes(run: seq<State>, steps: seq<Step>, i: nat, id: nat)
    requires i < |steps| && |run| == |steps| + 1
  {
    steps[i].Update? && steps[i].id == id && |run[i + 1].versions| > |run[i].versions|
  }

  /** A reconciler keeps what it decided at its first read. */
  lemma {:induction false} DecisionStays(spec: Spec, run: seq<State>, steps: seq<Step>, g: nat, n: nat)
    requires |run| == |steps| + 1 && g < n <= |steps| && IsRun(spec, run, steps)
    requires steps[g].Get? && steps[g].id in run[g].calls && run[g].calls[steps[g].id].Reconcile?
    ensures 0 < steps[g].rev <= |run[g].versions|
    ensures
      var id, read := steps[g].id, run[g].versions[steps[g].rev - 1];
      id in run[n].calls && var call := run[n].calls[id];
      && call.Reconcile? && !call.progress.Fresh? && call.basis == steps[g].rev
      && call.change == ReconcileChange(spec, read, steps[g].late, steps[g].task)
  {
    StepAt(spec, run, steps, g);
    if n == g + 1 {
      InvRun(spec, run, steps, g);
      hide IsRun, Inv, GoodVersions, ReconcileChange;
    } else {
      hide IsRun, ReconcileChange, Apply, Enabled;
      DecisionStays(spec, run, steps, g, n - 1);
      StepAt(spec, run, steps, n - 1);
      CallKeepsDecision(run[n - 1], steps[n - 1], steps[g].id);
    }
  }

  lemma CallKeepsDecision(s: State, step: Step, id: nat)
    requires Enabled(s, step) && id in s.calls && s.calls[id].Reconcile? && !s.calls[id].progress.Fresh?
    ensures id in Apply(s, step).calls && Apply(s, step).calls[id] == s.calls[id].(progress := Apply(s, step).calls[id].progress)
    ensures !Apply(s, step).calls[id].progress.Fresh?
  {
  }

  /** A write of a task's reconciler stores what it made of the version it first read, whatever was stored since; so it
      keeps the stored attempts and cache status exactly if they are the ones made of that version. */
  lemma TaskWriteKeepsExactly(spec: Spec, run: seq<State>, steps: seq<Step>, g: nat, i: nat)
    requires IsRun(spec, run, steps) && !spec.isCondition && g < i < |steps|
    requires steps[g].Get? && steps[g].id in run[g].calls && run[g].calls[steps[g].id].Reconcile?
    requires Writes(run, steps, i, steps[g].id)
    ensures |run[i].versions| > 0 && 0 < steps[g].rev <= |run[g].versions|
    ensures
      var before, after, read := Current(run[i]), Current(run[i + 1]), run[g].versions[steps[g].rev - 1];
      && after == TaskStatus(read, steps[g].task)
      && (after.attempts == before.attempts <==> before.attempts == AttemptsMadeOf(read.attempts, steps[g].task))
      && (after.cacheStatus == before.cacheStatus <==> before.cacheStatus == CacheStatusMadeOf(read.cacheStatus, steps[g].task))
  {
    DecisionStays(spec, run, steps, g, i);
    WriteOf(spec, run, steps, i);
  }

  /** A system error or a refusal is written on the version that was read or not at all, so it never drops anything. */
  lemma WrittenOnceKeepsAttempts(spec: Spec, run: seq<State>, steps: seq<Step>, g: nat, i: nat)
    requires IsRun(spec, run, steps) && !spec.isCondition && g < i < |steps|
    requires steps[g].Get? && steps[g].id in run[g].calls && run[g].calls[steps[g].id].Reconcile?
    requires Writes(run, steps, i, steps[g].id) && (steps[g].task.SystemError? || steps[g].task.Invalid?)
    ensures |run[i].versions| > 0
    ensures
      Current(run[i + 1]).attempts == Current(run[i]).attempts && Current(run[i + 1]).cacheStatus == Current(run[i]).cacheStatus
  {
    DecisionStays(spec, run, steps, g, i);
    OnceHoldsItsRead(spec, run, steps, g, i);
    WriteOf(spec, run, steps, i);
    StepAt(spec, run, steps, i);
    InvRun(spec, run, steps, i);
    VersionsOnlyGrow(spec, run, steps, g, i);
    hide IsRun, Inv, GoodVersions;
  }

  lemma {:induction false} OnceHoldsItsRead(spec: Spec, run: seq<State>, steps: seq<Step>, g: nat, n: nat)
    requires IsRun(spec, run, steps) && g < |steps| && g < n < |run| && !spec.isCondition
    requires steps[g].Get? && steps[g].id in run[g].calls && run[g].calls[steps[g].id].Reconcile?
    requires steps[g].task.SystemError? || steps[g].task.Invalid?
    ensures
      steps[g].id in run[n].calls && var call := run[n].calls[steps[g].id];
      call.Reconcile? && (call.progress.Done? || (call.progress.Holding? && call.progress.rev == steps[g].rev))
  {
    StepAt(spec, run, steps, g);
    InvRun(spec, run, steps, g);
    DecisionStays(spec, run, steps, g, n);
    if n > g + 1 {
      DecisionStays(spec, run, steps, g, n - 1);
      OnceHoldsItsRead(spec, run, steps, g, n - 1);
      StepAt(spec, run, steps, n - 1);
      hide IsRun, Inv, GoodVersions;
    }
  }

  /** A write appends what its call holds: a PutStatus its own values, a reconciler its decision. */
  lemma WriteOf(spec: Spec, run: seq<State>, steps: seq<Step>, i: nat)
    requires IsRun(spec, run, steps) && i < |steps| && steps[i].Update? && Writes(run, steps, i, steps[i].id)
    ensures |run[i].versions| > 0 && steps[i].id in run[i].calls
    ensures
      var call, before, after := run[i].calls[steps[i].id], Current(run[i]), Current(run[i + 1]);
      match call
      case Signal(_, _) => after.attempts == before.attempts && after.cacheStatus == before.cacheStatus
      case PutStatus(attempts, cacheStatus, _) => after.attempts == attempts && after.cacheStatus == cacheStatus
      case Reconcile(_, change, _) => after == Changed(change, before)
  {
    InvRun(spec, run, steps, i);
    StepAt(spec, run, steps, i);
    assert CallOk(run[i], run[i].calls[steps[i].id]);
    hide IsRun;
    WrittenVersion(run[i], steps[i]);
  }

  lemma WrittenVersion(s: State, step: Step)
    requires |s.versions| > 0 && Enabled(s, step) && step.Update? && CallOk(s, s.calls[step.id])
    requires |Apply(s, step).versions| > |s.versions|
    ensures
      var call, before, after := s.calls[step.id], Current(s), Current(Apply(s, step));
      match call
      case Signal(_, _) => after.attempts == before.attempts && after.cacheStatus == before.cacheStatus
      case PutStatus(attempts, cacheStatus, _) => after.attempts == attempts && after.cacheStatus == cacheStatus
      case Reconcile(_, change, _) => after == Changed(change, before)
  {
  }

  /** So what a PutStatus stores between that read and that write survives exactly if it is what is made of that read;
      anything else is lost. */
  lemma PutStatusBetweenIsLost(spec: Spec, run: seq<State>, steps: seq<Step>, g: nat, p: nat, i: nat)
    requires IsRun(spec, run, steps) && !spec.isCondition && g < p < i < |steps|
    requires steps[g].Get? && steps[g].id in run[g].calls && run[g].calls[steps[g].id].Reconcile?
    requires Writes(run, steps, i, steps[g].id)
    requires steps[p].Update? && Writes(run, steps, p, steps[p].id)
    requires
      steps[p].id in run[p].calls && var put := run[p].calls[steps[p].id];
      put.PutStatus?
    ensures |run[p + 1].versions| > 0 && |run[i + 1].versions| > 0 && 0 < steps[g].rev <= |run[g].versions|
    ensures
      var put, stored, last := run[p].calls[steps[p].id], Current(run[p + 1]), Current(run[i + 1]);
      var read, task := run[g].versions[steps[g].rev - 1], steps[g].task;
      && stored.attempts == put.attempts && stored.cacheStatus == put.cacheStatus
      && (last.attempts == put.attempts <==> put.attempts == AttemptsMadeOf(read.attempts, task))
      && (last.cacheStatus == put.cacheStatus <==> put.cacheStatus == CacheStatusMadeOf(read.cacheStatus, task))
  {
    WriteOf(spec, run, steps, p);
    TaskWriteKeepsExactly(spec, run, steps, g, i);
  }

  /** Attempts and cache status change only by a PutStatus that asked for the new ones, or by a task's reconciler. */
  lemma AttemptsHaveAWriter(spec: Spec, run: seq<State>, steps: seq<Step>, i: nat)
    requires IsRun(spec, run, steps) && i < |steps| && |run[i].versions| > 0 && |run[i + 1].versions| > 0
    requires
      var before, after := Current(run[i]), Current(run[i + 1]);
      after.attempts != before.attempts || after.cacheStatus != before.cacheStatus
    ensures steps[i].Update? && steps[i].id in run[i].calls
    ensures
      var call, after := run[i].calls[steps[i].id], Current(run[i + 1]);
      if call.PutStatus? then after.attempts == call.attempts && after.cacheStatus == call.cacheStatus
      else call.Reconcile? && !spec.isCondition
  {
    InvRun(spec, run, steps, i);
    StepAt(spec, run, steps, i);
    if steps[i].Update? && |run[i + 1].versions| > |run[i].versions| {
      WriteOf(spec, run, steps, i);
      assert CallOk(run[i], run[i].calls[steps[i].id]);
    }
  }

  /** No writer of a condition undoes another: a new version keeps all that its writer does not own. For a task this
      holds of every writer but the reconciler. */
  lemma WritersKeepEachOther(spec: Spec, run: seq<State>, steps: seq<Step>, i: nat, k: nat)
    requires IsRun(spec, run, steps) && i < |run| && 0 < k < |run[i].versions|
    ensures
      var a, b := run[i].versions[k - 1], run[i].versions[k];
      && (spec.isCondition && (b.attempts != a.attempts || b.cacheStatus != a.cacheStatus) ==>
            b.signal == a.signal && b.phase == a.phase)
      && (b.signal != a.signal ==>
            a.signal.None? && b.phase == a.phase && b.attempts == a.attempts && b.cacheStatus == a.cacheStatus)
      && (spec.isCondition && b.phase != a.phase ==>
            b.signal == a.signal && b.attempts == a.attempts && b.cacheStatus == a.cacheStatus)
  {
    InvRun(spec, run, steps, i);
    assert OneWriter(spec, run[i].versions[k - 1], run[i].versions[k]);
  }
}
