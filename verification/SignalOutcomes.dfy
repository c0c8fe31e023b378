/** How each call on a condition or a task ends, in terms of the version it met. */
module SignalOutcomes {
  import opened Base
  import opened Phases
  import opened Signals

  /** The value is a literal of the type that the condition declares. */
  predicate HasType(value: SignalValue, declared: Option<SimpleKind>) {
    match declared
    case None => false
    case Some(BooleanKind) => value.BooleanValue?
    case Some(IntegerKind) => value.IntegerValue?
    case Some(FloatKind) => value.FloatValue?
    case Some(StringKind) => value.StringValue?
  }

  lemma KindsAreTypes(value: SignalValue, declared: Option<SimpleKind>)
    ensures KindOf(value).None? <==> value.NotPrimitive?
    ensures KindOf(value).Some? ==> (declared == KindOf(value) <==> HasType(value, declared))
  {
  }

  /** A run that goes on with some more steps. */
  ghost predicate GoesOn(spec: Spec, run: seq<State>, steps: seq<Step>, longer: seq<State>, more: seq<Step>) {
    |run| == |steps| + 1 && |longer| == |more| + 1 && IsRun(spec, longer, more) && run <= longer && steps <= more
  }

  lemma Continue(spec: Spec, run: seq<State>, steps: seq<Step>, longer: seq<State>, more: seq<Step>, step: Step)
      returns (longer': seq<State>, more': seq<Step>)
    requires GoesOn(spec, run, steps, longer, more) && Enabled(longer[|more|], step)
    ensures GoesOn(spec, run, steps, longer', more') && |more'| == |more| + 1
    ensures longer' == longer + [Apply(longer[|more|], step)] && more' == more + [step]
  {
    longer', more' := longer + [Apply(longer[|more|], step)], more + [step];
    forall i | 0 <= i < |more'| ensures Enabled(longer'[i], more'[i]) && longer'[i + 1] == Apply(longer'[i], more'[i]) {
      if i < |more| {
        StepAt(spec, longer, more, i);
      }
    }
  }

  /** What becomes of a call that meets no other. */
  datatype Ending = Ending(refusal: Option<Refusal>, before: Status, after: Status)

  ghost predicate EndsAlone(spec: Spec, run: seq<State>, steps: seq<Step>, longer: seq<State>, more: seq<Step>,
                            id: nat, e: Ending) {
    && GoesOn(spec, run, steps, longer, more)
    && |run[|steps|].versions| > 0 && |longer[|more|].versions| > 0
    && e.before == Current(run[|steps|]) && e.after == Current(longer[|more|])
    && id in longer[|more|].calls && longer[|more|].calls[id].progress == Done(e.refusal)
    && !longer[|more|].deleted
  }

  /** A Signal call that meets no other: it is refused for the first of these reasons that there is, and otherwise its
      value is stored, unless it is stored already. */
  lemma SignalAlone(spec: Spec, run: seq<State>, steps: seq<Step>, id: nat, value: SignalValue)
      returns (longer: seq<State>, more: seq<Step>, e: Ending)
    requires |run| == |steps| + 1 && IsRun(spec, run, steps)
    requires id !in run[|steps|].calls && !run[|steps|].deleted
    ensures EndsAlone(spec, run, steps, longer, more, id, e) && longer[|more|].calls[id] == Signal(value, Done(e.refusal))
    ensures e.refusal == Some(BadValue) <==> value.NotPrimitive?
    ensures e.refusal == Some(NotACondition) <==> !value.NotPrimitive? && !spec.isCondition
    ensures e.refusal == Some(OtherValue) <==>
      !value.NotPrimitive? && spec.isCondition && e.before.signal.Some? && e.before.signal.value != value
    ensures e.refusal == Some(Completed) <==>
      !value.NotPrimitive? && spec.isCondition && e.before.signal.None? && Terminal(e.before.phase)
    ensures e.refusal == Some(BadSpec) <==>
      !value.NotPrimitive? && spec.isCondition && e.before.signal.None? && !Terminal(e.before.phase) && spec.malformed
    ensures e.refusal == Some(WrongKind) <==>
      !value.NotPrimitive? && spec.isCondition && e.before.signal.None? && !Terminal(e.before.phase) && !spec.malformed
      && !HasType(value, spec.declared)
    ensures e.refusal == None <==>
      spec.isCondition && (e.before.signal == Some(value)
                           || (e.before.signal.None? && !Terminal(e.before.phase) && !spec.malformed
                               && HasType(value, spec.declared)))
    ensures e.after == if e.refusal.None? then e.before.(signal := Some(value)) else e.before
  {
    var s := run[|steps|];
    InvRun(spec, run, steps, |steps|);
    KindsAreTypes(value, spec.declared);
    VersionsAreConsistent(spec, s.versions, |s.versions| - 1);
    hide IsRun, Inv, GoodVersions;
    longer, more := Continue(spec, run, steps, run, steps, Start(id, Signal(value, Fresh)));
    longer, more := Continue(spec, run, steps, longer, more, Get(id, |s.versions|, false, SystemError));
    var progress := longer[|more|].calls[id].progress;
    if progress.Holding? {
      longer, more := Continue(spec, run, steps, longer, more, Update(id, true));
    }
    e := Ending(longer[|more|].calls[id].progress.refusal, Current(s), Current(longer[|more|]));
  }

  /** So a condition that waits can be signalled. */
  lemma WaitingTakesSignal(spec: Spec, run: seq<State>, steps: seq<Step>, id: nat, value: SignalValue)
      returns (longer: seq<State>, more: seq<Step>)
    requires |run| == |steps| + 1 && IsRun(spec, run, steps) && id !in run[|steps|].calls && !run[|steps|].deleted
    requires |run[|steps|].versions| > 0 && Current(run[|steps|]).signal.None? && !Terminal(Current(run[|steps|]).phase)
    requires spec.isCondition && !spec.malformed && HasType(value, spec.declared)
    ensures GoesOn(spec, run, steps, longer, more) && |longer[|more|].versions| > 0
    ensures Succeeds(longer[|more|], id, value) && Current(longer[|more|]).signal == Some(value)
  {
    var e;
    longer, more, e := SignalAlone(spec, run, steps, id, value);
  }

  /** A PutStatus that meets no other call stores what it was given, as a new version exactly if that is news. */
  lemma PutStatusAlone(spec: Spec, run: seq<State>, steps: seq<Step>, id: nat, attempts: nat, cacheStatus: nat)
      returns (longer: seq<State>, more: seq<Step>, e: Ending)
    requires |run| == |steps| + 1 && IsRun(spec, run, steps)
    requires id !in run[|steps|].calls && !run[|steps|].deleted
    ensures EndsAlone(spec, run, steps, longer, more, id, e) && e.refusal == None
    ensures e.after == e.before.(attempts := attempts, cacheStatus := cacheStatus)
    ensures |longer[|more|].versions| > |run[|steps|].versions| <==>
      attempts != e.before.attempts || cacheStatus != e.before.cacheStatus
  {
    var s := run[|steps|];
    InvRun(spec, run, steps, |steps|);
    hide IsRun, Inv, GoodVersions;
    longer, more := Continue(spec, run, steps, run, steps, Start(id, PutStatus(attempts, cacheStatus, Fresh)));
    longer, more := Continue(spec, run, steps, longer, more, Get(id, |s.versions|, false, SystemError));
    if longer[|more|].calls[id].progress.Holding? {
      longer, more := Continue(spec, run, steps, longer, more, Update(id, true));
    }
    e := Ending(longer[|more|].calls[id].progress.refusal, Current(s), Current(longer[|more|]));
  }

  /** Call `id` of a reconciler made its decision at step g, on the version it read then. */
  ghost predicate DecidedAt(run: seq<State>, steps: seq<Step>, g: nat, id: nat) {
    && |run| == |steps| + 1 && g < |steps| && steps[g].Get? && steps[g].id == id
    && id in run[g].calls && run[g].calls[id].Reconcile? && 0 < steps[g].rev <= |run[g].versions|
  }

  function ReadAt(run: seq<State>, steps: seq<Step>, g: nat): Status
    requires g < |steps| && g < |run| && steps[g].Get? && 0 < steps[g].rev <= |run[g].versions|
  {
    run[g].versions[steps[g].rev - 1]
  }

  /** What a condition's reconciler writes is settled by the version it read first: signalled, it succeeds; else, if its
      spec cannot be read, it fails; else, past its deadline, it times out; and otherwise it waits. */
  lemma ConditionEndsExactly(spec: Spec, run: seq<State>, steps: seq<Step>, g: nat, i: nat, id: nat)
    requires DecidedAt(run, steps, g, id) && IsRun(spec, run, steps) && spec.isCondition
    requires g < i < |steps| && Writes(run, steps, i, id)
    ensures |run[i + 1].versions| > 0 && |run[i].versions| > 0
    ensures
      var read, after := ReadAt(run, steps, g), Current(run[i + 1]);
      && after == Current(run[i]).(phase := after.phase)
      && (after.phase == Succeeded <==> read.signal.Some?)
      && (after.phase == Failed <==> read.signal.None? && spec.malformed)
      && (after.phase == TimedOut <==> read.signal.None? && !spec.malformed && steps[g].late)
      && (after.phase == Paused <==> read.signal.None? && !spec.malformed && !steps[g].late)
      && (Terminal(after.phase) <==> after.phase != Paused)
  {
    DecisionStays(spec, run, steps, g, i);
    WriteOf(spec, run, steps, i);
  }

  /** What a task's reconciler writes is made of the version it read first. Attempts are never fewer than those read,
      and at least one once the plugin was observed. */
  lemma TaskEndsExactly(spec: Spec, run: seq<State>, steps: seq<Step>, g: nat, i: nat, id: nat)
    requires DecidedAt(run, steps, g, id) && IsRun(spec, run, steps) && !spec.isCondition
    requires g < i < |steps| && Writes(run, steps, i, id)
    ensures |run[i + 1].versions| > 0
    ensures
      var read, after := ReadAt(run, steps, g), Current(run[i + 1]);
      && after.signal == read.signal && after.attempts >= read.attempts
      && match steps[g].task
         case Observed(phase, cacheStatus) =>
           && after.phase == phase && after.cacheStatus == cacheStatus
           && after.attempts > 0 && (after.attempts == read.attempts <==> read.attempts > 0) && after.attempts <= read.attempts + 1
         case Restarted =>
           && after.phase == Queued && after.cacheStatus == CACHE_DISABLED
           && after.attempts > 1 && (after.attempts == read.attempts + 1 <==> read.attempts > 0)
           && after.attempts <= read.attempts + 2
         case SystemError => after == read
         case _ => after == read.(phase := Failed)
  {
    DecisionStays(spec, run, steps, g, i);
    WriteOf(spec, run, steps, i);
  }

  /** An update is stored exactly if its resource still exists and is as the call last read it; it is then the call's own
      version, and the caller hears of success exactly if the answer arrives. A Signal that lost to another write reads
      again; a PutStatus gives up. */
  lemma UpdateIsChecked(spec: Spec, run: seq<State>, steps: seq<Step>, i: nat)
    requires |run| == |steps| + 1 && i < |steps| && steps[i].Update? && IsRun(spec, run, steps)
    ensures steps[i].id in run[i].calls && steps[i].id in run[i + 1].calls && run[i].calls[steps[i].id].progress.Holding?
    ensures
      var s, t, call, p := run[i], run[i + 1], run[i].calls[steps[i].id], run[i + 1].calls[steps[i].id].progress;
      && (t.versions == s.versions + [call.progress.next] <==> !s.deleted && call.progress.rev == |s.versions|)
      && (t.versions == s.versions <==> s.deleted || call.progress.rev != |s.versions|)
      && (p == Done(None) <==> !s.deleted && call.progress.rev == |s.versions| && steps[i].answered)
      && (p == Done(Some(NotFound)) <==> s.deleted)
      && (p == Done(Some(Unanswered)) <==> !s.deleted && call.progress.rev == |s.versions| && !steps[i].answered)
      && (call.Signal? ==> (p == Fresh <==> !s.deleted && call.progress.rev != |s.versions|))
      && (call.PutStatus? ==> (p == Done(Some(Conflict)) <==> !s.deleted && call.progress.rev != |s.versions|))
  {
    StepAt(spec, run, steps, i);
  }

  /** Once a resource is deleted its status is left alone. */
  lemma {:induction false} NothingAfterDeletion(spec: Spec, run: seq<State>, steps: seq<Step>, i: nat, j: nat)
    requires |run| == |steps| + 1 && i < j < |run| && IsRun(spec, run, steps) && (steps[i].Remove? || run[i].deleted)
    ensures run[j].deleted && run[j].versions == run[i].versions
  {
    StepAt(spec, run, steps, j - 1);
    if i < j - 1 {
      NothingAfterDeletion(spec, run, steps, i, j - 1);
    }
  }

  /** And every call that comes then is told so, unless its value is no signal at all. */
  lemma DeletedIsNotFound(spec: Spec, run: seq<State>, steps: seq<Step>, id: nat, call: Call)
      returns (longer: seq<State>, more: seq<Step>)
    requires |run| == |steps| + 1 && IsRun(spec, run, steps) && id !in run[|steps|].calls && run[|steps|].deleted
    requires call.progress.Fresh? && !call.Reconcile?
    requires |run[|steps|].versions| > 0
    ensures GoesOn(spec, run, steps, longer, more) && id in longer[|more|].calls
    ensures longer[|more|].calls[id].progress ==
      Done(Some(if call.Signal? && call.value.NotPrimitive? then BadValue else NotFound))
    ensures longer[|more|].versions == run[|steps|].versions
  {
    hide IsRun;
    longer, more := Continue(spec, run, steps, run, steps, Start(id, call));
    if call.Signal? && call.value.NotPrimitive? {
      longer, more := Continue(spec, run, steps, longer, more, Get(id, 1, false, SystemError));
    } else {
      if call.Signal? {
        KindsAreTypes(call.value, None);
      }
      longer, more := Continue(spec, run, steps, longer, more, Missing(id));
    }
  }
}
