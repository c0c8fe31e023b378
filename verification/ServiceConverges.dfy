/** What reaches the run service when its calls succeed: every end of an action that the pipeline saw. */
module ServiceConverges {
  import opened Base
  import opened Phases
  import opened WatchPipeline
  import opened PipelineHistories
  import opened NoLostUpdates
  import opened TerminalLabels
  import opened WatchStreams

  /** The worker of the action is telling of it. */
  predicate Busy(c: Config, s: State, n: Name)
    requires Valid(c)
  {
    UpdateOf(WorkerOf(c, s, n)).Some? && UpdateOf(WorkerOf(c, s, n)).value.name == n
  }

  /** The run service recorded the action; if version r is final it accepted that phase, and the action carries the label
      if it still exists. */
  predicate Told(s: State, n: Name, r: nat) {
    && n in s.service.recorded && HasVersion(s, n, r)
    && (Terminal(Version(s, n, r).phase) ==>
          && n in s.service.accepted && s.service.accepted[n] == Version(s, n, r).phase
          && (Exists(s, n) ==> Labelled(s, n)))
  }

  /** What was read last is told, or is being told. */
  predicate Telling(c: Config, s: State, n: Name)
    requires Valid(c)
  {
    if Busy(c, s, n) then
      var stage := WorkerOf(c, s, n);
      var u := UpdateOf(stage).value;
      && (u.kind.Deleted? || u.version == Count(s.handled, n))
      && (stage.Noted? || stage.Patching? ==> n in s.service.recorded)
    else Count(s.handled, n) > 0 ==> Told(s, n, Count(s.handled, n))
  }

  /** No call to the run service or label patch that is about the action fails in this step. */
  predicate Succeeds(s: State, step: Step, n: Name) {
    match step
    case Worker(k, Record(ok)) => ok || !IsAbout(s, k, n)
    case Worker(k, UpdateStatus(ok)) => ok || !IsAbout(s, k, n)
    case Worker(k, Patch(ok)) => ok || !IsAbout(s, k, n)
    case _ => true
  }

  predicate IsAbout(s: State, k: nat, n: Name) {
    k < |s.workers| && NameOf(s.workers[k]) == Some(n)
  }

  ghost predicate CallsSucceed(run: seq<State>, steps: seq<Step>, n: Name)
    requires |run| == |steps| + 1
  {
    forall i :: 0 <= i < |steps| ==> Succeeds(run[i], steps[i], n)
  }

  lemma SucceedsAt(run: seq<State>, steps: seq<Step>, n: Name, i: nat)
    requires |run| == |steps| + 1 && i < |steps| && CallsSucceed(run, steps, n)
    ensures Succeeds(run[i], steps[i], n)
  {
  }

  lemma ToldStays(c: Config, s: State, t: State, n: Name, r: nat)
    requires Told(s, n, r) && Shapes(c, t) && GrowsAt(s, t, n) && t.service.accepted == s.service.accepted
    requires s.service.recorded <= t.service.recorded
    ensures Told(t, n, r)
  {
    if Exists(t, n) && Latest(s, n) < Latest(t, n) {
      HistoryAt(t.actions[n].versions, Latest(s, n) - 1, Latest(t, n) - 1);
    }
    if Exists(t, n) && Labelled(s, n) {
      LabelStays(c, s, t, n);
    }
  }

  /** A step that moves neither the action's worker nor what the run service knows. */
  lemma SameTelling(c: Config, s: State, t: State, n: Name)
    requires Shapes(c, t) && Telling(c, s, n) && GrowsAt(s, t, n) && Count(t.handled, n) == Count(s.handled, n)
    requires (n in t.service.accepted) == (n in s.service.accepted)
    requires n in s.service.accepted ==> t.service.accepted[n] == s.service.accepted[n]
    requires s.service.recorded <= t.service.recorded
    requires UpdateOf(WorkerOf(c, t, n)) == UpdateOf(WorkerOf(c, s, n)) || (!Busy(c, s, n) && !Busy(c, t, n))
    requires UpdateOf(WorkerOf(c, s, n)).Some? ==> WorkerOf(c, t, n) == WorkerOf(c, s, n) || !Busy(c, s, n)
    ensures Telling(c, t, n)
  {
    if !Busy(c, s, n) && Count(s.handled, n) > 0 {
      ToldStays(c, s, t.(service := t.service.(accepted := s.service.accepted)), n, Count(s.handled, n));
    }
  }

  /** What a worker does about other actions does not matter to n. */
  lemma ElsewhereTells(c: Config, s: State, k: nat, w: WorkerStep, n: Name)
    requires Sound(c, s) && Telling(c, s, n) && WorkerEnabled(s, k, w) && !w.Pop? && !IsAbout(s, k, n)
    ensures Telling(c, ApplyWorker(c, s, k, w), n)
  {
    var t := ApplyWorker(c, s, k, w);
    WorkerFrame(c, s, k, w);
    WorkerGrows(c, s, k, w);
    assert GrowsAt(s, t, n);
    ElsewhereKnown(c, s, k, w, n);
    hide ApplyWorker, Grows, GrowsAt, Shapes, Telling, Sound;
    ElsewhereBusy(c, s, t, k, n);
    SameTelling(c, s, t, n);
  }

  lemma ElsewhereBusy(c: Config, s: State, t: State, k: nat, n: Name)
    requires Valid(c) && OnlyWorker(s, t, k) && !IsAbout(s, k, n)
    ensures UpdateOf(WorkerOf(c, t, n)) == UpdateOf(WorkerOf(c, s, n)) || (!Busy(c, s, n) && !Busy(c, t, n))
    ensures UpdateOf(WorkerOf(c, s, n)).Some? ==> WorkerOf(c, t, n) == WorkerOf(c, s, n) || !Busy(c, s, n)
  {
  }

  lemma ElsewhereKnown(c: Config, s: State, k: nat, w: WorkerStep, n: Name)
    requires WorkerEnabled(s, k, w) && !w.Pop? && !IsAbout(s, k, n)
    ensures
      var t := ApplyWorker(c, s, k, w);
      && s.service.recorded <= t.service.recorded && Count(t.handled, n) == Count(s.handled, n)
      && (n in t.service.accepted) == (n in s.service.accepted)
      && (n in s.service.accepted ==> t.service.accepted[n] == s.service.accepted[n])
  {
    hide StageVersions, HasVersion;
    match w
    case Unmark =>
    case Read => ReadCounts(s, k, n);
    case Notify =>
    case Record(_) =>
    case UpdateStatus(_) =>
    case Patch(_) => PatchFrame(s, k, w.ok);
  }

  lemma PopTells(c: Config, s: State, k: nat, n: Name)
    requires Sound(c, s) && Telling(c, s, n) && WorkerEnabled(s, k, Pop)
    ensures Telling(c, ApplyWorker(c, s, k, Pop), n)
  {
    WorkerGrows(c, s, k, Pop);
    assert GrowsAt(s, ApplyWorker(c, s, k, Pop), n);
    hide Grows, Sound;
    SameTelling(c, s, ApplyWorker(c, s, k, Pop), n);
  }

  lemma UnmarkTells(c: Config, s: State, k: nat, n: Name)
    requires Sound(c, s) && Telling(c, s, n) && WorkerEnabled(s, k, Unmark) && IsAbout(s, k, n)
    ensures Telling(c, UnmarkedBy(s, k), n)
  {
    assert WorkerOk(c, s, k, s.workers[k]) && WorkerOf(c, s, n) == s.workers[k];
    hide Sound, WorkerOk;
  }

  lemma ReadTells(c: Config, s: State, k: nat, n: Name)
    requires Sound(c, s) && Telling(c, s, n) && WorkerEnabled(s, k, Read) && IsAbout(s, k, n)
    ensures Telling(c, ReadBy(s, k), n)
  {
    assert WorkerOk(c, s, k, s.workers[k]) && WorkerOf(c, s, n) == s.workers[k];
    hide Sound, WorkerOk;
  }

  lemma NotifyTells(c: Config, s: State, k: nat, n: Name)
    requires Sound(c, s) && Telling(c, s, n) && WorkerEnabled(s, k, Notify) && IsAbout(s, k, n)
    ensures Telling(c, NotifiedBy(c, s, k), n)
  {
    assert WorkerOk(c, s, k, s.workers[k]) && WorkerOf(c, s, n) == s.workers[k];
    hide Sound, WorkerOk;
  }

  lemma RecordTells(c: Config, s: State, k: nat, n: Name)
    requires Sound(c, s) && FilterFact(c, s) && Telling(c, s, n) && WorkerEnabled(s, k, Record(true)) && IsAbout(s, k, n)
    ensures Telling(c, RecordedBy(c, s, k, true), n)
  {
    assert WorkerOk(c, s, k, s.workers[k]) && WorkerOf(c, s, n) == s.workers[k];
    hide Sound, WorkerOk;
  }

  lemma UpdateOutcome(s: State, k: nat)
    requires WorkerEnabled(s, k, UpdateStatus(true))
    ensures
      var t, u := UpdatedBy(s, k, true), s.workers[k].update;
      && t == s.(workers := s.workers[k := t.workers[k]], service := s.service.(accepted := t.service.accepted))
      && if Terminal(UpdatePhase(s, u))
         then t.service.accepted == s.service.accepted[u.name := UpdatePhase(s, u)]
              && t.workers[k] == if u.kind.Deleted? then Idle else Patching(u)
         else t.service == s.service && t.workers[k] == Idle
  {
  }

  lemma UpdateTells(c: Config, s: State, k: nat, n: Name)
    requires WorkerEnabled(s, k, UpdateStatus(true)) && IsAbout(s, k, n)
    requires Sound(c, s) && StageFact(s, s.workers[k]) && Telling(c, s, n)
    ensures Telling(c, UpdatedBy(s, k, true), n)
  {
    var u := s.workers[k].update;
    assert WorkerOk(c, s, k, s.workers[k]) && WorkerOf(c, s, n) == s.workers[k] && Shapes(c, s);
    assert UpdateOk(s, u);
    UpdateOutcome(s, k);
    hide UpdatedBy, Sound, WorkerOk, Shapes;
    if u.kind.Deleted? && Count(s.handled, n) > 0 && Terminal(Version(s, n, Count(s.handled, n)).phase) {
      PhaseStays(c, s, n, Count(s.handled, n), u.version);
    }
  }

  lemma PatchOutcome(c: Config, s: State, k: nat)
    requires Shapes(c, s) && WorkerEnabled(s, k, Patch(true))
    ensures
      var t, n := PatchedBy(s, k, true), s.workers[k].update.name;
      && t == s.(workers := s.workers[k := Idle], actions := t.actions)
      && GrowsAt(s, t, n) && (Exists(t, n) ==> Labelled(t, n))
  {
    PatchGrows(c, s, k, true);
    assert GrowsAt(s, PatchedBy(s, k, true), s.workers[k].update.name);
    hide Shapes, Grows, GrowsAt;
  }

  lemma PatchTells(c: Config, s: State, k: nat, n: Name)
    requires WorkerEnabled(s, k, Patch(true)) && IsAbout(s, k, n)
    requires Sound(c, s) && StageFact(s, s.workers[k]) && Telling(c, s, n)
    ensures Telling(c, PatchedBy(s, k, true), n)
  {
    assert WorkerOk(c, s, k, s.workers[k]) && WorkerOf(c, s, n) == s.workers[k] && Shapes(c, s);
    assert HasVersion(s, n, s.workers[k].update.version);
    PatchOutcome(c, s, k);
    hide PatchedBy, Sound, WorkerOk, Shapes;
  }

  lemma WorkerTells(c: Config, s: State, k: nat, w: WorkerStep, n: Name)
    requires LabelInv(c, s) && Telling(c, s, n) && WorkerEnabled(s, k, w) && Succeeds(s, Worker(k, w), n)
    ensures Telling(c, ApplyWorker(c, s, k, w), n)
  {
    assert Sound(c, s) && FilterFact(c, s) && StageFact(s, s.workers[k]);
    hide LabelInv, Sound, FilterFact, StageFact, Telling;
    if w.Pop? {
      PopTells(c, s, k, n);
    } else if !IsAbout(s, k, n) {
      ElsewhereTells(c, s, k, w, n);
    } else {
      match w
      case Record(ok) => RecordTells(c, s, k, n);
      case UpdateStatus(ok) => UpdateTells(c, s, k, n);
      case Patch(ok) => PatchTells(c, s, k, n);
      case Unmark => UnmarkTells(c, s, k, n);
      case Read => ReadTells(c, s, k, n);
      case Notify => NotifyTells(c, s, k, n);
    }
  }

  lemma ApiTells(c: Config, s: State, a: ApiStep, n: Name)
    requires Shapes(c, s) && Telling(c, s, n) && ApiEnabled(s, a)
    ensures Telling(c, ApplyApi(s, a), n)
  {
    ApiGrows(c, s, a);
    ApiKeepsQueues(s, a);
    assert GrowsAt(s, ApplyApi(s, a), n);
    hide ApplyApi, Grows, GrowsAt, Shapes, Telling, ApiEnabled;
    SameTelling(c, s, ApplyApi(s, a), n);
  }

  lemma InformerTells(c: Config, s: State, i: InformerStep, n: Name)
    requires Shapes(c, s) && Telling(c, s, n) && InformerEnabled(c, s, i)
    ensures Telling(c, ApplyInformer(c, s, i), n)
  {
    InformerGrows(c, s, i);
    InformerUntouched(c, s, i);
    assert GrowsAt(s, ApplyInformer(c, s, i), n);
    hide ApplyInformer, Grows, GrowsAt, Shapes, Telling, InformerEnabled;
    SameTelling(c, s, ApplyInformer(c, s, i), n);
  }

  lemma WatchTells(c: Config, s: State, id: nat, w: WatchStep, n: Name)
    requires Shapes(c, s) && Telling(c, s, n) && WatchEnabled(s, id, w)
    ensures Telling(c, ApplyWatch(s, id, w), n)
  {
    assert ApplyWatch(s, id, w) == s.(streams := ApplyWatch(s, id, w).streams);
    hide ApplyWatch, WatchEnabled;
  }

  lemma TellingStep(c: Config, s: State, step: Step, n: Name)
    requires LabelInv(c, s) && Enabled(c, s, step) && Telling(c, s, n) && Succeeds(s, step, n)
    ensures Telling(c, Apply(c, s, step), n)
  {
    assert Shapes(c, s);
    hide LabelInv, Telling, Shapes, WorkerEnabled, InformerEnabled, ApiEnabled, WatchEnabled;
    hide ApplyWorker, ApplyInformer, ApplyApi, ApplyWatch;
    match step
    case Worker(k, w) => WorkerTells(c, s, k, w, n);
    case Api(a) => ApiTells(c, s, a, n);
    case Informer(i) => InformerTells(c, s, i, n);
    case Watch(id, w) => WatchTells(c, s, id, w, n);
  }

  lemma {:induction false} TellingRun(c: Config, run: seq<State>, steps: seq<Step>, i: nat, n: Name)
    requires |run| == |steps| + 1 && Valid(c) && IsRun(c, run, steps) && i < |run| && CallsSucceed(run, steps, n)
    ensures Telling(c, run[i], n)
  {
    if i > 0 {
      hide *;
      TellingRun(c, run, steps, i - 1, n);
      LabelRun(c, run, steps, i - 1);
      StepAt(c, run, steps, i - 1);
      SucceedsAt(run, steps, n, i - 1);
      TellingStep(c, run[i - 1], steps[i - 1], n);
    }
  }

  /** If the calls about an action succeed, then whenever nothing is under way what was handled of it last is told. */
  lemma HandledIsTold(c: Config, run: seq<State>, steps: seq<Step>, i: nat, n: Name)
    requires |run| == |steps| + 1 && Valid(c) && IsRun(c, run, steps) && i < |run| && CallsSucceed(run, steps, n)
    requires Quiet(run[i]) && Count(run[i].handled, n) > 0
    ensures Told(run[i], n, Count(run[i].handled, n))
  {
    TellingRun(c, run, steps, i, n);
    InvRun(c, run, steps, i);
  }

  /** So once the cache holds the end of a live action that was not born with the label, the run service has it as well,
      and the action is labelled. */
  lemma EndIsRecorded(c: Config, run: seq<State>, steps: seq<Step>, i: nat, n: Name)
    requires |run| == |steps| + 1 && Valid(c) && IsRun(c, run, steps) && i < |run| && CallsSucceed(run, steps, n)
    requires Quiet(run[i]) && Exists(run[i], n) && !Born(run[i], n)
    requires
      var seen := Count(run[i].cache, n);
      HasVersion(run[i], n, seen) && Terminal(Version(run[i], n, seen).phase)
    ensures
      var s := run[i];
      && n in s.service.recorded && n in s.service.accepted
      && s.service.accepted[n] == Version(s, n, Latest(s, n)).phase && Labelled(s, n)
  {
    var s := run[i];
    var seen := Count(s.cache, n);
    LabelRun(c, run, steps, i);
    assert Shapes(c, s) && LabelFact(s, n) && CopiedFact(s, n);
    PhaseStays(c, s, n, seen, Latest(s, n));
    if Labelled(s, n) {
      HandledIsTold(c, run, steps, i, n);
      PhaseStays(c, s, n, Count(s.handled, n), Latest(s, n));
    } else {
      if seen < Latest(s, n) {
        HistoryAt(s.actions[n].versions, seen - 1, Latest(s, n) - 1);
      }
      QuietIsCaughtUp(c, run, steps, i, n);
      HandledIsTold(c, run, steps, i, n);
    }
  }

  // Deletions.

  function FinalPhase(phase: Phase): Phase {
    if Terminal(phase) then phase else Aborted
  }

  /** The deletions of n on their way carry version v. */
  ghost predicate Carries(s: State, n: Name, v: nat) {
    && (forall e | e in s.handlers && e.name == n && e.kind.Deleted? :: e.version == v)
    && forall e | Travelling(s, e) && e.name == n && e.kind.Deleted? :: e.version == v
  }

  /** The run service knows the action, and accepted its end as version v shows it, an abort if it shows none. */
  predicate ToldGone(s: State, n: Name, v: nat) {
    && HasVersion(s, n, v) && n in s.service.recorded
    && n in s.service.accepted && s.service.accepted[n] == FinalPhase(Version(s, n, v).phase)
  }

  predicate TellingGone(c: Config, s: State, n: Name, v: nat)
    requires Valid(c)
  {
    if Busy(c, s, n) then
      var stage := WorkerOf(c, s, n);
      var u := UpdateOf(stage).value;
      u.kind.Deleted? && u.version == v && (stage.Noted? ==> n in s.service.recorded) && !stage.Patching?
    else ToldGone(s, n, v)
  }

  /** The cache knows that n is gone; once a worker has taken up its deletion, that is told or being told. */
  ghost predicate Ending(c: Config, s: State, n: Name, v: nat)
    requires Valid(c)
  {
    && Gone(s, n) && HasVersion(s, n, v) && Count(s.handled, n) <= v
    && Carries(s, n, v) && (n in s.finished ==> TellingGone(c, s, n, v))
  }

  lemma GoneStays(s: State, t: State, n: Name, v: nat)
    requires GrowsAt(s, t, n) && Gone(s, n) && HasVersion(s, n, v)
    ensures Gone(t, n) && HasVersion(t, n, v) && Versions(t, n) == Versions(s, n)
  {
  }

  /** A step in which no deletion of n starts to travel, and which moves neither its worker nor what is known of it. */
  lemma SameEnding(c: Config, s: State, t: State, n: Name, v: nat)
    requires Valid(c) && Ending(c, s, n, v) && GrowsAt(s, t, n) && (n in t.finished ==> n in s.finished)
    requires Count(t.handled, n) == Count(s.handled, n)
    requires forall e | e in t.handlers && e.name == n && e.kind.Deleted? :: e in s.handlers
    requires forall e | Travelling(t, e) && e.name == n && e.kind.Deleted? :: Travelling(s, e) || e in s.handlers
    requires (n in t.service.accepted) == (n in s.service.accepted)
    requires n in s.service.accepted ==> t.service.accepted[n] == s.service.accepted[n]
    requires s.service.recorded <= t.service.recorded
    requires UpdateOf(WorkerOf(c, t, n)) == UpdateOf(WorkerOf(c, s, n)) || (!Busy(c, s, n) && !Busy(c, t, n))
    requires UpdateOf(WorkerOf(c, s, n)).Some? ==> WorkerOf(c, t, n) == WorkerOf(c, s, n) || !Busy(c, s, n)
    ensures Ending(c, t, n, v)
  {
    GoneStays(s, t, n, v);
    hide Travelling, Gone, GrowsAt;
  }

  lemma ElsewhereEnds(c: Config, s: State, k: nat, w: WorkerStep, n: Name, v: nat)
    requires Sound(c, s) && Ending(c, s, n, v) && WorkerEnabled(s, k, w) && !w.Pop? && !IsAbout(s, k, n)
    ensures Ending(c, ApplyWorker(c, s, k, w), n, v)
  {
    var t := ApplyWorker(c, s, k, w);
    WorkerFrame(c, s, k, w);
    WorkerGrows(c, s, k, w);
    assert GrowsAt(s, t, n);
    ElsewhereKnown(c, s, k, w, n);
    ElsewhereFinished(c, s, k, w, n);
    ElsewhereBusy(c, s, t, k, n);
    LaterStage(c, s, k, w);
    WorkerTravellers(s, t, k);
    assert t.handlers == s.handlers;
    hide ApplyWorker, Grows, GrowsAt, Shapes, Ending, Sound, Travelling, OnlyWorker;
    SameEnding(c, s, t, n, v);
  }

  lemma ElsewhereFinished(c: Config, s: State, k: nat, w: WorkerStep, n: Name)
    requires WorkerEnabled(s, k, w) && !w.Pop? && !IsAbout(s, k, n)
    ensures n in ApplyWorker(c, s, k, w).finished <==> n in s.finished
  {
    hide StageVersions, HasVersion;
    match w
    case Unmark =>
    case Read => ReadCounts(s, k, n);
    case Notify =>
    case Record(_) =>
    case UpdateStatus(_) =>
    case Patch(_) => PatchFrame(s, k, w.ok);
  }

  lemma LaterStage(c: Config, s: State, k: nat, w: WorkerStep)
    requires WorkerEnabled(s, k, w) && !w.Pop?
    ensures
      var t := ApplyWorker(c, s, k, w);
      && k < |t.workers| && !t.workers[k].Popped?
      && (t.workers[k].Unmarked? ==> s.workers[k] == Popped(t.workers[k].event))
  {
    hide StageVersions, HasVersion;
    match w
    case Unmark =>
    case Read =>
    case Notify =>
    case Record(_) =>
    case UpdateStatus(_) =>
    case Patch(_) => PatchFrame(s, k, w.ok);
  }

  /** The action's own worker moves on. */
  lemma OwnEnds(c: Config, s: State, t: State, k: nat, n: Name, v: nat)
    requires Sound(c, s) && Ending(c, s, n, v) && OnlyWorker(s, t, k) && IsAbout(s, k, n) && GrowsAt(s, t, n)
    requires !t.workers[k].Popped? && (t.workers[k].Unmarked? ==> s.workers[k] == Popped(t.workers[k].event))
    requires Count(t.handled, n) == Count(s.handled, n) && (n in t.finished ==> TellingGone(c, t, n, v))
    ensures Ending(c, t, n, v)
  {
    GoneStays(s, t, n, v);
    WorkerTravellers(s, t, k);
    hide Travelling, Gone, GrowsAt, TellingGone, Sound;
  }

  lemma UnmarkEnds(c: Config, s: State, k: nat, n: Name, v: nat)
    requires Sound(c, s) && Ending(c, s, n, v) && WorkerEnabled(s, k, Unmark) && IsAbout(s, k, n)
    ensures n in UnmarkedBy(s, k).finished ==> TellingGone(c, UnmarkedBy(s, k), n, v)
  {
    assert WorkerOk(c, s, k, s.workers[k]) && WorkerOf(c, s, n) == s.workers[k];
    assert Travelling(s, s.workers[k].event);
    hide Sound, WorkerOk, Travelling;
  }

  lemma ReadEnds(c: Config, s: State, k: nat, n: Name, v: nat)
    requires Sound(c, s) && Ending(c, s, n, v) && WorkerEnabled(s, k, Read) && IsAbout(s, k, n)
    ensures n in ReadBy(s, k).finished ==> TellingGone(c, ReadBy(s, k), n, v)
    ensures Count(ReadBy(s, k).handled, n) == Count(s.handled, n)
  {
    assert WorkerOk(c, s, k, s.workers[k]) && WorkerOf(c, s, n) == s.workers[k];
    hide Sound, WorkerOk, Travelling;
  }

  lemma NotifyEnds(c: Config, s: State, k: nat, n: Name, v: nat)
    requires Sound(c, s) && Ending(c, s, n, v) && WorkerEnabled(s, k, Notify) && IsAbout(s, k, n)
    ensures n in NotifiedBy(c, s, k).finished ==> TellingGone(c, NotifiedBy(c, s, k), n, v)
  {
    assert WorkerOk(c, s, k, s.workers[k]) && WorkerOf(c, s, n) == s.workers[k];
    hide Sound, WorkerOk, Travelling;
  }

  lemma RecordEnds(c: Config, s: State, k: nat, n: Name, v: nat)
    requires Sound(c, s) && FilterFact(c, s) && Ending(c, s, n, v)
    requires WorkerEnabled(s, k, Record(true)) && IsAbout(s, k, n)
    ensures n in RecordedBy(c, s, k, true).finished ==> TellingGone(c, RecordedBy(c, s, k, true), n, v)
  {
    assert WorkerOk(c, s, k, s.workers[k]) && WorkerOf(c, s, n) == s.workers[k];
    hide Sound, WorkerOk, Travelling;
  }

  lemma UpdateEnds(c: Config, s: State, k: nat, n: Name, v: nat)
    requires Sound(c, s) && Ending(c, s, n, v) && WorkerEnabled(s, k, UpdateStatus(true)) && IsAbout(s, k, n)
    ensures n in UpdatedBy(s, k, true).finished ==> TellingGone(c, UpdatedBy(s, k, true), n, v)
  {
    assert WorkerOk(c, s, k, s.workers[k]) && WorkerOf(c, s, n) == s.workers[k];
    hide Sound, WorkerOk, Travelling;
  }

  lemma PatchEnds(c: Config, s: State, k: nat, n: Name, v: nat)
    requires Sound(c, s) && Ending(c, s, n, v) && WorkerEnabled(s, k, Patch(true)) && IsAbout(s, k, n)
    ensures n in PatchedBy(s, k, true).finished ==> TellingGone(c, PatchedBy(s, k, true), n, v)
  {
    assert WorkerOk(c, s, k, s.workers[k]) && WorkerOf(c, s, n) == s.workers[k];
    PatchFrame(s, k, true);
    hide Sound, WorkerOk, Travelling, PatchedBy;
  }

  lemma WorkerEnds(c: Config, s: State, k: nat, w: WorkerStep, n: Name, v: nat)
    requires LabelInv(c, s) && Ending(c, s, n, v) && WorkerEnabled(s, k, w) && Succeeds(s, Worker(k, w), n)
    ensures Ending(c, ApplyWorker(c, s, k, w), n, v)
  {
    assert Sound(c, s) && FilterFact(c, s) && Shapes(c, s);
    WorkerGrows(c, s, k, w);
    assert GrowsAt(s, ApplyWorker(c, s, k, w), n);
    hide LabelInv, Sound, FilterFact, Ending, Grows, GrowsAt, Shapes, WorkerEnabled, OnlyWorker, TellingGone;
    hide UnmarkedBy, ReadBy, NotifiedBy, RecordedBy, UpdatedBy, PatchedBy;
    if w.Pop? {
      PopEnds(c, s, k, n, v);
    } else if !IsAbout(s, k, n) {
      ElsewhereEnds(c, s, k, w, n, v);
    } else {
      WorkerFrame(c, s, k, w);
      LaterStage(c, s, k, w);
      OwnTells(c, s, k, w, n, v);
      hide *;
      OwnEnds(c, s, ApplyWorker(c, s, k, w), k, n, v);
    }
  }

  lemma OwnTells(c: Config, s: State, k: nat, w: WorkerStep, n: Name, v: nat)
    requires Sound(c, s) && FilterFact(c, s) && Ending(c, s, n, v) && WorkerEnabled(s, k, w) && !w.Pop?
    requires IsAbout(s, k, n) && Succeeds(s, Worker(k, w), n)
    ensures
      var t := ApplyWorker(c, s, k, w);
      Count(t.handled, n) == Count(s.handled, n) && (n in t.finished ==> TellingGone(c, t, n, v))
  {
    hide Sound, FilterFact, Ending, TellingGone, UnmarkedBy, ReadBy, NotifiedBy, RecordedBy, UpdatedBy, PatchedBy;
    match w
    case Unmark =>
      UnmarkCounts(s, k);
      UnmarkEnds(c, s, k, n, v);
    case Read => ReadEnds(c, s, k, n, v);
    case Notify =>
      NotifyFrame(c, s, k);
      NotifyEnds(c, s, k, n, v);
    case Record(ok) =>
      RecordFrame(c, s, k, ok);
      RecordEnds(c, s, k, n, v);
    case UpdateStatus(ok) =>
      UpdateFrame(s, k, ok);
      UpdateEnds(c, s, k, n, v);
    case Patch(ok) =>
      PatchFrame(s, k, ok);
      PatchEnds(c, s, k, n, v);
  }

  lemma PopEnds(c: Config, s: State, k: nat, n: Name, v: nat)
    requires Sound(c, s) && Ending(c, s, n, v) && WorkerEnabled(s, k, Pop)
    ensures Ending(c, ApplyWorker(c, s, k, Pop), n, v)
  {
    var t := ApplyWorker(c, s, k, Pop);
    WorkerGrows(c, s, k, Pop);
    PopTravellers(c, s, k);
    assert GrowsAt(s, t, n);
    assert t.handlers == s.handlers && t.finished == s.finished && t.service == s.service;
    assert s.workers[k].Idle? && t.workers == s.workers[k := t.workers[k]] && UpdateOf(t.workers[k]).None?;
    hide ApplyWorker, Grows, GrowsAt, Shapes, Ending, Travelling, HandlersOk, ShardsOk;
    SameEnding(c, s, t, n, v);
  }

  lemma InformerEnds(c: Config, s: State, i: InformerStep, n: Name, v: nat)
    requires Sound(c, s) && Ending(c, s, n, v) && InformerEnabled(c, s, i)
    ensures Ending(c, ApplyInformer(c, s, i), n, v)
  {
    var t := ApplyInformer(c, s, i);
    InformerGrows(c, s, i);
    InformerUntouched(c, s, i);
    InformerMoves(c, s, i, n);
    assert GrowsAt(s, t, n);
    hide ApplyInformer, Grows, GrowsAt, Shapes, Ending, Travelling, HandlersOk, ShardsOk, InformerEnabled, Gone;
    SameEnding(c, s, t, n, v);
  }

  /** Of an action that is gone the informer has nothing new. */
  lemma InformerMoves(c: Config, s: State, i: InformerStep, n: Name)
    requires Valid(c) && InformerEnabled(c, s, i) && Gone(s, n)
    ensures
      var t := ApplyInformer(c, s, i);
      && (n in t.finished ==> n in s.finished)
      && (forall e | e in t.handlers && e.name == n :: e in s.handlers)
      && forall e | Travelling(t, e) :: Travelling(s, e) || e in s.handlers
  {
    match i
    case Inform(m, rev, version) =>
      assert Informed(s, m, rev, version).handlers == s.handlers
             || forall e | e in Informed(s, m, rev, version).handlers :: e in s.handlers || e.name == m;
    case Dispatch =>
      var e, t := s.handlers[0], Dispatched(s);
      DispatchMoves(s);
      hide Dispatched;
      OneMoreTraveller(s, t, e);
    case Send => SendTravellers(c, s);
  }

  lemma DispatchMoves(s: State)
    requires |s.handlers| > 0 && HasVersion(s, s.handlers[0].name, s.handlers[0].version)
    ensures
      var t, e := Dispatched(s), s.handlers[0];
      && t == s.(handlers := t.handlers, sending := t.sending, marks := t.marks)
      && (t.sending == s.sending || t.sending == Some(e)) && t.handlers == s.handlers[1..]
  {
  }

  lemma EndingStep(c: Config, s: State, step: Step, n: Name, v: nat)
    requires LabelInv(c, s) && Enabled(c, s, step) && Ending(c, s, n, v) && Succeeds(s, step, n)
    ensures Ending(c, Apply(c, s, step), n, v)
  {
    assert Sound(c, s) && Shapes(c, s);
    hide LabelInv, Ending, Shapes, Sound, WorkerEnabled, InformerEnabled, ApiEnabled, WatchEnabled;
    hide ApplyWorker, ApplyInformer, ApplyApi, ApplyWatch;
    match step
    case Worker(k, w) => WorkerEnds(c, s, k, w, n, v);
    case Api(a) => ApiEnds(c, s, a, n, v);
    case Informer(i) => InformerEnds(c, s, i, n, v);
    case Watch(id, w) => WatchEnds(c, s, id, w, n, v);
  }

  lemma ApiEnds(c: Config, s: State, a: ApiStep, n: Name, v: nat)
    requires Shapes(c, s) && Ending(c, s, n, v) && ApiEnabled(s, a)
    ensures Ending(c, ApplyApi(s, a), n, v)
  {
    ApiGrows(c, s, a);
    ApiKeepsQueues(s, a);
    assert GrowsAt(s, ApplyApi(s, a), n);
    assert forall e :: Travelling(ApplyApi(s, a), e) ==> Travelling(s, e);
    hide ApplyApi, Grows, GrowsAt, Shapes, Ending, ApiEnabled, Travelling;
    SameEnding(c, s, ApplyApi(s, a), n, v);
  }

  lemma WatchEnds(c: Config, s: State, id: nat, w: WatchStep, n: Name, v: nat)
    requires Shapes(c, s) && Ending(c, s, n, v) && WatchEnabled(s, id, w)
    ensures Ending(c, ApplyWatch(s, id, w), n, v)
  {
    var t := ApplyWatch(s, id, w);
    assert t == s.(streams := t.streams);
    assert forall e :: Travelling(t, e) ==> Travelling(s, e);
    assert GrowsAt(s, t, n);
    hide ApplyWatch, WatchEnabled, Ending, Travelling, GrowsAt;
    SameEnding(c, s, t, n, v);
  }

  lemma {:induction false} EndingRun(c: Config, run: seq<State>, steps: seq<Step>, i: nat, j: nat, n: Name, v: nat)
    requires |run| == |steps| + 1 && Valid(c) && IsRun(c, run, steps) && i <= j < |run| && CallsSucceed(run, steps, n)
    requires Ending(c, run[i], n, v)
    ensures Ending(c, run[j], n, v)
    decreases j
  {
    hide *;
    if i < j {
      EndingRun(c, run, steps, i, j - 1, n, v);
      LabelRun(c, run, steps, j - 1);
      StepAt(c, run, steps, j - 1);
      SucceedsAt(run, steps, n, j - 1);
      EndingStep(c, run[j - 1], steps[j - 1], n, v);
    }
  }

  /** The informer's news of a deletion. */
  predicate NewsOfDeletion(s: State, step: Step, n: Name, v: nat) {
    && step.Informer? && step.informer.Inform? && step.informer.name == n && step.informer.version == v
    && HasVersion(s, n, step.informer.rev) && !Version(s, n, step.informer.rev).live && Count(s.cache, n) > 0
  }

  lemma NewsIsCarried(c: Config, s: State, step: Step, n: Name, v: nat)
    requires LabelInv(c, s) && Enabled(c, s, step) && NewsOfDeletion(s, step, n, v) && n !in s.finished
    requires QueueFacts(Apply(c, s, step))
    ensures Ending(c, Apply(c, s, step), n, v)
  {
    var t, rev := Apply(c, s, step), step.informer.rev;
    OnlyTheLastIsDead(c, s, n, rev);
    assert Sound(c, s);
    assert t == s.(cache := s.cache[n := rev], handlers := s.handlers + [Event(n, Deleted, v)]);
    assert t.handlers[|s.handlers|] == Event(n, Deleted, v);
    assert AfterReads(t, Event(n, Deleted, v));
    assert forall e :: Travelling(t, e) ==> Travelling(s, e);
    forall e | e in s.handlers && e.name == n ensures !e.kind.Deleted? {
      assert EventOk(s, e);
    }
    forall e | Travelling(s, e) && e.name == n ensures !e.kind.Deleted? {
      TravellersKnown(c, s, e);
    }
    hide Travelling, LabelInv, Sound;
  }

  /** If the calls about an action succeed, then once nothing is under way the run service knows of its deletion: it
      accepted the final phase of the version that the news of the deletion carried, or an abort if that was not final. */
  lemma DeletionIsRecorded(c: Config, run: seq<State>, steps: seq<Step>, i: nat, j: nat, n: Name, v: nat)
    requires |run| == |steps| + 1 && Valid(c) && IsRun(c, run, steps) && i < j < |run| && CallsSucceed(run, steps, n)
    requires NewsOfDeletion(run[i], steps[i], n, v) && Quiet(run[j]) && !Born(run[j], n)
    ensures ToldGone(run[j], n, v)
  {
    LabelRun(c, run, steps, i);
    LabelRun(c, run, steps, i + 1);
    LabelRun(c, run, steps, j);
    StreamRun(c, run, steps, i);
    StepAt(c, run, steps, i);
    assert FinishedFact(c, run[i], n) && QueueFacts(run[i + 1]) && n !in run[i].finished;
    hide *;
    NewsIsCarried(c, run[i], steps[i], n, v);
    EndingRun(c, run, steps, i + 1, j, n, v);
    EndedQuietly(c, run[j], n, v);
    if Labelled(run[j], n) {
      LabelledGone(c, run[j], n, v);
      HandledIsTold(c, run, steps, j, n);
    } else {
      QuietDeletionsWereHandled(c, run, steps, j, n);
    }
  }

  lemma EndedQuietly(c: Config, s: State, n: Name, v: nat)
    requires Valid(c) && Ending(c, s, n, v) && Quiet(s)
    ensures HasVersion(s, n, v) && Count(s.handled, n) <= v && Gone(s, n)
    ensures n in s.finished ==> ToldGone(s, n, v)
    ensures Latest(s, n) > 0 && (Labelled(s, n) <==> Version(s, n, Latest(s, n)).labelled)
  {
  }

  lemma LabelledGone(c: Config, s: State, n: Name, v: nat)
    requires LabelInv(c, s) && HasVersion(s, n, v) && Count(s.handled, n) <= v && Labelled(s, n) && !Born(s, n)
    ensures Count(s.handled, n) > 0
    ensures n in s.service.recorded ==> ToldGone(s, n, v)
  {
    assert LabelFact(s, n) && Shapes(c, s);
    PhaseStays(c, s, n, Count(s.handled, n), v);
    PhaseStays(c, s, n, Count(s.handled, n), Latest(s, n));
  }
}
