/** Where things come from: what the run service knows, labels and deletions each stem from a step that brought them. */
module ServiceHistory {
  import opened Base
  import opened Phases
  import opened WatchPipeline
  import opened PipelineHistories
  import opened TerminalLabels

  /** The step is a RecordAction of n that goes through. */
  predicate Records(s: State, step: Step, n: Name) {
    && step.Worker? && step.worker == Record(true) && step.shard < |s.workers|
    && s.workers[step.shard].Notified? && s.workers[step.shard].update.name == n
  }

  /** The step is an UpdateActionStatus of n that goes through, with a final phase. */
  predicate Accepts(s: State, step: Step, n: Name, p: Phase) {
    && step.Worker? && step.worker == UpdateStatus(true) && StageVersions(s, step.shard)
    && s.workers[step.shard].Noted? && s.workers[step.shard].update.name == n
    && UpdatePhase(s, s.workers[step.shard].update) == p && Terminal(p)
  }

  predicate AcceptsAny(s: State, step: Step, n: Name) {
    exists p :: Accepts(s, step, n, p)
  }

  predicate IsCall(step: Step) {
    step.Worker? && (step.worker.Record? || step.worker.UpdateStatus?)
  }

  lemma ServiceKept(c: Config, s: State, step: Step)
    requires Enabled(c, s, step) && !IsCall(step)
    ensures Apply(c, s, step).service == s.service
  {
    hide HasVersion, Versions, StageVersions, WorkerEnabled, ApplyWorker;
    match step
    case Worker(k, w) => WorkerKeepsService(c, s, k, w);
    case Api(a) => ApiKeepsQueues(s, a);
    case Informer(Inform(m, rev, version)) =>
    case Informer(Dispatch) =>
    case Informer(Send) =>
    case Watch(id, w) =>
  }

  lemma WorkerKeepsService(c: Config, s: State, k: nat, w: WorkerStep)
    requires WorkerEnabled(s, k, w) && !w.Record? && !w.UpdateStatus?
    ensures ApplyWorker(c, s, k, w).service == s.service
  {
    hide HasVersion, StageVersions, Versions, PatchedBy;
    match w
    case Pop =>
    case Unmark =>
    case Read =>
    case Notify =>
    case Patch(ok) => PatchKeepsService(s, k, ok);
  }

  lemma PatchKeepsService(s: State, k: nat, ok: bool)
    requires WorkerEnabled(s, k, Patch(ok))
    ensures PatchedBy(s, k, ok).service == s.service
  {
  }

  lemma ServiceStep(c: Config, s: State, step: Step, n: Name)
    requires Enabled(c, s, step) && FilterFact(c, s)
    ensures
      n in Apply(c, s, step).service.recorded <==> n in s.service.recorded || Records(s, step, n)
  {
    if !IsCall(step) {
      ServiceKept(c, s, step);
      hide Enabled, Apply;
    } else if step.worker.Record? {
      RecordRecords(c, s, step.shard, step.worker.ok, n);
    } else {
      UpdateKeepsRecords(s, step.shard, step.worker.ok);
      hide UpdatedBy;
    }
  }

  lemma RecordRecords(c: Config, s: State, k: nat, ok: bool, n: Name)
    requires WorkerEnabled(s, k, Record(ok)) && FilterFact(c, s)
    ensures
      n in RecordedBy(c, s, k, ok).service.recorded <==> n in s.service.recorded || Records(s, Worker(k, Record(ok)), n)
  {
    var u := s.workers[k].update;
    assert InFilter(c, s.service, u.name) ==> u.name in s.service.recorded;
    hide FilterFact, InFilter, HasVersion, StageVersions;
  }

  lemma UpdateKeepsRecords(s: State, k: nat, ok: bool)
    requires WorkerEnabled(s, k, UpdateStatus(ok))
    ensures
      var t := UpdatedBy(s, k, ok);
      t.service.recorded == s.service.recorded && t.service.filter == s.service.filter
  {
  }

  /** The run service knows an action exactly if a RecordAction of it succeeded. */
  lemma {:induction false} RecordedExactly(c: Config, run: seq<State>, steps: seq<Step>, i: nat, n: Name)
    requires Valid(c) && |run| == |steps| + 1 && i < |run| && IsRun(c, run, steps)
    ensures n in run[i].service.recorded <==> exists j :: 0 <= j < i && Records(run[j], steps[j], n)
  {
    hide IsRun, Enabled, Apply, Records, Accepts, AcceptsAny, LastAccepted;
    if i == 0 {
      RunStarts(c, run, steps);
    } else {
      RecordedExactly(c, run, steps, i - 1, n);
      LabelRun(c, run, steps, i - 1);
      assert FilterFact(c, run[i - 1]);
      StepAt(c, run, steps, i - 1);
      ServiceStep(c, run[i - 1], steps[i - 1], n);
    }
  }

  lemma AcceptedStep(c: Config, s: State, step: Step, n: Name)
    requires Enabled(c, s, step)
    ensures
      var t := Apply(c, s, step);
      && (forall p | Accepts(s, step, n, p) :: n in t.service.accepted && t.service.accepted[n] == p)
      && (!AcceptsAny(s, step, n) ==>
            && (n in t.service.accepted <==> n in s.service.accepted)
            && (n in s.service.accepted ==> t.service.accepted[n] == s.service.accepted[n]))
  {
    if !IsCall(step) {
      ServiceKept(c, s, step);
      hide Enabled, Apply;
    } else if step.worker.Record? {
      RecordKeepsAccepted(c, s, step.shard, step.worker.ok);
      hide RecordedBy;
    } else {
      UpdateAccepts(s, step.shard, step.worker.ok, n);
      hide UpdatedBy, Accepts;
    }
  }

  lemma RecordKeepsAccepted(c: Config, s: State, k: nat, ok: bool)
    requires WorkerEnabled(s, k, Record(ok))
    ensures RecordedBy(c, s, k, ok).service.accepted == s.service.accepted
  {
  }

  lemma UpdateAccepts(s: State, k: nat, ok: bool, n: Name)
    requires WorkerEnabled(s, k, UpdateStatus(ok))
    ensures
      var t, step := UpdatedBy(s, k, ok), Worker(k, UpdateStatus(ok));
      && (forall p | Accepts(s, step, n, p) :: n in t.service.accepted && t.service.accepted[n] == p)
      && (!AcceptsAny(s, step, n) ==>
            && (n in t.service.accepted <==> n in s.service.accepted)
            && (n in s.service.accepted ==> t.service.accepted[n] == s.service.accepted[n]))
  {
    var u := s.workers[k].update;
    if u.name == n && ok && Terminal(UpdatePhase(s, u)) {
      assert Accepts(s, Worker(k, UpdateStatus(ok)), n, UpdatePhase(s, u));
    }
  }

  /** Step j is the last before i with which a final phase of n was accepted, and it was p. */
  ghost predicate LastAccepted(run: seq<State>, steps: seq<Step>, n: Name, p: Phase, j: nat, i: nat)
    requires |run| == |steps| + 1 && j < i <= |steps|
  {
    Accepts(run[j], steps[j], n, p) && forall l :: j < l < i ==> !AcceptsAny(run[l], steps[l], n)
  }

  /** The final phase that the run service holds of an action is the last one that an UpdateActionStatus brought it. */
  lemma {:induction false} AcceptedExactly(c: Config, run: seq<State>, steps: seq<Step>, i: nat, n: Name, p: Phase)
    requires |run| == |steps| + 1 && i < |run| && IsRun(c, run, steps)
    ensures n in run[i].service.accepted && run[i].service.accepted[n] == p <==>
      exists j :: 0 <= j < i && LastAccepted(run, steps, n, p, j, i)
  {
    hide IsRun, Enabled, Apply, Records, Accepts, AcceptsAny, LastAccepted;
    if i == 0 {
      RunStarts(c, run, steps);
    } else {
      AcceptedExactly(c, run, steps, i - 1, n, p);
      StepAt(c, run, steps, i - 1);
      AcceptedStep(c, run[i - 1], steps[i - 1], n);
      OnePhase(run[i - 1], steps[i - 1], n, p);
      LaterAccepted(run, steps, n, p, i, i - 1);
    }
  }

  lemma OnePhase(s: State, step: Step, n: Name, p: Phase)
    ensures AcceptsAny(s, step, n) ==> exists q :: Accepts(s, step, n, q) && (Accepts(s, step, n, p) <==> p == q)
  {
  }

  lemma LaterAccepted(run: seq<State>, steps: seq<Step>, n: Name, p: Phase, i: nat, last: nat)
    requires |run| == |steps| + 1 && 0 < i <= |steps| && last == i - 1
    ensures
      (exists j :: 0 <= j < i && LastAccepted(run, steps, n, p, j, i)) <==>
      Accepts(run[last], steps[last], n, p)
      || ((exists j :: 0 <= j < last && LastAccepted(run, steps, n, p, j, last)) && !AcceptsAny(run[last], steps[last], n))
  {
    hide Accepts, AcceptsAny;
    if Accepts(run[last], steps[last], n, p) {
      assert LastAccepted(run, steps, n, p, last, i);
    }
    if j :| 0 <= j < i && LastAccepted(run, steps, n, p, j, i) {
      assert j < last ==> LastAccepted(run, steps, n, p, j, last);
    }
    if j :| 0 <= j < last && LastAccepted(run, steps, n, p, j, last) {
      assert !AcceptsAny(run[last], steps[last], n) ==> LastAccepted(run, steps, n, p, j, i);
    }
  }

  /** The informer announces an action as added the first time it shows it, as modified from then on, and as deleted only
      when it is gone. */
  lemma NewsOfKinds(c: Config, s: State, n: Name, rev: nat, version: nat)
    requires InformerEnabled(c, s, Inform(n, rev, version)) && Informed(s, n, rev, version).handlers != s.handlers
    ensures
      var handlers := Informed(s, n, rev, version).handlers;
      && |handlers| == |s.handlers| + 1
      && var e := handlers[|s.handlers|];
         && e.name == n && e.version == version
         && (e.kind == Added <==> Count(s.cache, n) == 0) && (e.kind == Deleted <==> !Version(s, n, rev).live)
  {
  }

  /** The step is a label patch of n that goes through and finds it. */
  predicate Patches(s: State, step: Step, n: Name) {
    && step.Worker? && step.worker == Patch(true) && step.shard < |s.workers|
    && s.workers[step.shard].Patching? && s.workers[step.shard].update.name == n && Exists(s, n)
  }

  predicate Creates(step: Step, n: Name) {
    step.Api? && step.api.Create? && step.api.name == n
  }

  predicate Removes(step: Step, n: Name) {
    step == Api(Remove(n))
  }

  /** The step is a creation of n with the label on it. */
  predicate CreatesLabelled(step: Step, n: Name) {
    Creates(step, n) && BornLabelled(step.api.origin)
  }

  lemma LabelMoves(c: Config, s: State, step: Step, n: Name)
    requires Shapes(c, s) && Enabled(c, s, step)
    ensures
      var t := Apply(c, s, step);
      && (Labelled(t, n) <==> Labelled(s, n) || Patches(s, step, n) || CreatesLabelled(step, n))
      && (Exists(t, n) <==> (Exists(s, n) || Creates(step, n)) && !Removes(step, n))
      && (Latest(t, n) > 0 <==> Latest(s, n) > 0 || Creates(step, n))
      && (Creates(step, n) ==> Latest(s, n) == 0)
  {
    if step.Api? {
      ApiMovesLabels(c, s, step.api, n);
    } else if step.Worker? && step.worker.Patch? {
      PatchMovesLabels(c, s, step.shard, step.worker.ok, n);
    } else {
      OthersKeepHistories(c, s, step);
    }
  }

  lemma ApiMovesLabels(c: Config, s: State, a: ApiStep, n: Name)
    requires Shapes(c, s) && ApiEnabled(s, a)
    ensures
      var t, step := ApplyApi(s, a), Api(a);
      && (Labelled(t, n) <==> Labelled(s, n) || CreatesLabelled(step, n))
      && (Exists(t, n) <==> (Exists(s, n) || Creates(step, n)) && !Removes(step, n))
      && (Latest(t, n) > 0 <==> Latest(s, n) > 0 || Creates(step, n))
      && (Creates(step, n) ==> Latest(s, n) == 0)
  {
  }

  lemma PatchMovesLabels(c: Config, s: State, k: nat, ok: bool, n: Name)
    requires WorkerEnabled(s, k, Patch(ok))
    ensures
      var t := PatchedBy(s, k, ok);
      && (Labelled(t, n) <==> Labelled(s, n) || Patches(s, Worker(k, Patch(ok)), n))
      && (Exists(t, n) <==> Exists(s, n)) && (Latest(t, n) > 0 <==> Latest(s, n) > 0)
  {
  }

  lemma OthersKeepHistories(c: Config, s: State, step: Step)
    requires Enabled(c, s, step) && !step.Api? && !(step.Worker? && step.worker.Patch?)
    ensures Apply(c, s, step).actions == s.actions
  {
    hide HasVersion, Versions, StageVersions, WorkerEnabled, ApplyWorker;
    match step
    case Worker(k, w) =>
      if w.Pop? {
        PopKeepsHistories(c, s, k);
      } else {
        WorkerFrame(c, s, k, w);
      }
    case Informer(Inform(m, rev, version)) =>
    case Informer(Dispatch) =>
    case Informer(Send) =>
    case Watch(id, w) =>
  }

  lemma PopKeepsHistories(c: Config, s: State, k: nat)
    requires WorkerEnabled(s, k, Pop)
    ensures ApplyWorker(c, s, k, Pop).actions == s.actions
  {
  }

  lemma {:induction false} ShapesRun(c: Config, run: seq<State>, steps: seq<Step>, i: nat)
    requires Valid(c) && |run| == |steps| + 1 && i < |run| && IsRun(c, run, steps)
    ensures Shapes(c, run[i])
  {
    hide IsRun, Enabled, Apply;
    if i == 0 {
      RunStarts(c, run, steps);
    } else {
      hide Shapes;
      ShapesRun(c, run, steps, i - 1);
      StepAt(c, run, steps, i - 1);
      StepGrows(c, run[i - 1], steps[i - 1]);
    }
  }

  ghost predicate WasCreated(run: seq<State>, steps: seq<Step>, n: Name, i: nat)
    requires |run| == |steps| + 1 && i < |run|
  {
    exists j :: 0 <= j < i && Creates(steps[j], n)
  }

  ghost predicate WasLabelled(run: seq<State>, steps: seq<Step>, n: Name, i: nat)
    requires |run| == |steps| + 1 && i < |run|
  {
    exists j :: 0 <= j < i && (Patches(run[j], steps[j], n) || CreatesLabelled(steps[j], n))
  }

  lemma {:induction false} CreatedExactly(c: Config, run: seq<State>, steps: seq<Step>, i: nat, n: Name)
    requires Valid(c) && |run| == |steps| + 1 && i < |run| && IsRun(c, run, steps)
    ensures Latest(run[i], n) > 0 <==> WasCreated(run, steps, n, i)
  {
    hide IsRun, Shapes, Enabled, Apply, Patches, Creates, CreatesLabelled, Removes;
    if i == 0 {
      RunStarts(c, run, steps);
    } else {
      hide Exists, Labelled, HasVersion, Latest;
      CreatedExactly(c, run, steps, i - 1, n);
      ShapesRun(c, run, steps, i - 1);
      StepAt(c, run, steps, i - 1);
      LabelMoves(c, run[i - 1], steps[i - 1], n);
    }
  }

  ghost predicate WasRemoved(run: seq<State>, steps: seq<Step>, n: Name, i: nat)
    requires |run| == |steps| + 1 && i < |run|
  {
    exists j :: 0 <= j < i && Removes(steps[j], n)
  }

  lemma RemovedWasCreated(c: Config, run: seq<State>, steps: seq<Step>, i: nat, n: Name)
    requires Valid(c) && |run| == |steps| + 1 && i < |run| && IsRun(c, run, steps)
    ensures WasRemoved(run, steps, n, i) ==> WasCreated(run, steps, n, i)
  {
    if WasRemoved(run, steps, n, i) {
      var j :| 0 <= j < i && Removes(steps[j], n);
      StepAt(c, run, steps, j);
      CreatedExactly(c, run, steps, j, n);
      hide IsRun;
    }
  }

  /** An action exists exactly if it was created and not removed; it carries the label exactly if it was created with it
      or a patch that went through put it there. */
  lemma {:induction false} LabelsAndLivesExactly(c: Config, run: seq<State>, steps: seq<Step>, i: nat, n: Name)
    requires Valid(c) && |run| == |steps| + 1 && i < |run| && IsRun(c, run, steps)
    ensures Labelled(run[i], n) <==> WasLabelled(run, steps, n, i)
    ensures Exists(run[i], n) <==> WasCreated(run, steps, n, i) && !WasRemoved(run, steps, n, i)
  {
    hide IsRun, Shapes, Enabled, Apply, Patches, Creates, CreatesLabelled, Removes;
    if i == 0 {
      RunStarts(c, run, steps);
    } else {
      hide Exists, Labelled, HasVersion, Latest;
      LabelsAndLivesExactly(c, run, steps, i - 1, n);
      ShapesRun(c, run, steps, i - 1);
      StepAt(c, run, steps, i - 1);
      RemovedWasCreated(c, run, steps, i - 1, n);
      CreatedExactly(c, run, steps, i - 1, n);
      LabelMoves(c, run[i - 1], steps[i - 1], n);
    }
  }
}
