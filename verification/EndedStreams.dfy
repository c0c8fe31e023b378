/** What a watch stream has said last about a child that is gone. */
module EndedStreams {
  import opened Base
  import opened Phases
  import opened WatchPipeline
  import opened PipelineHistories
  import opened NoLostUpdates
  import opened TerminalLabels
  import opened WatchStreams

  /** What was read last of an action is notified, or its worker is just about to notify it. */
  predicate CaughtUp(c: Config, s: State, n: Name)
    requires Valid(c)
  {
    if ReadyFor(WorkerOf(c, s, n), n) then WorkerOf(c, s, n).update.rev >= Count(s.handled, n)
    else Count(s.notified, n) >= Count(s.handled, n)
  }

  lemma PopCatchesUp(c: Config, s: State, k: nat, n: Name)
    requires Valid(c) && CaughtUp(c, s, n) && WorkerEnabled(s, k, Pop)
    ensures CaughtUp(c, ApplyWorker(c, s, k, Pop), n)
  {
  }

  lemma UnmarkCatchesUp(c: Config, s: State, k: nat, n: Name)
    requires Valid(c) && CaughtUp(c, s, n) && WorkerEnabled(s, k, Unmark) && Count(s.notified, n) <= Latest(s, n)
    ensures CaughtUp(c, UnmarkedBy(s, k), n)
  {
  }

  lemma ReadCatchesUp(c: Config, s: State, k: nat, n: Name)
    requires Valid(c) && CaughtUp(c, s, n) && WorkerEnabled(s, k, Read) && WorkerOk(c, s, k, s.workers[k])
    ensures CaughtUp(c, ReadBy(s, k), n)
  {
  }

  lemma NotifyCatchesUp(c: Config, s: State, k: nat, n: Name)
    requires Valid(c) && CaughtUp(c, s, n) && WorkerEnabled(s, k, Notify) && WorkerOk(c, s, k, s.workers[k])
    ensures CaughtUp(c, NotifiedBy(c, s, k), n)
  {
  }

  lemma LateCatchesUp(c: Config, s: State, k: nat, step: WorkerStep, n: Name)
    requires Valid(c) && CaughtUp(c, s, n) && WorkerEnabled(s, k, step) && IsLate(step) && !step.Notify?
    ensures CaughtUp(c, ApplyWorker(c, s, k, step), n)
  {
    WorkerFrame(c, s, k, step);
    WorkerUntouched(c, s, k, step);
    LateStageIsNotReady(c, s, k, step);
    hide ApplyWorker;
  }

  lemma CaughtUpStep(c: Config, s: State, step: Step, n: Name)
    requires StreamInv(c, s) && Enabled(c, s, step) && CaughtUp(c, s, n)
    ensures CaughtUp(c, Apply(c, s, step), n)
  {
    assert ShardsOk(c, s) && Shapes(c, s) && Count(s.notified, n) <= Count(s.cache, n);
    CacheInHistory(c, s, n);
    hide StreamInv, Shapes, CaughtUp, ShardsOk, ApiEnabled, InformerEnabled, WorkerEnabled, WatchEnabled;
    hide ApplyApi, ApplyInformer, ApplyWorker, ApplyWatch;
    match step
    case Api(a) =>
      ApiKeepsQueues(s, a);
      SameProgress(c, s, ApplyApi(s, a), n);
    case Informer(i) =>
      InformerUntouched(c, s, i);
      SameProgress(c, s, ApplyInformer(c, s, i), n);
    case Watch(id, w) =>
      WatchUntouched(s, id, w);
      SameProgress(c, s, ApplyWatch(s, id, w), n);
    case Worker(k, w) => WorkerCatchesUp(c, s, k, w, n);
  }

  lemma WatchUntouched(s: State, id: nat, step: WatchStep)
    requires WatchEnabled(s, id, step)
    ensures ApplyWatch(s, id, step) == s.(streams := ApplyWatch(s, id, step).streams)
  {
  }

  lemma WorkerCatchesUp(c: Config, s: State, k: nat, w: WorkerStep, n: Name)
    requires Valid(c) && ShardsOk(c, s) && Count(s.notified, n) <= Latest(s, n)
    requires CaughtUp(c, s, n) && WorkerEnabled(s, k, w)
    ensures CaughtUp(c, ApplyWorker(c, s, k, w), n)
  {
    assert WorkerOk(c, s, k, s.workers[k]);
    hide ShardsOk, CaughtUp, WorkerOk, UnmarkedBy, ReadBy, NotifiedBy, RecordedBy, UpdatedBy, PatchedBy;
    match w
    case Pop => PopCatchesUp(c, s, k, n);
    case Unmark => UnmarkCatchesUp(c, s, k, n);
    case Read => ReadCatchesUp(c, s, k, n);
    case Notify => NotifyCatchesUp(c, s, k, n);
    case Record(_) => LateCatchesUp(c, s, k, w, n);
    case UpdateStatus(_) => LateCatchesUp(c, s, k, w, n);
    case Patch(_) => LateCatchesUp(c, s, k, w, n);
  }

  lemma SameProgress(c: Config, s: State, t: State, n: Name)
    requires Valid(c) && CaughtUp(c, s, n) && t.workers == s.workers && t.handled == s.handled && t.notified == s.notified
    ensures CaughtUp(c, t, n)
  {
  }

  lemma {:induction false} CaughtUpRun(c: Config, run: seq<State>, steps: seq<Step>, i: nat, n: Name)
    requires Valid(c) && IsRun(c, run, steps) && i < |run|
    ensures CaughtUp(c, run[i], n)
  {
    assert run[0] == Init(c) && |run| == |steps| + 1;
    hide *;
    if i == 0 {
      InitIsCaughtUp(c, n);
    } else {
      CaughtUpRun(c, run, steps, i - 1, n);
      StreamRun(c, run, steps, i - 1);
      StepAt(c, run, steps, i - 1);
      CaughtUpStep(c, run[i - 1], steps[i - 1], n);
    }
  }

  lemma InitIsCaughtUp(c: Config, n: Name)
    requires Valid(c)
    ensures CaughtUp(c, Init(c), n)
  {
  }

  /** A message about an action that was never notified comes from a snapshot, so it is about a live version. */
  predicate FromSnapshot(s: State, m: Message) {
    Count(s.notified, m.name) == 0 ==> HasVersion(s, m.name, m.rev) && Version(s, m.name, m.rev).live
  }

  ghost predicate OnlySnapshots(s: State) {
    forall id | id in s.streams :: AllFromSnapshot(s, s.streams[id])
  }

  ghost predicate AllFromSnapshot(s: State, stream: Stream) {
    forall m | m in All(stream) :: FromSnapshot(s, m)
  }

  lemma GrowthKeepsSnapshots(c: Config, s: State, t: State)
    requires OnlySnapshots(s) && Extends(c, s, t) && t.streams == s.streams && t.notified == s.notified
    ensures OnlySnapshots(t)
  {
    forall id, m | id in t.streams && m in All(t.streams[id]) ensures FromSnapshot(t, m) {
      assert AllFromSnapshot(s, s.streams[id]) && FromSnapshot(s, m) && GrowsAt(s, t, m.name);
    }
  }

  lemma NotifyKeepsSnapshots(c: Config, s: State, k: nat)
    requires OnlySnapshots(s) && WorkerEnabled(s, k, Notify) && s.workers[k].update.rev > 0
    ensures OnlySnapshots(NotifiedBy(c, s, k))
  {
    var t, u := NotifiedBy(c, s, k), s.workers[k].update;
    forall id, m | id in t.streams && m in All(t.streams[id]) ensures FromSnapshot(t, m) {
      assert AllFromSnapshot(s, s.streams[id]);
      assert m in All(s.streams[id]) || m.name == u.name;
    }
  }

  lemma WatchKeepsSnapshots(s: State, id: nat, step: WatchStep)
    requires OnlySnapshots(s) && StreamFacts(s) && WatchEnabled(s, id, step)
    ensures OnlySnapshots(ApplyWatch(s, id, step))
  {
    var t := ApplyWatch(s, id, step);
    assert t == s.(streams := t.streams);
    forall i | i in t.streams ensures AllFromSnapshot(s, t.streams[i]) {
      if i in s.streams {
        assert AllFromSnapshot(s, s.streams[i]);
      }
      if i == id {
        match step
        case Subscribe(_) => assert All(t.streams[i]) == [];
        case List(snapshot) => ListingIsLive(s, s.streams[i], snapshot);
        case Deliver => assert All(t.streams[i]) == All(s.streams[i]);
      }
    }
    hide ApplyWatch, AllFromSnapshot;
    forall i | i in t.streams ensures AllFromSnapshot(t, t.streams[i]) {
      SameSnapshots(s, t, t.streams[i]);
    }
  }

  lemma SameSnapshots(s: State, t: State, stream: Stream)
    requires t.actions == s.actions && t.notified == s.notified && AllFromSnapshot(s, stream)
    ensures AllFromSnapshot(t, stream)
  {
    forall m | m in All(stream) ensures FromSnapshot(t, m) {
      assert FromSnapshot(s, m);
    }
  }

  lemma ListingIsLive(s: State, stream: Stream, snapshot: seq<Message>)
    requires AllFromSnapshot(s, stream) && stream.sent == [] && IsSnapshot(s, stream.scope, snapshot)
    ensures AllFromSnapshot(s, stream.(listed := true, sent := snapshot))
  {
    assert All(stream) == stream.queue;
    forall m | m in snapshot ensures FromSnapshot(s, m) {
      var j :| 0 <= j < |snapshot| && snapshot[j] == m;
      assert IsListed(s, stream.scope, snapshot[j]);
    }
  }

  lemma SnapshotStep(c: Config, s: State, step: Step)
    requires StreamInv(c, s) && Enabled(c, s, step) && OnlySnapshots(s)
    ensures OnlySnapshots(Apply(c, s, step))
  {
    assert Shapes(c, s) && ShardsOk(c, s) && StreamFacts(s);
    match step
    case Watch(id, w) =>
      hide StreamInv, OnlySnapshots;
      WatchKeepsSnapshots(s, id, w);
    case Api(a) =>
      ApiExtends(c, s, a);
      ApiKeepsQueues(s, a);
      hide StreamInv, OnlySnapshots, ApplyApi, Extends;
      GrowthKeepsSnapshots(c, s, ApplyApi(s, a));
    case Informer(i) =>
      InformerExtends(c, s, i);
      InformerUntouched(c, s, i);
      hide StreamInv, OnlySnapshots, ApplyInformer, Extends;
      GrowthKeepsSnapshots(c, s, ApplyInformer(c, s, i));
    case Worker(k, w) =>
      assert WorkerOk(c, s, k, s.workers[k]);
      hide StreamInv, OnlySnapshots, Extends, Shapes;
      if w.Notify? {
        NotifyKeepsSnapshots(c, s, k);
      } else {
        WorkerExtends(c, s, k, w);
        WorkerUntouched(c, s, k, w);
        hide ApplyWorker;
        GrowthKeepsSnapshots(c, s, ApplyWorker(c, s, k, w));
      }
  }

  lemma InformerExtends(c: Config, s: State, step: InformerStep)
    requires Shapes(c, s) && InformerEnabled(c, s, step)
    ensures Extends(c, s, ApplyInformer(c, s, step))
  {
    InformerGrows(c, s, step);
    InformerUntouched(c, s, step);
    hide ApplyInformer, Grows, Shapes;
  }

  lemma {:induction false} SnapshotRun(c: Config, run: seq<State>, steps: seq<Step>, i: nat)
    requires Valid(c) && IsRun(c, run, steps) && i < |run|
    ensures OnlySnapshots(run[i])
  {
    if i > 0 {
      SnapshotRun(c, run, steps, i - 1);
      StreamRun(c, run, steps, i - 1);
      StepAt(c, run, steps, i - 1);
      hide IsRun, StreamInv, OnlySnapshots;
      SnapshotStep(c, run[i - 1], steps[i - 1]);
    }
  }

  /** Of a child that is gone and was never notified, the last message is a snapshot's: the phase of a live version. */
  lemma LastOfUnnotified(c: Config, run: seq<State>, steps: seq<Step>, i: nat, id: nat, n: Name)
    requires Valid(c) && IsRun(c, run, steps) && i < |run| && id in run[i].streams && Count(run[i].notified, n) == 0
    ensures
      var last := LastMessage(run[i].streams[id].sent, n);
      last.Some? ==>
        && HasVersion(run[i], n, last.value.rev) && Version(run[i], n, last.value.rev).live
        && last.value.phase == Version(run[i], n, last.value.rev).phase
  {
    var s := run[i];
    var stream := s.streams[id];
    StreamRun(c, run, steps, i);
    SnapshotRun(c, run, steps, i);
    LastIsThere(stream.sent, n);
    var last := LastMessage(stream.sent, n);
    if last.Some? {
      assert last.value in All(stream) && MessagesOk(s, stream) && AllFromSnapshot(s, stream);
      assert MessageOk(s, last.value) && FromSnapshot(s, last.value);
    }
  }

  /** Of a child whose end was recorded before it was deleted, the last message tells that it is over: it is no older
      than the version that was recorded, and where it is about a live version it carries the phase that was. */
  lemma LastOfLabelled(c: Config, run: seq<State>, steps: seq<Step>, i: nat, id: nat, n: Name)
    requires Valid(c) && IsRun(c, run, steps) && i < |run| && Quiet(run[i])
    requires id in run[i].streams && Drained(run[i].streams[id]) && InScope(run[i], run[i].streams[id], n)
    requires Gone(run[i], n) && Labelled(run[i], n) && !Born(run[i], n)
    ensures n in run[i].service.accepted
    ensures
      var last := LastMessage(run[i].streams[id].sent, n);
      last.Some? ==>
        && Terminal(last.value.phase) && HasVersion(run[i], n, last.value.rev)
        && (Version(run[i], n, last.value.rev).live ==> last.value.phase == run[i].service.accepted[n])
  {
    var s := run[i];
    var stream := s.streams[id];
    StreamRun(c, run, steps, i);
    CaughtUpRun(c, run, steps, i, n);
    assert LabelFact(s, n) && Shapes(c, s) && !ReadyFor(WorkerOf(c, s, n), n);
    assert All(stream) == stream.sent && MessagesOk(s, stream) && Follows(s, stream, n);
    LastIsThere(stream.sent, n);
    var last := LastMessage(stream.sent, n);
    if last.Some? {
      assert MessageOk(s, last.value);
      PhaseStays(c, s, n, Count(s.handled, n), last.value.rev);
      PhaseStays(c, s, n, Count(s.handled, n), Latest(s, n));
    }
  }

  // Actions that were never notified.

  /** Updates in a stream's channel are about actions that were notified. */
  ghost predicate QueuesNotified(s: State) {
    forall id | id in s.streams :: QueueNotified(s, s.streams[id])
  }

  ghost predicate QueueNotified(s: State, stream: Stream) {
    forall m | m in stream.queue :: Count(s.notified, m.name) > 0
  }

  lemma NotifyKeepsQueues(c: Config, s: State, k: nat)
    requires QueuesNotified(s) && WorkerEnabled(s, k, Notify) && s.workers[k].update.rev > 0
    ensures QueuesNotified(NotifiedBy(c, s, k))
  {
    var t, u := NotifiedBy(c, s, k), s.workers[k].update;
    forall id, m | id in t.streams && m in t.streams[id].queue ensures Count(t.notified, m.name) > 0 {
      assert QueueNotified(s, s.streams[id]);
      assert m in s.streams[id].queue || m.name == u.name;
    }
  }

  lemma WatchKeepsQueues(s: State, id: nat, step: WatchStep)
    requires QueuesNotified(s) && WatchEnabled(s, id, step)
    ensures QueuesNotified(ApplyWatch(s, id, step))
  {
    var t := ApplyWatch(s, id, step);
    forall i, m | i in t.streams && m in t.streams[i].queue ensures Count(t.notified, m.name) > 0 {
      assert i in s.streams ==> QueueNotified(s, s.streams[i]) && m in s.streams[i].queue;
    }
  }

  lemma SameQueues(s: State, t: State)
    requires QueuesNotified(s) && t.streams == s.streams && t.notified == s.notified
    ensures QueuesNotified(t)
  {
    forall id | id in t.streams ensures QueueNotified(t, t.streams[id]) {
      assert QueueNotified(s, s.streams[id]);
    }
  }

  lemma QueueStep(c: Config, s: State, step: Step)
    requires StreamInv(c, s) && Enabled(c, s, step) && QueuesNotified(s)
    ensures QueuesNotified(Apply(c, s, step))
  {
    assert Shapes(c, s) && ShardsOk(c, s);
    hide StreamInv, Shapes, QueuesNotified, ApplyApi, ApplyInformer, ApplyWatch;
    match step
    case Watch(id, w) => WatchKeepsQueues(s, id, w);
    case Api(a) =>
      ApiKeepsQueues(s, a);
      SameQueues(s, ApplyApi(s, a));
    case Informer(i) =>
      InformerUntouched(c, s, i);
      SameQueues(s, ApplyInformer(c, s, i));
    case Worker(k, w) =>
      assert WorkerOk(c, s, k, s.workers[k]);
      if w.Notify? {
        NotifyKeepsQueues(c, s, k);
      } else {
        WorkerUntouched(c, s, k, w);
        hide ApplyWorker;
        SameQueues(s, ApplyWorker(c, s, k, w));
      }
  }

  lemma {:induction false} QueueRun(c: Config, run: seq<State>, steps: seq<Step>, i: nat)
    requires Valid(c) && IsRun(c, run, steps) && i < |run|
    ensures QueuesNotified(run[i])
  {
    assert run[0] == Init(c) && |run| == |steps| + 1;
    assert QueuesNotified(Init(c));
    hide *;
    if i > 0 {
      QueueRun(c, run, steps, i - 1);
      StreamRun(c, run, steps, i - 1);
      StepAt(c, run, steps, i - 1);
      QueueStep(c, run[i - 1], steps[i - 1]);
    }
  }

  /** A stream that has listed sends nothing more about an action that is never notified. */
  lemma ListedStays(c: Config, s: State, step: Step, id: nat, n: Name)
    requires QueuesNotified(s) && Enabled(c, s, step) && id in s.streams && s.streams[id].listed
    requires step != Watch(id, Unsubscribe) && Count(s.notified, n) == 0
    ensures
      var t := Apply(c, s, step);
      id in t.streams && t.streams[id].listed
      && LastMessage(t.streams[id].sent, n) == LastMessage(s.streams[id].sent, n)
  {
    var t := Apply(c, s, step);
    match step
    case Api(a) => ApiKeepsQueues(s, a);
    case Informer(i) => InformerUntouched(c, s, i);
    case Worker(k, w) =>
      if !w.Notify? {
        WorkerUntouched(c, s, k, w);
      }
    case Watch(j, w) =>
      if j == id && w.Deliver? {
        assert QueueNotified(s, s.streams[id]);
        LastOfOneMore(s.streams[id].sent, s.streams[id].queue[0], n);
      }
  }

  /** An action born with the label is shown to a stream only as it was when the stream listed, whatever happens to it
      later: every message about it is its snapshot entry. */
  lemma {:induction false} BornLabelledIsShownOnce(c: Config, run: seq<State>, steps: seq<Step>, i: nat, j: nat,
                                                   id: nat, n: Name)
    requires Valid(c) && |run| == |steps| + 1 && i <= j <= |steps| && IsRun(c, run, steps)
    requires Born(run[j], n) && id in run[i].streams && run[i].streams[id].listed
    requires forall k :: i <= k < j ==> steps[k] != Watch(id, Unsubscribe)
    ensures id in run[j].streams && run[j].streams[id].listed && SaysOnlyItsListing(run[j], run[j].streams[id], n)
    ensures LastMessage(run[j].streams[id].sent, n) == LastMessage(run[i].streams[id].sent, n)
  {
    BornLabelledIsInvisible(c, run, steps, j, n);
    UnnotifiedIsShownOnce(c, run, steps, i, j, id, n);
  }

  lemma {:induction false} UnnotifiedIsShownOnce(c: Config, run: seq<State>, steps: seq<Step>, i: nat, j: nat,
                                                 id: nat, n: Name)
    requires Valid(c) && |run| == |steps| + 1 && i <= j <= |steps| && IsRun(c, run, steps)
    requires Count(run[j].notified, n) == 0 && id in run[i].streams && run[i].streams[id].listed
    requires forall k :: i <= k < j ==> steps[k] != Watch(id, Unsubscribe)
    ensures id in run[j].streams && run[j].streams[id].listed && SaysOnlyItsListing(run[j], run[j].streams[id], n)
    ensures LastMessage(run[j].streams[id].sent, n) == LastMessage(run[i].streams[id].sent, n)
  {
    hide *;
    if i < j {
      NeverNotifiedBefore(c, run, steps, j - 1, n);
      UnnotifiedIsShownOnce(c, run, steps, i, j - 1, id, n);
      QueueRun(c, run, steps, j - 1);
      StepAt(c, run, steps, j - 1);
      assert steps[j - 1] != Watch(id, Unsubscribe);
      ListedStays(c, run[j - 1], steps[j - 1], id, n);
    }
    StreamIsSnapshot(c, run, steps, j, id, n);
  }

  /** No message about n is queued, and those sent are a live version's, as a listing shows it. */
  ghost predicate SaysOnlyItsListing(s: State, stream: Stream, n: Name) {
    && (forall m | m in stream.queue :: m.name != n)
    && forall m | m in stream.sent && m.name == n ::
         HasVersion(s, n, m.rev) && Version(s, n, m.rev).live && m.phase == Version(s, n, m.rev).phase
  }

  lemma StreamIsSnapshot(c: Config, run: seq<State>, steps: seq<Step>, j: nat, id: nat, n: Name)
    requires Valid(c) && |run| == |steps| + 1 && j <= |steps| && IsRun(c, run, steps)
    requires id in run[j].streams && Count(run[j].notified, n) == 0
    ensures SaysOnlyItsListing(run[j], run[j].streams[id], n)
  {
    QueueRun(c, run, steps, j);
    StreamRun(c, run, steps, j);
    SnapshotRun(c, run, steps, j);
    var stream := run[j].streams[id];
    assert QueueNotified(run[j], stream) && MessagesOk(run[j], stream) && AllFromSnapshot(run[j], stream);
    hide IsRun, StreamInv;
    forall m | m in stream.sent && m.name == n
      ensures HasVersion(run[j], n, m.rev) && Version(run[j], n, m.rev).live && m.phase == Version(run[j], n, m.rev).phase
    {
      assert m in All(stream);
      assert MessageOk(run[j], m) && FromSnapshot(run[j], m);
    }
  }

  /** Notifications are not taken back. */
  lemma NeverNotifiedBefore(c: Config, run: seq<State>, steps: seq<Step>, i: nat, n: Name)
    requires Valid(c) && IsRun(c, run, steps) && i + 1 < |run| && Count(run[i + 1].notified, n) == 0
    ensures Count(run[i].notified, n) == 0
  {
    StreamRun(c, run, steps, i);
    StepAt(c, run, steps, i);
    var s, step := run[i], steps[i];
    assert Shapes(c, s) && ShardsOk(c, s);
    hide IsRun, StreamInv, Shapes;
    match step
    case Api(a) => ApiKeepsQueues(s, a);
    case Informer(x) => InformerUntouched(c, s, x);
    case Watch(id, w) => WatchUntouched(s, id, w);
    case Worker(k, w) =>
      assert WorkerOk(c, s, k, s.workers[k]);
      if !w.Notify? {
        WorkerUntouched(c, s, k, w);
      }
  }

  /** A child that inherited the label, listed by a stream as it was created. */
  lemma LabelledIsListed(c: Config, root: Name, child: Name, above: Scope, scope: Scope, id: nat)
      returns (run: seq<State>, steps: seq<Step>)
    requires Valid(c) && root != child && above != scope
    ensures |run| == |steps| + 1 && IsRun(c, run, steps)
    ensures
      var s := run[|steps|];
      && s == Init(c).(actions := s.actions, streams := map[id := Stream(scope, true, [], [Message(child, 1, Unspecified)], false)])
      && child in s.actions && s.actions[child] == Action("child", scope, ChildTask(root, true), [Object(Unspecified, true, true)])
  {
    run, steps := [Init(c)], [];
    assert IsRun(c, run, steps);
    var first := Message(child, 1, Unspecified);
    hide IsRun;
    run, steps := Extend(c, run, steps, Api(Create(root, "root", above, RootTask(true))));
    run, steps := Extend(c, run, steps, Api(Create(child, "child", scope, ChildTask(root, true))));
    var s := run[|steps|];
    run, steps := Extend(c, run, steps, Watch(id, Subscribe(scope)));
    assert IsSnapshot(run[|steps|], scope, [first]);
    run, steps := Extend(c, run, steps, Watch(id, List([first])));
    assert run[|steps|].streams == map[id := Stream(scope, true, [], [first], false)];
    assert run[|steps|] == s.(streams := run[|steps|].streams);
  }

  /** It is shown and never followed up: it ends, and when everything is quiet the stream's last word is still that
      first one. */
  lemma LabelledEndIsNotShown(c: Config, root: Name, child: Name, above: Scope, scope: Scope, id: nat)
      returns (run: seq<State>, steps: seq<Step>)
    requires Valid(c) && root != child && above != scope
    ensures |run| == |steps| + 1 && IsRun(c, run, steps)
    ensures
      var s := run[|steps|];
      && Born(s, child) && Quiet(s) && id in s.streams && Drained(s.streams[id]) && IsChild(s, s.streams[id], child)
      && Count(s.cache, child) == Latest(s, child) && Version(s, child, Latest(s, child)).phase == Succeeded
      && LastMessage(s.streams[id].sent, child) == Some(Message(child, 1, Unspecified))
  {
    run, steps := LabelledIsListed(c, root, child, above, scope, id);
    hide IsRun;
    run, steps := Extend(c, run, steps, Api(Write(child, Succeeded)));
    run, steps := Extend(c, run, steps, Informer(Inform(child, 2, 2)));
    run, steps := Extend(c, run, steps, Informer(Dispatch));
  }

  /** A stream that has listed can always send all that its channel holds, in order, and with that nothing else changes. */
  lemma {:induction false} StreamDrains(c: Config, run: seq<State>, steps: seq<Step>, id: nat)
      returns (run': seq<State>, steps': seq<Step>)
    requires |run| == |steps| + 1 && IsRun(c, run, steps)
    requires id in run[|steps|].streams && run[|steps|].streams[id].listed
    ensures |run'| == |steps'| + 1 && IsRun(c, run', steps') && run <= run' && steps <= steps'
    ensures forall k :: |steps| <= k < |steps'| ==> steps'[k] == Watch(id, Deliver)
    ensures
      var s, stream := run[|steps|], run[|steps|].streams[id];
      run'[|steps'|] == s.(streams := s.streams[id := stream.(queue := [], sent := stream.sent + stream.queue)])
    decreases |run[|steps|].streams[id].queue|
  {
    var s, stream := run[|steps|], run[|steps|].streams[id];
    run', steps' := run, steps;
    if stream.queue == [] {
      assert stream.sent + stream.queue == stream.sent && s.streams[id := stream] == s.streams;
    } else {
      run', steps' := Extend(c, run, steps, Watch(id, Deliver));
      var next := run'[|steps'|].streams[id];
      assert next.sent + next.queue == stream.sent + stream.queue;
      hide IsRun;
      run', steps' := StreamDrains(c, run', steps', id);
    }
  }
}
