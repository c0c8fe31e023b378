/** What holds of histories, events and shards in every state: versions only grow, events carry versions that exist,
    and all events of an action go to one worker. */
module PipelineHistories {
  import opened Base
  import opened Phases
  import opened WatchPipeline

  /** Labels and final phases stay, and nothing follows a deletion. */
  predicate GoodHistory(vs: seq<Object>) {
    && |vs| > 0
    && forall i, j :: 0 <= i < j < |vs| ==>
         && vs[i].live && (vs[i].labelled ==> vs[j].labelled)
         && (Terminal(vs[i].phase) ==> vs[j].phase == vs[i].phase)
  }

  predicate Shapes(c: Config, s: State) {
    && Valid(c) && |s.channels| == c.numWorkers && |s.workers| == c.numWorkers
    && (forall n | n in s.actions :: GoodHistory(s.actions[n].versions))
    && forall n | n in s.cache :: s.cache[n] <= Latest(s, n)
  }

  /** The cache knows that the action is deleted. */
  predicate Gone(s: State, n: Name) {
    Latest(s, n) > 0 && !Version(s, n, Latest(s, n)).live && Count(s.cache, n) == Latest(s, n)
  }

  predicate EventOk(s: State, e: Event) {
    && HasVersion(s, e.name, e.version) && e.version <= Count(s.cache, e.name)
    && (e.kind.Deleted? ==> Gone(s, e.name))
  }

  predicate UpdateOk(s: State, u: Update) {
    && HasVersion(s, u.name, u.version) && u.version <= u.rev <= Count(s.cache, u.name)
    && (if u.kind.Deleted? then Gone(s, u.name) && u.rev == Latest(s, u.name)
        else u.rev == u.version && Version(s, u.name, u.version).live)
  }

  function NameOf(stage: Stage): Option<Name> {
    match stage
    case Idle => None
    case Popped(e) => Some(e.name)
    case Unmarked(e) => Some(e.name)
    case Ready(u) => Some(u.name)
    case Notified(u) => Some(u.name)
    case Noted(u) => Some(u.name)
    case Patching(u) => Some(u.name)
  }

  predicate StageOk(s: State, stage: Stage) {
    match stage
    case Idle => true
    case Popped(e) => EventOk(s, e)
    case Unmarked(e) => EventOk(s, e) && !e.kind.Deleted?
    case Ready(u) => UpdateOk(s, u)
    case Notified(u) => UpdateOk(s, u)
    case Noted(u) => UpdateOk(s, u)
    case Patching(u) => UpdateOk(s, u) && !u.kind.Deleted? && Terminal(Version(s, u.name, u.version).phase)
  }

  predicate AllOk(s: State, events: seq<Event>) {
    forall i :: 0 <= i < |events| ==> EventOk(s, events[i])
  }

  predicate HandlersOk(s: State) {
    AllOk(s, s.handlers) && (s.sending.Some? ==> EventOk(s, s.sending.value))
  }

  predicate AllOfShard(c: Config, k: int, events: seq<Event>)
    requires Valid(c)
  {
    forall i :: 0 <= i < |events| ==> Shard(c, events[i].name) == k
  }

  predicate WorkerOk(c: Config, s: State, k: int, stage: Stage)
    requires Valid(c)
  {
    StageOk(s, stage) && (NameOf(stage).Some? ==> Shard(c, NameOf(stage).value) == k)
  }

  /** All events of an action go to one channel and one worker. */
  predicate ShardsOk(c: Config, s: State)
    requires Valid(c)
  {
    && (forall k :: 0 <= k < |s.channels| ==> AllOk(s, s.channels[k]) && AllOfShard(c, k, s.channels[k]))
    && forall k :: 0 <= k < |s.workers| ==> WorkerOk(c, s, k, s.workers[k])
  }

  predicate Sound(c: Config, s: State) {
    Shapes(c, s) && HandlersOk(s) && ShardsOk(c, s)
  }

  /** Histories and the cache only move forward. */
  ghost predicate Grows(s: State, t: State) {
    forall n :: GrowsAt(s, t, n)
  }

  predicate GrowsAt(s: State, t: State, n: Name) {
    && Versions(s, n) <= Versions(t, n)
    && Count(s.cache, n) <= Count(t.cache, n)
    && (Gone(s, n) ==> Versions(t, n) == Versions(s, n) && Count(t.cache, n) == Count(s.cache, n))
  }

  lemma EventStaysOk(s: State, t: State, e: Event)
    requires Grows(s, t) && EventOk(s, e)
    ensures EventOk(t, e)
  {
    assert GrowsAt(s, t, e.name);
  }

  lemma StageStaysOk(s: State, t: State, stage: Stage)
    requires Grows(s, t) && StageOk(s, stage)
    ensures StageOk(t, stage)
  {
    if NameOf(stage).Some? {
      assert GrowsAt(s, t, NameOf(stage).value);
    }
  }

  lemma StoreGrows(c: Config, s: State, n: Name, o: Object)
    requires Shapes(c, s) && Exists(s, n)
    requires var last := Version(s, n, Latest(s, n));
      (last.labelled ==> o.labelled) && (Terminal(last.phase) ==> o.phase == last.phase)
    ensures Grows(s, Store(s, n, o)) && Shapes(c, Store(s, n, o))
  {
    var t := Store(s, n, o);
    forall m ensures GrowsAt(s, t, m) {
    }
    forall m | m in t.cache ensures t.cache[m] <= Latest(t, m) {
      assert GrowsAt(s, t, m);
    }
  }

  lemma ApiGrows(c: Config, s: State, step: ApiStep)
    requires Shapes(c, s) && ApiEnabled(s, step)
    ensures Grows(s, ApplyApi(s, step)) && Shapes(c, ApplyApi(s, step))
  {
    match step
    case Create(_, _, _, _) =>
      var t := ApplyApi(s, step);
      forall n ensures GrowsAt(s, t, n) {
      }
      forall n | n in t.cache ensures t.cache[n] <= Latest(t, n) {
        assert GrowsAt(s, t, n);
      }
    case Write(n, phase) => StoreGrows(c, s, n, Version(s, n, Latest(s, n)).(phase := phase));
    case Remove(n) => StoreGrows(c, s, n, Version(s, n, Latest(s, n)).(live := false));
  }

  lemma InformGrows(c: Config, s: State, n: Name, rev: nat, version: nat)
    requires Shapes(c, s) && HasVersion(s, n, rev) && Count(s.cache, n) < rev
    ensures Grows(s, Informed(s, n, rev, version)) && Shapes(c, Informed(s, n, rev, version))
  {
    var t := Informed(s, n, rev, version);
    assert t.actions == s.actions && t.cache == s.cache[n := rev];
    forall m ensures GrowsAt(s, t, m) {
    }
    assert forall m :: Latest(t, m) == Latest(s, m);
  }

  /** Same histories, same cache, same number of channels and workers. */
  lemma SameDataGrows(c: Config, s: State, t: State)
    requires Shapes(c, s) && t.actions == s.actions && t.cache == s.cache
    requires |t.channels| == |s.channels| && |t.workers| == |s.workers|
    ensures Grows(s, t) && Shapes(c, t)
  {
    forall n ensures GrowsAt(s, t, n) {
    }
    assert forall n :: Latest(t, n) == Latest(s, n);
  }

  lemma InformerGrows(c: Config, s: State, step: InformerStep)
    requires Shapes(c, s) && InformerEnabled(c, s, step)
    ensures Grows(s, ApplyInformer(c, s, step)) && Shapes(c, ApplyInformer(c, s, step))
  {
    match step
    case Inform(n, rev, version) => InformGrows(c, s, n, rev, version);
    case Dispatch => SameDataGrows(c, s, Dispatched(s));
    case Send => SameDataGrows(c, s, ApplyInformer(c, s, step));
  }

  lemma PatchGrows(c: Config, s: State, k: nat, ok: bool)
    requires Shapes(c, s) && AtStage(s, k) && s.workers[k].Patching?
    ensures Grows(s, PatchedBy(s, k, ok)) && Shapes(c, PatchedBy(s, k, ok))
  {
    var n := s.workers[k].update.name;
    var m := SetWorker(s, k, Idle);
    SameDataGrows(c, s, m);
    if ok && Exists(s, n) {
      StoreGrows(c, m, n, Version(s, n, Latest(s, n)).(labelled := true));
      GrowsOn(s, m, PatchedBy(s, k, ok));
    }
  }

  lemma GrowsOn(s: State, m: State, t: State)
    requires m.actions == s.actions && m.cache == s.cache && Grows(m, t)
    ensures Grows(s, t)
  {
    forall n ensures GrowsAt(s, t, n) {
      assert GrowsAt(m, t, n);
    }
  }

  /** Only worker k moved, and it kept to its action. */
  predicate OnlyWorker(s: State, t: State, k: nat) {
    && t.handlers == s.handlers && t.sending == s.sending && t.channels == s.channels && t.cache == s.cache
    && k < |s.workers| && |t.workers| == |s.workers| && t.workers == s.workers[k := t.workers[k]]
    && (NameOf(t.workers[k]).Some? ==> NameOf(t.workers[k]) == NameOf(s.workers[k]))
  }

  predicate SameCounts(s: State, t: State) {
    t.marks == s.marks && t.cache == s.cache && t.handled == s.handled && t.finished == s.finished
  }

  predicate IsLate(step: WorkerStep) {
    step.Notify? || step.Record? || step.UpdateStatus? || step.Patch?
  }

  lemma UnmarkFrame(s: State, k: nat)
    requires AtStage(s, k) && s.workers[k].Popped?
    ensures OnlyWorker(s, UnmarkedBy(s, k), k) && UnmarkedBy(s, k).actions == s.actions
  {
  }

  lemma ReadFrame(s: State, k: nat)
    requires AtStage(s, k) && s.workers[k].Unmarked?
    requires HasVersion(s, s.workers[k].event.name, Count(s.cache, s.workers[k].event.name))
    ensures OnlyWorker(s, ReadBy(s, k), k) && ReadBy(s, k).actions == s.actions
  {
  }

  lemma NotifyFrame(c: Config, s: State, k: nat)
    requires StageVersions(s, k) && s.workers[k].Ready?
    ensures OnlyWorker(s, NotifiedBy(c, s, k), k) && NotifiedBy(c, s, k).actions == s.actions
    ensures SameCounts(s, NotifiedBy(c, s, k))
  {
  }

  lemma RecordFrame(c: Config, s: State, k: nat, ok: bool)
    requires AtStage(s, k) && s.workers[k].Notified?
    ensures OnlyWorker(s, RecordedBy(c, s, k, ok), k) && RecordedBy(c, s, k, ok).actions == s.actions
    ensures SameCounts(s, RecordedBy(c, s, k, ok))
  {
  }

  lemma UpdateFrame(s: State, k: nat, ok: bool)
    requires StageVersions(s, k) && s.workers[k].Noted?
    ensures OnlyWorker(s, UpdatedBy(s, k, ok), k) && UpdatedBy(s, k, ok).actions == s.actions
    ensures SameCounts(s, UpdatedBy(s, k, ok))
  {
  }

  lemma PatchFrame(s: State, k: nat, ok: bool)
    requires AtStage(s, k) && s.workers[k].Patching?
    ensures OnlyWorker(s, PatchedBy(s, k, ok), k) && SameCounts(s, PatchedBy(s, k, ok))
  {
  }

  lemma WorkerFrame(c: Config, s: State, k: nat, step: WorkerStep)
    requires WorkerEnabled(s, k, step) && !step.Pop?
    ensures OnlyWorker(s, ApplyWorker(c, s, k, step), k)
    ensures !step.Patch? ==> ApplyWorker(c, s, k, step).actions == s.actions
    ensures IsLate(step) ==> SameCounts(s, ApplyWorker(c, s, k, step))
  {
    hide SameCounts, OnlyWorker, UnmarkedBy, ReadBy, NotifiedBy, RecordedBy, UpdatedBy, PatchedBy;
    match step
    case Unmark => UnmarkFrame(s, k);
    case Read => ReadFrame(s, k);
    case Notify => NotifyFrame(c, s, k);
    case Record(ok) => RecordFrame(c, s, k, ok);
    case UpdateStatus(ok) => UpdateFrame(s, k, ok);
    case Patch(ok) => PatchFrame(s, k, ok);
  }

  lemma WorkerGrows(c: Config, s: State, k: nat, step: WorkerStep)
    requires Shapes(c, s) && WorkerEnabled(s, k, step)
    ensures Grows(s, ApplyWorker(c, s, k, step)) && Shapes(c, ApplyWorker(c, s, k, step))
  {
    match step
    case Pop => SameDataGrows(c, s, ApplyWorker(c, s, k, Pop));
    case Patch(ok) => PatchGrows(c, s, k, ok);
    case _ =>
      WorkerFrame(c, s, k, step);
      hide Shapes, Grows, ApplyWorker;
      SameDataGrows(c, s, ApplyWorker(c, s, k, step));
  }

  lemma StepGrows(c: Config, s: State, step: Step)
    requires Shapes(c, s) && Enabled(c, s, step)
    ensures Grows(s, Apply(c, s, step)) && Shapes(c, Apply(c, s, step))
  {
    match step
    case Api(a) => ApiGrows(c, s, a);
    case Informer(i) => InformerGrows(c, s, i);
    case Worker(k, w) => WorkerGrows(c, s, k, w);
    case Watch(id, w) => SameDataGrows(c, s, ApplyWatch(s, id, w));
  }

  lemma EventsStayOk(s: State, t: State, events: seq<Event>)
    requires Grows(s, t) && AllOk(s, events)
    ensures AllOk(t, events)
  {
    forall i | 0 <= i < |events| ensures EventOk(t, events[i]) {
      EventStaysOk(s, t, events[i]);
    }
  }

  lemma HandlersStayOk(s: State, t: State)
    requires Grows(s, t) && HandlersOk(s)
    requires t.handlers == s.handlers && t.sending == s.sending
    ensures HandlersOk(t)
  {
    EventsStayOk(s, t, s.handlers);
    if s.sending.Some? {
      EventStaysOk(s, t, s.sending.value);
    }
  }

  lemma ShardsStayOk(c: Config, s: State, t: State)
    requires Valid(c) && Grows(s, t) && ShardsOk(c, s)
    requires t.channels == s.channels && t.workers == s.workers
    ensures ShardsOk(c, t)
  {
    forall k | 0 <= k < |t.channels| ensures AllOk(t, t.channels[k]) {
      EventsStayOk(s, t, s.channels[k]);
    }
    forall k | 0 <= k < |t.workers| ensures StageOk(t, t.workers[k]) {
      StageStaysOk(s, t, s.workers[k]);
    }
  }

  lemma SameQueuesSound(c: Config, s: State, t: State)
    requires Sound(c, s) && Grows(s, t) && Shapes(c, t)
    requires t.handlers == s.handlers && t.sending == s.sending && t.channels == s.channels && t.workers == s.workers
    ensures Sound(c, t)
  {
    HandlersStayOk(s, t);
    ShardsStayOk(c, s, t);
  }

  lemma OnlyTheLastIsDead(c: Config, s: State, n: Name, rev: nat)
    requires Shapes(c, s) && HasVersion(s, n, rev) && !Version(s, n, rev).live
    ensures rev == Latest(s, n)
  {
    forall r | 0 < r < Latest(s, n) ensures Version(s, n, r).live {
      HistoryAt(s.actions[n].versions, r - 1, r);
    }
  }

  lemma HistoryAt(vs: seq<Object>, i: nat, j: nat)
    requires GoodHistory(vs) && i < j < |vs|
    ensures vs[i].live && (vs[i].labelled ==> vs[j].labelled) && (Terminal(vs[i].phase) ==> vs[j].phase == vs[i].phase)
  {
  }

  lemma DeletedEventOk(c: Config, s: State, n: Name, rev: nat, version: nat)
    requires Shapes(c, s) && InformerEnabled(c, s, Inform(n, rev, version))
    ensures
      var t := Informed(s, n, rev, version);
      t.handlers == s.handlers
      || exists e :: t.handlers == s.handlers + [e] && e.name == n && EventOk(t, e)
                     && (e.kind.Deleted? || Version(s, n, rev).live)
  {
    var t := Informed(s, n, rev, version);
    assert t.actions == s.actions && t.cache == s.cache[n := rev];
    if !Version(s, n, rev).live {
      OnlyTheLastIsDead(c, s, n, rev);
    }
    if t.handlers != s.handlers {
      var e := t.handlers[|s.handlers|];
      assert EventOk(t, e);
    }
  }

  lemma InformSound(c: Config, s: State, n: Name, rev: nat, version: nat)
    requires Sound(c, s) && InformerEnabled(c, s, Inform(n, rev, version))
    ensures Sound(c, Informed(s, n, rev, version))
  {
    var t := Informed(s, n, rev, version);
    InformGrows(c, s, n, rev, version);
    DeletedEventOk(c, s, n, rev, version);
    hide Grows, EventOk, Informed, StageOk, Shapes;
    EventsStayOk(s, t, s.handlers);
    if s.sending.Some? {
      EventStaysOk(s, t, s.sending.value);
    }
    ShardsStayOk(c, s, t);
  }

  lemma DispatchSound(c: Config, s: State)
    requires Sound(c, s) && InformerEnabled(c, s, Dispatch)
    ensures Sound(c, Dispatched(s))
  {
    var t := Dispatched(s);
    SameDataGrows(c, s, t);
    hide Grows, EventOk, StageOk, Shapes, HasVersion;
    ShardsStayOk(c, s, t);
    EventsStayOk(s, t, s.handlers);
  }

  lemma SendSound(c: Config, s: State)
    requires Sound(c, s) && InformerEnabled(c, s, Send)
    ensures Sound(c, ApplyInformer(c, s, Send))
  {
    var t := ApplyInformer(c, s, Send);
    SameDataGrows(c, s, t);
    hide Grows, EventOk, StageOk, Shapes;
    EventsStayOk(s, t, s.handlers);
    EventStaysOk(s, t, s.sending.value);
    ShardsStayOk(c, s, t.(channels := s.channels));
    SameDataOk(s, t);
  }

  /** Being sound depends on the histories and the cache only. */
  lemma SameDataOk(s: State, t: State)
    requires t.actions == s.actions && t.cache == s.cache
    ensures forall e :: EventOk(t, e) == EventOk(s, e)
    ensures forall stage :: StageOk(t, stage) == StageOk(s, stage)
  {
  }

  lemma PopSound(c: Config, s: State, k: nat)
    requires Sound(c, s) && WorkerEnabled(s, k, Pop)
    ensures Sound(c, ApplyWorker(c, s, k, Pop))
  {
    var t := ApplyWorker(c, s, k, Pop);
    SameDataGrows(c, s, t);
    SameDataOk(s, t);
    var e := s.channels[k][0];
    assert StageOk(s, Popped(e));
    hide Grows, EventOk, StageOk, Shapes;
  }

  lemma StageSound(c: Config, s: State, k: nat, step: WorkerStep)
    requires Sound(c, s) && WorkerEnabled(s, k, step) && !step.Pop?
    ensures Sound(c, ApplyWorker(c, s, k, step))
  {
    var t := ApplyWorker(c, s, k, step);
    WorkerGrows(c, s, k, step);
    WorkerFrame(c, s, k, step);
    NextStage(c, s, k, step);
    WorkerMovedSound(c, s, t, k);
  }

  lemma WorkerMovedSound(c: Config, s: State, t: State, k: nat)
    requires Sound(c, s) && Grows(s, t) && Shapes(c, t) && OnlyWorker(s, t, k) && StageOk(t, t.workers[k])
    ensures Sound(c, t)
  {
    hide Grows, StageOk, Shapes;
    HandlersStayOk(s, t);
    forall i | 0 <= i < |t.channels| ensures AllOk(t, t.channels[i]) {
      EventsStayOk(s, t, s.channels[i]);
    }
    forall i | 0 <= i < |t.workers| && i != k ensures StageOk(t, t.workers[i]) {
      StageStaysOk(s, t, s.workers[i]);
    }
  }

  /** The new stage of worker k is as sound as the old one. */
  lemma NextStage(c: Config, s: State, k: nat, step: WorkerStep)
    requires WorkerEnabled(s, k, step) && !step.Pop? && StageOk(s, s.workers[k])
    ensures var t := ApplyWorker(c, s, k, step); k < |t.workers| && StageOk(t, t.workers[k])
  {
    var t := ApplyWorker(c, s, k, step);
    if step.Patch? {
      assert t.workers[k] == Idle;
    } else {
      WorkerFrame(c, s, k, step);
      SameDataOk(s, t);
      StageSteps(c, s, k, step);
    }
  }

  lemma StageSteps(c: Config, s: State, k: nat, step: WorkerStep)
    requires WorkerEnabled(s, k, step) && !step.Pop? && !step.Patch? && StageOk(s, s.workers[k])
    ensures var t := ApplyWorker(c, s, k, step); k < |t.workers| && StageOk(s, t.workers[k])
  {
    match step
    case Unmark => UnmarkSteps(s, k);
    case Read =>
    case Notify =>
    case Record(_) =>
    case UpdateStatus(_) =>
  }

  lemma UnmarkSteps(s: State, k: nat)
    requires WorkerEnabled(s, k, Unmark) && StageOk(s, s.workers[k])
    ensures StageOk(s, UnmarkedBy(s, k).workers[k])
  {
    var e := s.workers[k].event;
    if e.kind.Deleted? {
      assert UpdateOk(s, Update(e.name, Deleted, e.version, Latest(s, e.name)));
    }
  }

  lemma StepSound(c: Config, s: State, step: Step)
    requires Sound(c, s) && Enabled(c, s, step)
    ensures Sound(c, Apply(c, s, step))
  {
    var t := Apply(c, s, step);
    StepGrows(c, s, step);
    hide Grows, Shapes, HandlersOk, ShardsOk;
    match step
    case Api(a) => ApiKeepsQueues(s, a); SameQueuesSound(c, s, t);
    case Informer(Inform(n, rev, version)) => InformSound(c, s, n, rev, version);
    case Informer(Dispatch) => DispatchSound(c, s);
    case Informer(Send) => SendSound(c, s);
    case Worker(k, w) =>
      if w.Pop? {
        PopSound(c, s, k);
      } else {
        StageSound(c, s, k, w);
      }
    case Watch(id, w) => SameQueuesSound(c, s, t);
  }

  lemma ApiKeepsQueues(s: State, step: ApiStep)
    requires ApiEnabled(s, step)
    ensures ApplyApi(s, step) == s.(actions := ApplyApi(s, step).actions)
  {
  }
}
