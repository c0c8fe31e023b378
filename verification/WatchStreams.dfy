/** What a watch stream has sent when the pipeline comes to rest. */
module WatchStreams {
  import opened Base
  import opened Phases
  import opened WatchPipeline
  import opened NoLostUpdates
  import opened PipelineHistories
  import opened TerminalLabels

  /** The last message about an action. */
  function LastMessage(messages: seq<Message>, n: Name): Option<Message> {
    if messages == [] then None
    else
      var last := messages[|messages| - 1];
      if last.name == n then Some(last) else LastMessage(messages[..|messages| - 1], n)
  }

  lemma {:induction false} LastOfConcat(a: seq<Message>, b: seq<Message>, n: Name)
    ensures LastMessage(a + b, n) == if LastMessage(b, n).Some? then LastMessage(b, n) else LastMessage(a, n)
  {
    if b == [] {
      assert a + b == a;
    } else {
      var front := b[..|b| - 1];
      assert (a + b)[..|a + b| - 1] == a + front;
      LastOfConcat(a, front, n);
    }
  }

  lemma {:induction false} LastIsThere(messages: seq<Message>, n: Name)
    ensures
      var last := LastMessage(messages, n);
      && (last.Some? ==> last.value in messages && last.value.name == n)
      && (last.None? ==> forall m :: m in messages ==> m.name != n)
  {
    if messages != [] {
      LastIsThere(messages[..|messages| - 1], n);
      assert messages == messages[..|messages| - 1] + [messages[|messages| - 1]];
    }
  }

  /** A message tells the phase of the version it stands for; a deletion is told as an abort, or as the final phase. */
  predicate MessageOk(s: State, m: Message) {
    && HasVersion(s, m.name, m.rev)
    && var o := Version(s, m.name, m.rev);
       if o.live then m.phase == o.phase else m.phase == Aborted || (Terminal(o.phase) && m.phase == o.phase)
  }

  function All(stream: Stream): seq<Message> {
    stream.sent + stream.queue
  }

  ghost predicate MessagesOk(s: State, stream: Stream) {
    forall m | m in All(stream) :: MessageOk(s, m)
  }

  predicate IsChild(s: State, stream: Stream, n: Name) {
    Exists(s, n) && s.actions[n].scope == stream.scope
  }

  predicate ReadyFor(stage: Stage, n: Name) {
    stage.Ready? && stage.update.name == n
  }

  predicate InScope(s: State, stream: Stream, n: Name) {
    n in s.actions && s.actions[n].scope == stream.scope
  }

  /** The last message about a child is no older than the last notification of it, and a live child that was ever
      notified has one. */
  predicate Follows(s: State, stream: Stream, n: Name) {
    InScope(s, stream, n) && !stream.lossy ==>
      var last := LastMessage(All(stream), n);
      if stream.listed then
        if last.Some? then last.value.rev >= Count(s.notified, n) else Exists(s, n) ==> Count(s.notified, n) == 0
      else last.Some? ==> last.value.rev == Count(s.notified, n)
  }

  /** Once its deletion was handled, an action is notified at its last version, if it ever was. */
  predicate FinishedFact(c: Config, s: State, n: Name)
    requires Valid(c)
  {
    n in s.finished ==>
      && Gone(s, n)
      && (ReadyFor(WorkerOf(c, s, n), n) ==> WorkerOf(c, s, n).update.rev == Latest(s, n))
      && (ReadyFor(WorkerOf(c, s, n), n) || Count(s.notified, n) == 0 || Count(s.notified, n) == Latest(s, n))
  }

  /** A live action is notified at the version read last, unless its worker is just about to do it. */
  predicate NotifiedFact(c: Config, s: State, n: Name)
    requires Valid(c)
  {
    Exists(s, n) ==>
      if ReadyFor(WorkerOf(c, s, n), n)
      then WorkerOf(c, s, n).update.rev == Count(s.handled, n)
      else Count(s.notified, n) == Count(s.handled, n)
  }

  ghost predicate StreamFacts(s: State) {
    forall id | id in s.streams ::
      && MessagesOk(s, s.streams[id])
      && (!s.streams[id].listed ==> s.streams[id].sent == [])
      && forall n :: Follows(s, s.streams[id], n)
  }

  ghost predicate StreamInv(c: Config, s: State) {
    && LabelInv(c, s) && StreamFacts(s)
    && forall n :: NotifiedFact(c, s, n) && FinishedFact(c, s, n) && Count(s.notified, n) <= Count(s.cache, n)
  }

  lemma MessageStaysOk(s: State, t: State, m: Message)
    requires MessageOk(s, m) && GrowsAt(s, t, m.name)
    ensures MessageOk(t, m)
  {
  }

  /** Streams and notifications as before; the histories grow, and new actions were never notified. */
  lemma StreamsStay(c: Config, s: State, t: State)
    requires StreamFacts(s) && Extends(c, s, t) && t.streams == s.streams && t.notified == s.notified && Known(s)
    requires forall n | n in s.actions :: t.actions[n].scope == s.actions[n].scope
    ensures StreamFacts(t)
  {
    forall id | id in t.streams
      ensures MessagesOk(t, t.streams[id]) && forall n :: Follows(t, t.streams[id], n)
    {
      var stream := s.streams[id];
      forall m | m in All(stream) ensures MessageOk(t, m) {
        assert MessageOk(s, m) && GrowsAt(s, t, m.name);
      }
      forall n ensures Follows(t, stream, n) {
        FollowsStays(c, s, t, stream, n);
      }
    }
  }

  lemma FollowsStays(c: Config, s: State, t: State, stream: Stream, n: Name)
    requires MessagesOk(s, stream) && Extends(c, s, t) && t.notified == s.notified && Known(s) && Follows(s, stream, n)
    requires n in s.actions ==> t.actions[n].scope == s.actions[n].scope
    ensures Follows(t, stream, n)
  {
    assert GrowsAt(s, t, n);
    if n !in s.actions {
      LastIsThere(All(stream), n);
    } else if Exists(t, n) {
      StillLive(c, s, t, n);
    }
  }

  lemma StillLive(c: Config, s: State, t: State, n: Name)
    requires Extends(c, s, t) && n in s.actions && Exists(t, n)
    ensures Exists(s, n)
  {
    assert GrowsAt(s, t, n);
    if Latest(s, n) < Latest(t, n) {
      HistoryAt(t.actions[n].versions, Latest(s, n) - 1, Latest(t, n) - 1);
    }
  }

  lemma ApiScopes(s: State, step: ApiStep, n: Name)
    requires ApiEnabled(s, step) && n in s.actions
    ensures n in ApplyApi(s, step).actions && ApplyApi(s, step).actions[n].scope == s.actions[n].scope
  {
  }

  lemma PatchScopes(s: State, k: nat, ok: bool, n: Name)
    requires AtStage(s, k) && s.workers[k].Patching? && n in s.actions
    ensures n in PatchedBy(s, k, ok).actions && PatchedBy(s, k, ok).actions[n].scope == s.actions[n].scope
  {
  }

  lemma SameExtends(c: Config, s: State, t: State)
    requires Shapes(c, s) && t.actions == s.actions && t.cache == s.cache && Shapes(c, t)
    ensures Extends(c, s, t)
  {
    forall n ensures GrowsAt(s, t, n) {
    }
  }

  lemma LastOfOneMore(messages: seq<Message>, m: Message, n: Name)
    ensures LastMessage(messages + [m], n) == if m.name == n then Some(m) else LastMessage(messages, n)
  {
    assert (messages + [m])[..|messages|] == messages;
  }

  lemma OneMoreFollows(s: State, t: State, stream: Stream, m: Message, n: Name)
    requires t.actions == s.actions && t.notified == s.notified[m.name := m.rev] && Follows(s, stream, n)
    ensures Follows(t, stream.(queue := stream.queue + [m]), n)
  {
    var after := stream.(queue := stream.queue + [m]);
    assert All(after) == All(stream) + [m];
    LastOfOneMore(All(stream), m, n);
    hide LastMessage, All;
  }

  /** notifySubscribers on one stream keeps what it follows, and adds the news. */
  lemma OfferFollows(c: Config, s: State, t: State, stream: Stream, u: Update, n: Name)
    requires u.name in s.actions && t.actions == s.actions && t.notified == s.notified[u.name := u.rev]
    requires Follows(s, stream, n)
    ensures Follows(t, Offer(c, stream, s.actions[u.name].scope, Message(u.name, u.rev, UpdatePhaseOf(s, u))), n)
  {
    var m := Message(u.name, u.rev, UpdatePhaseOf(s, u));
    OneMoreFollows(s, t, stream, m, n);
    hide LastMessage, All, SubscriberKey, UpdatePhaseOf;
    if SubscriberKey(stream.scope) != SubscriberKey(s.actions[u.name].scope) {
      assert InScope(s, stream, n) ==> n != u.name;
    } else if |stream.queue| < c.bufferSize {
      hide Follows;
    }
  }

  function UpdatePhaseOf(s: State, u: Update): Phase {
    if HasVersion(s, u.name, u.version) then UpdatePhase(s, u) else Unspecified
  }

  lemma OfferMessages(c: Config, s: State, t: State, stream: Stream, scope: Scope, m: Message)
    requires MessagesOk(s, stream) && MessageOk(s, m) && t.actions == s.actions
    ensures MessagesOk(t, Offer(c, stream, scope, m))
    ensures Offer(c, stream, scope, m).listed == stream.listed && Offer(c, stream, scope, m).sent == stream.sent
  {
    var after := Offer(c, stream, scope, m);
    forall x | x in All(after) ensures MessageOk(t, x) {
      assert x in All(stream) || x == m;
    }
  }

  lemma UpdateMessageOk(c: Config, s: State, u: Update)
    requires Shapes(c, s) && UpdateOk(s, u)
    ensures MessageOk(s, Message(u.name, u.rev, UpdatePhase(s, u)))
  {
    CacheInHistory(c, s, u.name);
    if Terminal(Version(s, u.name, u.version).phase) {
      PhaseStays(c, s, u.name, u.version, u.rev);
    }
  }

  lemma NotifyStreams(c: Config, s: State, k: nat)
    requires StreamInv(c, s) && WorkerEnabled(s, k, Notify)
    ensures StreamFacts(NotifiedBy(c, s, k))
  {
    var t, u := NotifiedBy(c, s, k), s.workers[k].update;
    assert WorkerOk(c, s, k, s.workers[k]) && UpdateOk(s, u);
    var m := Message(u.name, u.rev, UpdatePhase(s, u));
    UpdateMessageOk(c, s, u);
    forall id | id in t.streams
      ensures MessagesOk(t, t.streams[id]) && (forall n :: Follows(t, t.streams[id], n))
      ensures !t.streams[id].listed ==> t.streams[id].sent == []
    {
      var stream := s.streams[id];
      assert t.streams[id] == Offer(c, stream, s.actions[u.name].scope, m);
      OfferMessages(c, s, t, stream, s.actions[u.name].scope, m);
      forall n ensures Follows(t, t.streams[id], n) {
        OfferFollows(c, s, t, stream, u, n);
      }
    }
  }

  /** The snapshot brings every live child up to date; later queued messages stand for the last notification. */
  lemma ListFollows(c: Config, s: State, stream: Stream, snapshot: seq<Message>, n: Name)
    requires IsSnapshot(s, stream.scope, snapshot) && !stream.listed && stream.sent == [] && Follows(s, stream, n)
    requires Count(s.notified, n) <= Latest(s, n)
    ensures Follows(s, stream.(listed := true, sent := snapshot), n)
  {
    assert All(stream) == stream.queue;
    LastOfConcat(snapshot, stream.queue, n);
    LastIsThere(snapshot, n);
    SnapshotRevs(s, stream.scope, snapshot);
    if IsChild(s, stream, n) {
      assert Message(n, Latest(s, n), Version(s, n, Latest(s, n)).phase) in snapshot;
    }
    hide LastMessage;
  }

  lemma SnapshotRevs(s: State, scope: Scope, snapshot: seq<Message>)
    requires IsSnapshot(s, scope, snapshot)
    ensures forall m :: m in snapshot ==> m.rev == Latest(s, m.name) && MessageOk(s, m)
  {
    forall m | m in snapshot ensures m.rev == Latest(s, m.name) && MessageOk(s, m) {
      var i :| 0 <= i < |snapshot| && snapshot[i] == m;
      assert IsListed(s, scope, snapshot[i]);
    }
  }

  lemma WatchStreamsStep(c: Config, s: State, id: nat, step: WatchStep)
    requires StreamInv(c, s) && WatchEnabled(s, id, step)
    ensures StreamFacts(ApplyWatch(s, id, step))
  {
    var t := ApplyWatch(s, id, step);
    assert t == s.(streams := t.streams);
    forall i | i in t.streams
      ensures MessagesOk(t, t.streams[i]) && (!t.streams[i].listed ==> t.streams[i].sent == [])
      ensures forall n :: Follows(t, t.streams[i], n)
    {
      OneStream(c, s, id, step, i);
      hide ApplyWatch, MessagesOk, Follows;
      SameFollows(s, t, t.streams[i]);
    }
  }

  /** What a stream follows depends on the histories and the notifications. */
  lemma SameFollows(s: State, t: State, stream: Stream)
    requires t.actions == s.actions && t.notified == s.notified
    ensures MessagesOk(t, stream) == MessagesOk(s, stream)
    ensures forall n :: Follows(t, stream, n) == Follows(s, stream, n)
  {
  }

  lemma OneStream(c: Config, s: State, id: nat, step: WatchStep, i: nat)
    requires StreamInv(c, s) && WatchEnabled(s, id, step) && i in ApplyWatch(s, id, step).streams
    ensures
      var stream := ApplyWatch(s, id, step).streams[i];
      && MessagesOk(s, stream) && (!stream.listed ==> stream.sent == []) && forall n :: Follows(s, stream, n)
  {
    var stream := ApplyWatch(s, id, step).streams[i];
    if i == id {
      match step
      case Subscribe(scope) => assert All(stream) == [];
      case List(snapshot) =>
        SnapshotRevs(s, stream.scope, snapshot);
        forall n ensures Follows(s, stream, n) {
          assert Count(s.notified, n) <= Count(s.cache, n) && NotifiedFact(c, s, n) && FinishedFact(c, s, n);
          CacheInHistory(c, s, n);
          ListFollows(c, s, s.streams[id], snapshot, n);
        }
      case Deliver =>
        assert All(stream) == All(s.streams[id]);
        forall n ensures Follows(s, stream, n) {
          assert Follows(s, s.streams[id], n);
        }
    }
  }

  /** Every step but Notify and the watchers' own leaves streams and notifications alone. */
  predicate StreamsUntouched(s: State, t: State) {
    t.streams == s.streams && t.notified == s.notified
  }

  lemma WorkerUntouched(c: Config, s: State, k: nat, step: WorkerStep)
    requires WorkerEnabled(s, k, step) && !step.Notify?
    ensures StreamsUntouched(s, ApplyWorker(c, s, k, step))
  {
    match step
    case Pop =>
    case Unmark =>
    case Read =>
    case Record(ok) =>
    case UpdateStatus(ok) =>
    case Patch(ok) => assert PatchedBy(s, k, ok).notified == s.notified;
  }

  lemma InformerUntouched(c: Config, s: State, step: InformerStep)
    requires InformerEnabled(c, s, step)
    ensures
      var t := ApplyInformer(c, s, step);
      StreamsUntouched(s, t) && t.actions == s.actions && t.workers == s.workers && t.handled == s.handled
  {
  }

  lemma WorkerExtends(c: Config, s: State, k: nat, step: WorkerStep)
    requires Shapes(c, s) && WorkerEnabled(s, k, step)
    ensures Extends(c, s, ApplyWorker(c, s, k, step))
    ensures forall n | n in s.actions :: ApplyWorker(c, s, k, step).actions[n].scope == s.actions[n].scope
  {
    WorkerGrows(c, s, k, step);
    if step.Patch? {
      PatchExtends(c, s, k, step.ok);
      forall n | n in s.actions ensures ApplyWorker(c, s, k, step).actions[n].scope == s.actions[n].scope {
        PatchScopes(s, k, step.ok, n);
      }
    } else if step.Pop? {
    } else {
      WorkerFrame(c, s, k, step);
      hide ApplyWorker, Shapes, Grows;
    }
  }

  lemma StreamFactsStep(c: Config, s: State, step: Step)
    requires StreamInv(c, s) && Enabled(c, s, step)
    ensures StreamFacts(Apply(c, s, step))
  {
    var t := Apply(c, s, step);
    hide LabelInv, StreamFacts, NotifiedFact, Extends;
    match step
    case Api(a) =>
      ApiStreams(c, s, a);
    case Informer(i) =>
      InformerStreams(c, s, i);
    case Worker(k, w) =>
      if w.Notify? {
        NotifyStreams(c, s, k);
      } else {
        WorkerStreams(c, s, k, w);
      }
    case Watch(id, w) => WatchStreamsStep(c, s, id, w);
  }

  lemma ApiStreams(c: Config, s: State, step: ApiStep)
    requires StreamInv(c, s) && ApiEnabled(s, step)
    ensures StreamFacts(ApplyApi(s, step))
  {
    ApiExtends(c, s, step);
    ApiKeepsQueues(s, step);
    forall n | n in s.actions ensures n in ApplyApi(s, step).actions && ApplyApi(s, step).actions[n].scope == s.actions[n].scope {
      ApiScopes(s, step, n);
    }
    hide ApplyApi, StreamFacts, Extends;
    StreamsStay(c, s, ApplyApi(s, step));
  }

  lemma InformerStreams(c: Config, s: State, step: InformerStep)
    requires StreamInv(c, s) && InformerEnabled(c, s, step)
    ensures StreamFacts(ApplyInformer(c, s, step))
  {
    InformerGrows(c, s, step);
    InformerUntouched(c, s, step);
    hide ApplyInformer, StreamFacts, Grows, Shapes;
    StreamsStay(c, s, ApplyInformer(c, s, step));
  }

  lemma WorkerStreams(c: Config, s: State, k: nat, step: WorkerStep)
    requires StreamInv(c, s) && WorkerEnabled(s, k, step) && !step.Notify?
    ensures StreamFacts(ApplyWorker(c, s, k, step))
  {
    WorkerExtends(c, s, k, step);
    WorkerUntouched(c, s, k, step);
    hide ApplyWorker, StreamFacts, Extends;
    StreamsStay(c, s, ApplyWorker(c, s, k, step));
  }

  // Notifications keep up with reads.

  /** The worker of n and the counts of n are as before, and n was live before or never touched. */
  lemma NotifiedStays(c: Config, s: State, t: State, n: Name)
    requires Extends(c, s, t) && Known(s) && ShardsOk(c, s) && NotifiedFact(c, s, n)
    requires Count(t.notified, n) == Count(s.notified, n) && Count(t.handled, n) == Count(s.handled, n)
    requires WorkerOf(c, t, n) == WorkerOf(c, s, n)
      || (!ReadyFor(WorkerOf(c, s, n), n) && !ReadyFor(WorkerOf(c, t, n), n))
    ensures NotifiedFact(c, t, n)
  {
    if Exists(t, n) && n in s.actions {
      StillLive(c, s, t, n);
    } else if Exists(t, n) && Shard(c, n) < |s.workers| {
      assert WorkerOk(c, s, Shard(c, n), WorkerOf(c, s, n));
    }
  }

  lemma ApiNotified(c: Config, s: State, step: ApiStep, n: Name)
    requires StreamInv(c, s) && ApiEnabled(s, step)
    ensures NotifiedFact(c, ApplyApi(s, step), n)
  {
    ApiExtends(c, s, step);
    ApiKeepsQueues(s, step);
    assert NotifiedFact(c, s, n) && Sound(c, s);
    hide ApplyApi, StreamInv, Extends, NotifiedFact, ShardsOk, Known;
    NotifiedStays(c, s, ApplyApi(s, step), n);
  }

  lemma InformerNotified(c: Config, s: State, step: InformerStep, n: Name)
    requires StreamInv(c, s) && InformerEnabled(c, s, step)
    ensures NotifiedFact(c, ApplyInformer(c, s, step), n)
  {
    InformerUntouched(c, s, step);
    assert NotifiedFact(c, s, n);
    hide ApplyInformer, StreamInv;
  }

  /** A worker step leaves every other action's worker alone. */
  lemma OtherWorkers(c: Config, s: State, t: State, k: nat, n: Name)
    requires Valid(c) && OnlyWorker(s, t, k) && NameOf(s.workers[k]) != Some(n)
    ensures WorkerOf(c, t, n) == WorkerOf(c, s, n)
      || (NameOf(WorkerOf(c, s, n)) != Some(n) && NameOf(WorkerOf(c, t, n)) != Some(n))
  {
  }

  /** NotifiedFact looks only at the worker of n, and there only at a Ready stage. */
  lemma NotifiedElsewhere(c: Config, s: State, t: State, k: nat, n: Name)
    requires Valid(c) && OnlyWorker(s, t, k) && NameOf(s.workers[k]) != Some(n) && NotifiedFact(c, s, n)
    requires t.actions == s.actions
    requires Count(t.notified, n) == Count(s.notified, n) && Count(t.handled, n) == Count(s.handled, n)
    ensures NotifiedFact(c, t, n)
  {
    OtherWorkers(c, s, t, k, n);
    hide OnlyWorker;
  }

  /** The worker of n itself moved. */
  lemma NotifiedHere(c: Config, s: State, t: State, k: nat, n: Name)
    requires Valid(c) && Shard(c, n) == k < |t.workers| && t.actions == s.actions
    requires if ReadyFor(t.workers[k], n) then t.workers[k].update.rev == Count(t.handled, n)
             else Exists(s, n) ==> Count(t.notified, n) == Count(t.handled, n)
    ensures NotifiedFact(c, t, n)
  {
  }

  lemma NotReadyBefore(c: Config, s: State, t: State, n: Name)
    requires Valid(c) && t.actions == s.actions && t.notified == s.notified && t.handled == s.handled
    requires NotifiedFact(c, s, n)
    requires WorkerOf(c, t, n) == WorkerOf(c, s, n) || !(WorkerOf(c, s, n).Ready? || WorkerOf(c, t, n).Ready?)
    ensures NotifiedFact(c, t, n)
  {
  }

  lemma PopNotified(c: Config, s: State, k: nat, n: Name)
    requires StreamInv(c, s) && WorkerEnabled(s, k, Pop)
    ensures NotifiedFact(c, ApplyWorker(c, s, k, Pop), n)
  {
    var t := ApplyWorker(c, s, k, Pop);
    assert NotifiedFact(c, s, n) && Valid(c);
    hide StreamInv, NotifiedFact;
    NotReadyBefore(c, s, t, n);
  }

  lemma UnmarkNotified(c: Config, s: State, k: nat, n: Name)
    requires StreamInv(c, s) && WorkerEnabled(s, k, Unmark)
    ensures NotifiedFact(c, UnmarkedBy(s, k), n)
  {
    var t := UnmarkedBy(s, k);
    assert NotifiedFact(c, s, n) && WorkerOk(c, s, k, s.workers[k]);
    assert t == s.(marks := t.marks, finished := t.finished, workers := s.workers[k := t.workers[k]]);
    assert t.workers[k].Ready? ==> s.workers[k].event.kind.Deleted?;
    UnmarkFrame(s, k);
    hide StreamInv, UnmarkedBy, OnlyWorker;
    if n == s.workers[k].event.name {
      if t.workers[k].Ready? {
        DeletedIsDead(s, s.workers[k].event);
      } else {
        NotifiedHere(c, s, t, k, n);
      }
    } else {
      NotifiedElsewhere(c, s, t, k, n);
    }
  }

  lemma DeletedIsDead(s: State, e: Event)
    requires EventOk(s, e) && e.kind.Deleted?
    ensures !Exists(s, e.name)
  {
  }

  lemma ReadNotified(c: Config, s: State, k: nat, n: Name)
    requires StreamInv(c, s) && WorkerEnabled(s, k, Read)
    ensures NotifiedFact(c, ReadBy(s, k), n)
  {
    var t := ReadBy(s, k);
    assert NotifiedFact(c, s, n) && WorkerOk(c, s, k, s.workers[k]);
    ReadMoves(c, s, k);
    hide StreamInv, ReadBy;
    if n == s.workers[k].event.name {
      NotifiedHere(c, s, t, k, n);
    } else {
      NotifiedElsewhere(c, s, t, k, n);
    }
  }

  lemma NotifyNotified(c: Config, s: State, k: nat, n: Name)
    requires StreamInv(c, s) && WorkerEnabled(s, k, Notify)
    ensures NotifiedFact(c, NotifiedBy(c, s, k), n)
  {
    var t, u := NotifiedBy(c, s, k), s.workers[k].update;
    assert NotifiedFact(c, s, n) && WorkerOk(c, s, k, s.workers[k]);
    NotifyFrame(c, s, k);
    assert t.notified == s.notified[u.name := u.rev] && t.workers[k] == Notified(u);
    hide StreamInv, NotifiedBy;
    if n == u.name {
      NotifiedHere(c, s, t, k, n);
    } else {
      NotifiedElsewhere(c, s, t, k, n);
    }
  }

  /** A worker past its notification moved on: for every action the news is as before. */
  ghost predicate LateMove(c: Config, s: State, t: State, k: nat) {
    && Extends(c, s, t) && StreamsUntouched(s, t) && SameCounts(s, t) && OnlyWorker(s, t, k)
    && !s.workers[k].Ready? && !t.workers[k].Ready?
  }

  lemma LateSteps(c: Config, s: State, k: nat, step: WorkerStep)
    requires Shapes(c, s) && WorkerEnabled(s, k, step) && IsLate(step) && !step.Notify?
    ensures LateMove(c, s, ApplyWorker(c, s, k, step), k)
  {
    hide ApplyWorker, Extends, Shapes;
    WorkerExtends(c, s, k, step);
    WorkerUntouched(c, s, k, step);
    WorkerFrame(c, s, k, step);
    LateStageIsNotReady(c, s, k, step);
  }

  lemma LateMoveKeeps(c: Config, s: State, t: State, k: nat, n: Name)
    requires LateMove(c, s, t, k) && Known(s) && ShardsOk(c, s) && NotifiedFact(c, s, n) && FinishedFact(c, s, n)
    ensures NotifiedFact(c, t, n) && FinishedFact(c, t, n)
  {
    assert GrowsAt(s, t, n);
    hide NotifiedFact, FinishedFact, Extends, Known, ShardsOk, GrowsAt;
    NotifiedStays(c, s, t, n);
    FinishedStays(c, s, t, n);
  }

  lemma LateNotified(c: Config, s: State, k: nat, step: WorkerStep, n: Name)
    requires StreamInv(c, s) && WorkerEnabled(s, k, step) && IsLate(step) && !step.Notify?
    ensures NotifiedFact(c, ApplyWorker(c, s, k, step), n) && FinishedFact(c, ApplyWorker(c, s, k, step), n)
  {
    assert NotifiedFact(c, s, n) && FinishedFact(c, s, n) && Sound(c, s) && Known(s);
    hide StreamInv, ApplyWorker, NotifiedFact, FinishedFact, Shapes, ShardsOk, Known, LateMove, IsLate;
    LateSteps(c, s, k, step);
    LateMoveKeeps(c, s, ApplyWorker(c, s, k, step), k, n);
  }

  lemma LateStageIsNotReady(c: Config, s: State, k: nat, step: WorkerStep)
    requires WorkerEnabled(s, k, step) && IsLate(step) && !step.Notify?
    ensures
      var t := ApplyWorker(c, s, k, step);
      k < |t.workers| && !s.workers[k].Ready? && !t.workers[k].Ready?
  {
    match step
    case Record(ok) => assert RecordedBy(c, s, k, ok).workers[k].Noted?;
    case UpdateStatus(ok) => assert !UpdatedBy(s, k, ok).workers[k].Ready?;
    case Patch(ok) => assert PatchedBy(s, k, ok).workers[k].Idle?;
  }

  lemma NotifiedStep(c: Config, s: State, step: Step, n: Name)
    requires StreamInv(c, s) && Enabled(c, s, step)
    ensures NotifiedFact(c, Apply(c, s, step), n)
  {
    hide StreamInv, NotifiedFact;
    match step
    case Api(a) => ApiNotified(c, s, a, n);
    case Informer(i) => InformerNotified(c, s, i, n);
    case Worker(k, Pop) => PopNotified(c, s, k, n);
    case Worker(k, Unmark) => UnmarkNotified(c, s, k, n);
    case Worker(k, Read) => ReadNotified(c, s, k, n);
    case Worker(k, Notify) => NotifyNotified(c, s, k, n);
    case Worker(k, w) => LateNotified(c, s, k, w, n);
    case Watch(id, w) => WatchNotified(c, s, id, w, n);
  }

  lemma WatchNotified(c: Config, s: State, id: nat, step: WatchStep, n: Name)
    requires StreamInv(c, s) && WatchEnabled(s, id, step)
    ensures NotifiedFact(c, ApplyWatch(s, id, step), n)
  {
    var t := ApplyWatch(s, id, step);
    assert t == s.(streams := t.streams) && NotifiedFact(c, s, n);
    hide StreamInv, ApplyWatch;
  }

  lemma NotifiedInCache(c: Config, s: State, step: Step, n: Name)
    requires StreamInv(c, s) && Enabled(c, s, step)
    ensures Count(Apply(c, s, step).notified, n) <= Count(Apply(c, s, step).cache, n)
  {
    var t := Apply(c, s, step);
    StepGrows(c, s, step);
    assert GrowsAt(s, t, n);
    assert Count(s.notified, n) <= Count(s.cache, n) && NotifiedFact(c, s, n) && FinishedFact(c, s, n);
    match step
    case Worker(k, w) =>
      if w.Notify? {
        assert WorkerOk(c, s, k, s.workers[k]) && UpdateOk(s, s.workers[k].update);
        hide StreamInv;
      } else {
        WorkerUntouched(c, s, k, w);
        hide StreamInv, ApplyWorker;
      }
    case Api(a) => ApiKeepsQueues(s, a); hide StreamInv, ApplyApi;
    case Informer(i) => InformerUntouched(c, s, i); hide StreamInv, ApplyInformer;
    case Watch(id, w) => hide StreamInv;
  }

  // Deletions, once handled, stay the last news.

  /** The worker of n, if it is Ready for n, and the counts of n are as before. */
  lemma FinishedStays(c: Config, s: State, t: State, n: Name)
    requires Valid(c) && FinishedFact(c, s, n) && GrowsAt(s, t, n)
    requires (n in t.finished ==> n in s.finished) && Count(t.notified, n) == Count(s.notified, n)
    requires WorkerOf(c, t, n) == WorkerOf(c, s, n)
      || (!ReadyFor(WorkerOf(c, s, n), n) && !ReadyFor(WorkerOf(c, t, n), n))
    ensures FinishedFact(c, t, n)
  {
  }

  lemma FinishedElsewhere(c: Config, s: State, t: State, k: nat, n: Name)
    requires Valid(c) && OnlyWorker(s, t, k) && NameOf(s.workers[k]) != Some(n) && FinishedFact(c, s, n)
    requires GrowsAt(s, t, n) && (n in t.finished ==> n in s.finished) && Count(t.notified, n) == Count(s.notified, n)
    ensures FinishedFact(c, t, n)
  {
    OtherWorkers(c, s, t, k, n);
    hide OnlyWorker, GrowsAt, FinishedFact;
    FinishedStays(c, s, t, n);
  }

  /** Whoever is Ready for a deleted action stands for its last version. */
  lemma ReadyForGone(c: Config, s: State, n: Name)
    requires Sound(c, s) && Gone(s, n) && ReadyFor(WorkerOf(c, s, n), n)
    ensures WorkerOf(c, s, n).update.kind.Deleted? ==> WorkerOf(c, s, n).update.rev == Latest(s, n)
  {
    assert WorkerOk(c, s, Shard(c, n), WorkerOf(c, s, n));
  }

  lemma InformFinished(c: Config, s: State, n: Name, rev: nat, version: nat, m: Name)
    requires StreamInv(c, s) && InformerEnabled(c, s, Inform(n, rev, version))
    ensures FinishedFact(c, Informed(s, n, rev, version), m)
  {
    var t := Informed(s, n, rev, version);
    InformGrows(c, s, n, rev, version);
    InformQueues(c, s, n, rev, version);
    InformFinishes(s, n, rev, version);
    assert GrowsAt(s, t, m) && FinishedFact(c, s, m) && Count(s.notified, m) <= Count(s.cache, m);
    if m in t.finished && m !in s.finished {
      OnlyTheLastIsDead(c, s, n, rev);
      if Shard(c, m) < |s.workers| {
        assert WorkerOk(c, s, Shard(c, m), WorkerOf(c, s, m));
      }
      hide Informed, StreamInv, GrowsAt;
    } else {
      hide Informed, StreamInv, GrowsAt, FinishedFact;
      FinishedStays(c, s, t, m);
    }
  }

  lemma InformFinishes(s: State, n: Name, rev: nat, version: nat)
    requires HasVersion(s, n, rev)
    ensures
      var t := Informed(s, n, rev, version);
      t.finished == s.finished
      || (t.finished == s.finished + {n} && Count(s.cache, n) == 0 && !Version(s, n, rev).live)
  {
  }

  lemma InformerFinished(c: Config, s: State, step: InformerStep, n: Name)
    requires StreamInv(c, s) && InformerEnabled(c, s, step) && !step.Inform?
    ensures FinishedFact(c, ApplyInformer(c, s, step), n)
  {
    var t := ApplyInformer(c, s, step);
    InformerGrows(c, s, step);
    InformerUntouched(c, s, step);
    assert GrowsAt(s, t, n) && FinishedFact(c, s, n) && Valid(c);
    assert t.finished == s.finished;
    hide ApplyInformer, StreamInv, Grows, GrowsAt, FinishedFact;
    FinishedStays(c, s, t, n);
  }

  lemma ApiFinished(c: Config, s: State, step: ApiStep, n: Name)
    requires StreamInv(c, s) && ApiEnabled(s, step)
    ensures FinishedFact(c, ApplyApi(s, step), n)
  {
    ApiGrows(c, s, step);
    ApiKeepsQueues(s, step);
    assert GrowsAt(s, ApplyApi(s, step), n) && FinishedFact(c, s, n) && Valid(c);
    hide ApplyApi, StreamInv, Grows, GrowsAt, FinishedFact;
    FinishedStays(c, s, ApplyApi(s, step), n);
  }

  lemma PopFinished(c: Config, s: State, k: nat, n: Name)
    requires StreamInv(c, s) && WorkerEnabled(s, k, Pop)
    ensures FinishedFact(c, ApplyWorker(c, s, k, Pop), n)
  {
    var t := ApplyWorker(c, s, k, Pop);
    WorkerGrows(c, s, k, Pop);
    assert GrowsAt(s, t, n) && FinishedFact(c, s, n) && Valid(c);
    assert t == s.(workers := s.workers[k := t.workers[k]], channels := t.channels);
    hide StreamInv, Grows, GrowsAt, FinishedFact;
    FinishedStays(c, s, t, n);
  }

  lemma UnmarkFinished(c: Config, s: State, k: nat, n: Name)
    requires StreamInv(c, s) && WorkerEnabled(s, k, Unmark)
    ensures FinishedFact(c, UnmarkedBy(s, k), n)
  {
    var t, e := UnmarkedBy(s, k), s.workers[k].event;
    WorkerGrows(c, s, k, Unmark);
    UnmarkFrame(s, k);
    assert WorkerOk(c, s, k, s.workers[k]) && GrowsAt(s, t, n) && FinishedFact(c, s, n);
    assert t == s.(marks := t.marks, finished := t.finished, workers := s.workers[k := t.workers[k]]);
    assert t.finished == if e.kind.Deleted? then s.finished + {e.name} else s.finished;
    assert e.kind.Deleted? ==> t.workers[k].Ready? && t.workers[k].update.rev == Latest(s, e.name);
    assert !e.kind.Deleted? ==> t.workers[k].Unmarked?;
    hide StreamInv, UnmarkedBy, Grows, GrowsAt, OnlyWorker;
    if n != e.name {
      FinishedElsewhere(c, s, t, k, n);
    }
  }

  lemma ReadFinished(c: Config, s: State, k: nat, n: Name)
    requires StreamInv(c, s) && WorkerEnabled(s, k, Read)
    ensures FinishedFact(c, ReadBy(s, k), n)
  {
    var t := ReadBy(s, k);
    WorkerGrows(c, s, k, Read);
    ReadMoves(c, s, k);
    assert WorkerOk(c, s, k, s.workers[k]) && GrowsAt(s, t, n) && FinishedFact(c, s, n);
    hide StreamInv, ReadBy, Grows, GrowsAt;
    if n != s.workers[k].event.name {
      FinishedElsewhere(c, s, t, k, n);
    }
  }

  lemma NotifyFinished(c: Config, s: State, k: nat, n: Name)
    requires StreamInv(c, s) && WorkerEnabled(s, k, Notify)
    ensures FinishedFact(c, NotifiedBy(c, s, k), n)
  {
    var t, u := NotifiedBy(c, s, k), s.workers[k].update;
    WorkerGrows(c, s, k, Notify);
    NotifyFrame(c, s, k);
    assert WorkerOk(c, s, k, s.workers[k]) && GrowsAt(s, t, n) && FinishedFact(c, s, n);
    assert t.notified == s.notified[u.name := u.rev] && t.workers[k] == Notified(u) && t.finished == s.finished;
    hide StreamInv, NotifiedBy, Grows, GrowsAt;
    if n != u.name {
      FinishedElsewhere(c, s, t, k, n);
    }
  }

  lemma WatchFinished(c: Config, s: State, id: nat, step: WatchStep, n: Name)
    requires StreamInv(c, s) && WatchEnabled(s, id, step)
    ensures FinishedFact(c, ApplyWatch(s, id, step), n)
  {
    var t := ApplyWatch(s, id, step);
    assert t == s.(streams := t.streams) && FinishedFact(c, s, n);
    hide StreamInv, ApplyWatch;
  }

  lemma FinishedStep(c: Config, s: State, step: Step, n: Name)
    requires StreamInv(c, s) && Enabled(c, s, step)
    ensures FinishedFact(c, Apply(c, s, step), n)
  {
    hide StreamInv, FinishedFact;
    match step
    case Api(a) => ApiFinished(c, s, a, n);
    case Informer(Inform(m, rev, version)) => InformFinished(c, s, m, rev, version, n);
    case Informer(i) => InformerFinished(c, s, i, n);
    case Worker(k, Pop) => PopFinished(c, s, k, n);
    case Worker(k, Unmark) => UnmarkFinished(c, s, k, n);
    case Worker(k, Read) => ReadFinished(c, s, k, n);
    case Worker(k, Notify) => NotifyFinished(c, s, k, n);
    case Worker(k, w) => LateNotified(c, s, k, w, n);
    case Watch(id, w) => WatchFinished(c, s, id, w, n);
  }

  lemma StreamStep(c: Config, s: State, step: Step)
    requires StreamInv(c, s) && Enabled(c, s, step)
    ensures StreamInv(c, Apply(c, s, step))
  {
    var t := Apply(c, s, step);
    LabelStep(c, s, step);
    StreamFactsStep(c, s, step);
    hide LabelInv, StreamFacts, NotifiedFact, FinishedFact;
    forall n ensures NotifiedFact(c, t, n) && FinishedFact(c, t, n) && Count(t.notified, n) <= Count(t.cache, n) {
      NotifiedStep(c, s, step, n);
      FinishedStep(c, s, step, n);
      NotifiedInCache(c, s, step, n);
    }
  }

  lemma {:induction false} StreamRun(c: Config, run: seq<State>, steps: seq<Step>, i: nat)
    requires Valid(c) && IsRun(c, run, steps) && i < |run|
    ensures StreamInv(c, run[i])
  {
    if i == 0 {
      LabelRun(c, run, steps, 0);
    } else {
      StreamRun(c, run, steps, i - 1);
      StepAt(c, run, steps, i - 1);
      hide StreamInv;
      StreamStep(c, run[i - 1], steps[i - 1]);
    }
  }

  /** Everything stored has reached the cache, and nothing is under way. */
  ghost predicate AtRest(s: State) {
    Quiet(s) && forall n | Exists(s, n) :: Count(s.cache, n) == Latest(s, n)
  }

  /** The stream has sent everything it was given, and was never given too much. */
  predicate Drained(stream: Stream) {
    stream.listed && stream.queue == [] && !stream.lossy
  }

  /** At rest, the last message about every live child carries its final phase. */
  lemma StreamsConverge(c: Config, run: seq<State>, steps: seq<Step>, i: nat, id: nat, n: Name)
    requires Valid(c) && IsRun(c, run, steps) && i < |run| && AtRest(run[i])
    requires id in run[i].streams && Drained(run[i].streams[id]) && IsChild(run[i], run[i].streams[id], n)
    requires !Born(run[i], n)
    ensures
      var last := LastMessage(run[i].streams[id].sent, n);
      last.Some? && last.value.phase == Version(run[i], n, Latest(run[i], n)).phase
  {
    var s := run[i];
    var stream := s.streams[id];
    StreamRun(c, run, steps, i);
    AtRestReadAll(c, s, n);
    assert All(stream) == stream.sent && MessagesOk(s, stream) && Follows(s, stream, n);
    LastIsThere(stream.sent, n);
    FinalMessage(c, s, stream, n);
  }

  /** At rest, the version handled last has the final phase. */
  lemma AtRestReadAll(c: Config, s: State, n: Name)
    requires StreamInv(c, s) && AtRest(s) && Exists(s, n) && !Born(s, n)
    ensures HasVersion(s, n, Count(s.notified, n))
    ensures forall r :: Count(s.notified, n) <= r <= Latest(s, n) ==>
      Version(s, n, r).phase == Version(s, n, Latest(s, n)).phase
  {
    assert Covered(c, s, n) && NotifiedFact(c, s, n) && LabelFact(s, n);
    assert Count(s.notified, n) == Count(s.handled, n);
    if Labelled(s, n) {
      forall r | Count(s.notified, n) <= r <= Latest(s, n)
        ensures Version(s, n, r).phase == Version(s, n, Latest(s, n)).phase
      {
        PhaseStays(c, s, n, Count(s.handled, n), r);
        PhaseStays(c, s, n, Count(s.handled, n), Latest(s, n));
      }
    } else {
      QuietCatchesUp(c, s, n);
    }
  }

  lemma QuietCatchesUp(c: Config, s: State, n: Name)
    requires Valid(c) && Quiet(s) && Covered(c, s, n)
    ensures !Behind(s, n)
  {
  }

  lemma FinalMessage(c: Config, s: State, stream: Stream, n: Name)
    requires Shapes(c, s) && Exists(s, n) && IsChild(s, stream, n) && Follows(s, stream, n) && Drained(stream)
    requires MessagesOk(s, stream) && HasVersion(s, n, Count(s.notified, n))
    requires forall r :: Count(s.notified, n) <= r <= Latest(s, n) ==>
      Version(s, n, r).phase == Version(s, n, Latest(s, n)).phase
    ensures
      var last := LastMessage(stream.sent, n);
      last.Some? && last.value.phase == Version(s, n, Latest(s, n)).phase
  {
    assert All(stream) == stream.sent;
    LastIsThere(stream.sent, n);
    var m := LastMessage(stream.sent, n).value;
    assert MessageOk(s, m);
    if m.rev < Latest(s, n) {
      HistoryAt(s.actions[n].versions, m.rev - 1, Latest(s, n) - 1);
    }
  }

  /** And the last message about a deleted child that was ever notified tells that it is over. */
  lemma StreamsConvergeOnDeletion(c: Config, run: seq<State>, steps: seq<Step>, i: nat, id: nat, n: Name)
    requires Valid(c) && IsRun(c, run, steps) && i < |run| && Quiet(run[i])
    requires id in run[i].streams && Drained(run[i].streams[id]) && InScope(run[i], run[i].streams[id], n)
    requires Gone(run[i], n) && !Labelled(run[i], n) && Count(run[i].notified, n) > 0
    ensures
      var last := LastMessage(run[i].streams[id].sent, n);
      last.Some? ==> last.value.rev == Latest(run[i], n) && Terminal(last.value.phase)
  {
    var s := run[i];
    var stream := s.streams[id];
    StreamRun(c, run, steps, i);
    QuietDeletionsWereHandled(c, run, steps, i, n);
    assert FinishedFact(c, s, n) && All(stream) == stream.sent && MessagesOk(s, stream) && Follows(s, stream, n);
    LastIsThere(stream.sent, n);
    if LastMessage(stream.sent, n).Some? {
      assert MessageOk(s, LastMessage(stream.sent, n).value);
    }
  }

  // Keys.

  predicate Plain(run: string) {
    '/' !in run
  }

  lemma FirstSlash(scope: Scope)
    requires Plain(scope.run)
    ensures
      var key := SubscriberKey(scope);
      && |key| > |scope.run| && key[|scope.run|] == '/' && (forall i :: 0 <= i < |scope.run| ==> key[i] != '/')
      && scope.run == key[..|scope.run|] && scope.parent == key[|scope.run| + 1..]
  {
    forall i | 0 <= i < |scope.run| ensures SubscriberKey(scope)[i] != '/' {
      assert scope.run[i] in scope.run;
    }
  }

  /** Runs whose names have no slash get keys of their own. */
  lemma KeysAreDistinct(a: Scope, b: Scope)
    requires Plain(a.run) && Plain(b.run)
    ensures SubscriberKey(a) == SubscriberKey(b) <==> a == b
  {
    FirstSlash(a);
    FirstSlash(b);
  }

  /** A slash in a run name lets two scopes share a key. */
  lemma SlashesCollide()
    ensures SubscriberKey(Scope("r/a", "b")) == SubscriberKey(Scope("r", "a/b"))
  {
    assert "r/a" + "/" + "b" == "r" + "/" + "a/b";
  }

  /** The run of `long` goes on from the run of `short` with a slash and x, and the parent of `short` begins with x and a
      slash and goes on with the parent of `long`. */
  predicate SharesKey(long: Scope, short: Scope, x: string) {
    long.run == short.run + "/" + x && short.parent == x + "/" + long.parent
  }

  /** Two different scopes share a key exactly if the run and parent of one are the other's, split at another slash. */
  lemma KeysCollideExactly(a: Scope, b: Scope)
    requires a != b
    ensures SubscriberKey(a) == SubscriberKey(b) <==> exists x :: SharesKey(a, b, x) || SharesKey(b, a, x)
  {
    if |a.run| == |b.run| {
      SameLengthRuns(a, b);
    } else if |a.run| > |b.run| {
      LongerRunShares(a, b);
    } else {
      LongerRunShares(b, a);
    }
  }

  lemma SameLengthRuns(a: Scope, b: Scope)
    requires |a.run| == |b.run| && a != b
    ensures SubscriberKey(a) != SubscriberKey(b)
    ensures forall x :: !SharesKey(a, b, x) && !SharesKey(b, a, x)
  {
    assert SubscriberKey(a)[..|a.run|] == a.run && SubscriberKey(b)[..|a.run|] == b.run;
    assert SubscriberKey(a)[|a.run| + 1..] == a.parent && SubscriberKey(b)[|a.run| + 1..] == b.parent;
  }

  lemma LongerRunShares(long: Scope, short: Scope)
    requires |long.run| > |short.run|
    ensures SubscriberKey(long) == SubscriberKey(short) <==> exists x :: SharesKey(long, short, x) || SharesKey(short, long, x)
  {
    var key, n := SubscriberKey(long), |short.run|;
    var x := long.run[n + 1..];
    if key == SubscriberKey(short) {
      assert long.run == key[..|long.run|] && short.run == key[..n] && key[n] == '/' && short.parent == key[n + 1..];
      assert long.run == short.run + "/" + x;
      assert short.parent == x + "/" + long.parent;
      assert SharesKey(long, short, x);
    }
    if y :| SharesKey(long, short, y) || SharesKey(short, long, y) {
      assert long.run == short.run + "/" + y && short.parent == y + "/" + long.parent;
      assert key == short.run + "/" + y + "/" + long.parent == SubscriberKey(short);
    }
  }

  /** With plain run names, a notification of n reaches the channels of its own run and parent only. */
  lemma OffersStayInScope(c: Config, stream: Stream, scope: Scope, m: Message)
    requires Plain(stream.scope.run) && Plain(scope.run)
    ensures Offer(c, stream, scope, m) != stream ==> stream.scope == scope
    ensures stream.scope == scope && !Offer(c, stream, scope, m).lossy ==>
      Offer(c, stream, scope, m).queue == stream.queue + [m]
  {
    KeysAreDistinct(stream.scope, scope);
  }
}
