/** Coalescing loses no update: whatever the cache holds is handled, or something is on its way that will handle it. */
module NoLostUpdates {
  import opened Base
  import opened Phases
  import opened WatchPipeline
  import opened PipelineHistories

  predicate Has(events: seq<Event>, n: Name) {
    exists i :: 0 <= i < |events| && events[i].name == n
  }

  predicate HasDelete(events: seq<Event>, n: Name) {
    exists i :: 0 <= i < |events| && events[i].name == n && events[i].kind.Deleted?
  }

  function Lane(c: Config, s: State, n: Name): seq<Event>
    requires Valid(c)
  {
    if Shard(c, n) < |s.channels| then s.channels[Shard(c, n)] else []
  }

  function WorkerOf(c: Config, s: State, n: Name): Stage
    requires Valid(c)
  {
    if Shard(c, n) < |s.workers| then s.workers[Shard(c, n)] else Idle
  }

  /** An event of the action is being sent, is queued for its worker, or was just taken by it. */
  predicate InTransit(c: Config, s: State, n: Name)
    requires Valid(c)
  {
    || (s.sending.Some? && s.sending.value.name == n)
    || Has(Lane(c, s, n), n)
    || (WorkerOf(c, s, n).Popped? && WorkerOf(c, s, n).event.name == n)
  }

  /** Or its handler call is still to come, or its worker is about to read the cache. */
  predicate Pending(c: Config, s: State, n: Name)
    requires Valid(c)
  {
    || Has(s.handlers, n) || InTransit(c, s, n)
    || (WorkerOf(c, s, n).Unmarked? && WorkerOf(c, s, n).event.name == n)
  }

  predicate PendingDelete(c: Config, s: State, n: Name)
    requires Valid(c)
  {
    || HasDelete(s.handlers, n)
    || (s.sending.Some? && s.sending.value.name == n && s.sending.value.kind.Deleted?)
    || HasDelete(Lane(c, s, n), n)
    || (WorkerOf(c, s, n).Popped? && WorkerOf(c, s, n).event.name == n && WorkerOf(c, s, n).event.kind.Deleted?)
  }

  predicate Wanted(o: Object) {
    o.live && !o.labelled
  }

  /** The cache holds a version that should be handled and was not. */
  predicate Behind(s: State, n: Name) {
    && HasVersion(s, n, Count(s.cache, n)) && Wanted(Version(s, n, Count(s.cache, n)))
    && Count(s.handled, n) < Count(s.cache, n)
  }

  /** An action the informer once showed is gone, and its deletion was not handled. */
  predicate DeletionBehind(s: State, n: Name) {
    Gone(s, n) && !Version(s, n, Latest(s, n)).labelled && n !in s.finished
  }

  predicate MarksOk(c: Config, s: State)
    requires Valid(c)
  {
    forall n | n in s.marks :: InTransit(c, s, n)
  }

  predicate Covered(c: Config, s: State, n: Name)
    requires Valid(c)
  {
    && (Behind(s, n) ==> Pending(c, s, n))
    && (DeletionBehind(s, n) ==> PendingDelete(c, s, n))
    && Count(s.handled, n) <= Count(s.cache, n)
  }

  ghost predicate NothingLost(c: Config, s: State)
    requires Valid(c)
  {
    forall n :: Covered(c, s, n)
  }

  ghost predicate Inv(c: Config, s: State) {
    Sound(c, s) && MarksOk(c, s) && NothingLost(c, s)
  }

  /** As far as action n is concerned, its events are where they were. */
  predicate SamePath(c: Config, s: State, t: State, n: Name)
    requires Valid(c)
  {
    && (Has(s.handlers, n) ==> Has(t.handlers, n)) && (HasDelete(s.handlers, n) ==> HasDelete(t.handlers, n))
    && (s.sending.Some? && s.sending.value.name == n ==> t.sending == s.sending)
    && (Has(Lane(c, s, n), n) ==> Has(Lane(c, t, n), n))
    && (HasDelete(Lane(c, s, n), n) ==> HasDelete(Lane(c, t, n), n))
    && (NameOf(WorkerOf(c, s, n)) == Some(n) && (WorkerOf(c, s, n).Popped? || WorkerOf(c, s, n).Unmarked?)
        ==> WorkerOf(c, t, n) == WorkerOf(c, s, n))
  }

  /** What n needs is decided by its versions, its cache count and its handled count. */
  predicate SameNeeds(s: State, t: State, n: Name) {
    && Versions(s, n) <= Versions(t, n)
    && Count(t.cache, n) == Count(s.cache, n) && Count(t.handled, n) == Count(s.handled, n)
    && (n in s.finished ==> n in t.finished)
    && (Gone(t, n) ==> Gone(s, n) && Versions(t, n) == Versions(s, n))
  }

  lemma StaysCovered(c: Config, s: State, t: State, n: Name)
    requires Valid(c) && Covered(c, s, n) && SamePath(c, s, t, n) && SameNeeds(s, t, n)
    requires Count(s.cache, n) <= Latest(s, n)
    ensures Covered(c, t, n)
  {
    if Behind(t, n) {
      assert Version(t, n, Count(s.cache, n)) == Version(s, n, Count(s.cache, n));
    }
  }

  lemma StaysInTransit(c: Config, s: State, t: State, n: Name)
    requires Valid(c) && InTransit(c, s, n) && SamePath(c, s, t, n)
    ensures InTransit(c, t, n)
  {
  }

  lemma SamePathKeeps(c: Config, s: State, t: State)
    requires Inv(c, s) && t.marks <= s.marks
    requires forall n :: SamePath(c, s, t, n) && SameNeeds(s, t, n)
    ensures MarksOk(c, t) && NothingLost(c, t)
  {
    forall n | n in t.marks ensures InTransit(c, t, n) {
      assert SamePath(c, s, t, n);
      StaysInTransit(c, s, t, n);
    }
    forall n ensures Covered(c, t, n) {
      assert Covered(c, s, n) && SamePath(c, s, t, n) && SameNeeds(s, t, n);
      CacheInHistory(c, s, n);
      StaysCovered(c, s, t, n);
    }
  }

  lemma CacheInHistory(c: Config, s: State, n: Name)
    requires Shapes(c, s)
    ensures Count(s.cache, n) <= Latest(s, n)
  {
  }

  /** A step about action n: every other action keeps its path and its needs. */
  lemma OneActionMoves(c: Config, s: State, t: State, n: Name)
    requires Inv(c, s) && Covered(c, t, n) && t.marks <= s.marks + {n} && (n in t.marks ==> InTransit(c, t, n))
    requires forall m :: m != n ==> SamePath(c, s, t, m) && SameNeeds(s, t, m)
    ensures MarksOk(c, t) && NothingLost(c, t)
  {
    forall m | m in t.marks ensures InTransit(c, t, m) {
      if m != n {
        StaysInTransit(c, s, t, m);
      }
    }
    forall m ensures Covered(c, t, m) {
      if m != n {
        assert Covered(c, s, m);
        CacheInHistory(c, s, m);
        StaysCovered(c, s, t, m);
      }
    }
  }

  lemma Appended(events: seq<Event>, e: Event, n: Name)
    ensures Has(events, n) || e.name == n ==> Has(events + [e], n)
    ensures HasDelete(events, n) || (e.name == n && e.kind.Deleted?) ==> HasDelete(events + [e], n)
  {
    var longer := events + [e];
    if e.name == n {
      assert longer[|events|] == e;
    }
    if i :| 0 <= i < |events| && events[i].name == n {
      assert longer[i].name == n;
    }
    if i :| 0 <= i < |events| && events[i].name == n && events[i].kind.Deleted? {
      assert longer[i].name == n && longer[i].kind.Deleted?;
    }
  }

  lemma Popped1(events: seq<Event>, n: Name)
    requires |events| > 0
    ensures Has(events, n) ==> Has(events[1..], n) || events[0].name == n
    ensures HasDelete(events, n) ==> HasDelete(events[1..], n) || (events[0].name == n && events[0].kind.Deleted?)
  {
    var rest := events[1..];
    if i :| 0 <= i < |events| && events[i].name == n {
      assert i > 0 ==> rest[i - 1].name == n;
    }
    if i :| 0 <= i < |events| && events[i].name == n && events[i].kind.Deleted? {
      assert i > 0 ==> rest[i - 1].name == n && rest[i - 1].kind.Deleted?;
    }
  }

  lemma InformQueues(c: Config, s: State, n: Name, rev: nat, version: nat)
    requires Valid(c) && InformerEnabled(c, s, Inform(n, rev, version))
    ensures
      var t := Informed(s, n, rev, version);
      && t == s.(cache := s.cache[n := rev], handlers := t.handlers, finished := t.finished) && s.finished <= t.finished
      && if t.handlers == s.handlers then !Version(s, n, rev).live && n in t.finished
         else exists e :: t.handlers == s.handlers + [e] && e.name == n && (!Version(s, n, rev).live ==> e.kind.Deleted?)
  {
    var t := Informed(s, n, rev, version);
    if t.handlers != s.handlers {
      assert t.handlers == s.handlers + [t.handlers[|s.handlers|]];
    }
  }

  lemma InformPath(c: Config, s: State, n: Name, rev: nat, version: nat, m: Name)
    requires Valid(c) && InformerEnabled(c, s, Inform(n, rev, version))
    ensures
      var t := Informed(s, n, rev, version);
      && SamePath(c, s, t, m) && (m != n ==> SameNeeds(s, t, m))
      && (Version(s, n, rev).live ==> Has(t.handlers, n))
      && (!Version(s, n, rev).live ==> HasDelete(t.handlers, n) || n in t.finished)
  {
    var t := Informed(s, n, rev, version);
    InformQueues(c, s, n, rev, version);
    hide Informed, Has, HasDelete;
    if t.handlers != s.handlers {
      var e :| t.handlers == s.handlers + [e] && e.name == n && (!Version(s, n, rev).live ==> e.kind.Deleted?);
      Appended(s.handlers, e, m);
      Appended(s.handlers, e, n);
    }
  }

  lemma InformAt(c: Config, s: State, n: Name, rev: nat, version: nat)
    requires Shapes(c, s) && InformerEnabled(c, s, Inform(n, rev, version)) && Covered(c, s, n)
    ensures Covered(c, Informed(s, n, rev, version), n)
  {
    InformPath(c, s, n, rev, version, n);
    InformQueues(c, s, n, rev, version);
    hide Informed, SamePath, Shapes, Has, HasDelete;
  }

  lemma InformCovers(c: Config, s: State, n: Name, rev: nat, version: nat)
    requires Inv(c, s) && InformerEnabled(c, s, Inform(n, rev, version))
    ensures MarksOk(c, Informed(s, n, rev, version)) && NothingLost(c, Informed(s, n, rev, version))
  {
    var t := Informed(s, n, rev, version);
    forall m ensures SamePath(c, s, t, m) && (m != n ==> SameNeeds(s, t, m)) {
      InformPath(c, s, n, rev, version, m);
    }
    InformQueues(c, s, n, rev, version);
    assert Covered(c, s, n);
    InformAt(c, s, n, rev, version);
    hide Informed, SamePath, Sound, InTransit, Covered, SameNeeds;
    if n in s.marks {
      StaysInTransit(c, s, t, n);
    }
    OneActionMoves(c, s, t, n);
  }

  lemma DispatchPath(c: Config, s: State, m: Name)
    requires Valid(c) && InformerEnabled(c, s, Dispatch)
    ensures
      var t := Dispatched(s);
      && t.actions == s.actions && t.cache == s.cache && t.handled == s.handled && t.finished == s.finished
      && t.channels == s.channels && t.workers == s.workers && t.handlers == s.handlers[1..]
      && t.marks <= s.marks + {s.handlers[0].name}
      && (m != s.handlers[0].name ==> SamePath(c, s, t, m) && SameNeeds(s, t, m))
  {
    Popped1(s.handlers, m);
  }

  ghost predicate LabelKept(s: State, n: Name, r: nat)
    requires HasVersion(s, n, r)
  {
    Version(s, n, r).labelled ==> forall q :: r <= q <= Latest(s, n) ==> Version(s, n, q).labelled
  }

  lemma DispatchAt(c: Config, s: State)
    requires Valid(c) && InformerEnabled(c, s, Dispatch) && EventOk(s, s.handlers[0])
    requires Covered(c, s, s.handlers[0].name) && (s.handlers[0].name in s.marks ==> InTransit(c, s, s.handlers[0].name))
    requires LabelKept(s, s.handlers[0].name, s.handlers[0].version)
    ensures
      var n := s.handlers[0].name;
      Covered(c, Dispatched(s), n) && (n in Dispatched(s).marks ==> InTransit(c, Dispatched(s), n))
  {
    var e, t := s.handlers[0], Dispatched(s);
    DispatchPath(c, s, e.name);
    Popped1(s.handlers, e.name);
    hide Has, HasDelete;
    if Version(s, e.name, e.version).labelled {
      assert Count(s.cache, e.name) <= Latest(s, e.name) ==> Version(s, e.name, Count(s.cache, e.name)).labelled;
      assert Version(s, e.name, Latest(s, e.name)).labelled;
    }
  }

  lemma DispatchCovers(c: Config, s: State)
    requires Inv(c, s) && InformerEnabled(c, s, Dispatch)
    ensures MarksOk(c, Dispatched(s)) && NothingLost(c, Dispatched(s))
  {
    var t := Dispatched(s);
    var e := s.handlers[0];
    forall m | m != e.name ensures SamePath(c, s, t, m) && SameNeeds(s, t, m) {
      DispatchPath(c, s, m);
    }
    DispatchPath(c, s, e.name);
    assert Covered(c, s, e.name) && EventOk(s, e);
    LabelsStay(c, s, e.name, e.version);
    hide Dispatched, SamePath, Shapes, ShardsOk, InTransit, Covered, SameNeeds;
    DispatchAt(c, s);
    OneActionMoves(c, s, t, e.name);
  }

  /** An unlabelled version has only unlabelled ones before it. */
  lemma LabelsStay(c: Config, s: State, n: Name, r: nat)
    requires Shapes(c, s) && HasVersion(s, n, r)
    ensures LabelKept(s, n, r)
  {
    forall q | r < q <= Latest(s, n) ensures Version(s, n, r).labelled ==> Version(s, n, q).labelled {
      HistoryAt(s.actions[n].versions, r - 1, q - 1);
    }
  }

  lemma SendPath(c: Config, s: State, m: Name)
    requires Valid(c) && InformerEnabled(c, s, Send)
    ensures
      var t := ApplyInformer(c, s, Send);
      t.marks == s.marks && (m != s.sending.value.name ==> SamePath(c, s, t, m) && SameNeeds(s, t, m))
  {
    Appended(Lane(c, s, m), s.sending.value, m);
    hide Has, HasDelete;
  }

  lemma SendAt(c: Config, s: State)
    requires Valid(c) && InformerEnabled(c, s, Send) && Covered(c, s, s.sending.value.name)
    ensures
      var t := ApplyInformer(c, s, Send);
      Covered(c, t, s.sending.value.name) && InTransit(c, t, s.sending.value.name)
  {
    Appended(Lane(c, s, s.sending.value.name), s.sending.value, s.sending.value.name);
    hide Has, HasDelete;
  }

  lemma SendCovers(c: Config, s: State)
    requires Inv(c, s) && InformerEnabled(c, s, Send)
    ensures
      var t := ApplyInformer(c, s, Send);
      MarksOk(c, t) && NothingLost(c, t)
  {
    var t := ApplyInformer(c, s, Send);
    var n := s.sending.value.name;
    assert Covered(c, s, n);
    forall m | m != n ensures SamePath(c, s, t, m) && SameNeeds(s, t, m) {
      SendPath(c, s, m);
    }
    SendPath(c, s, n);
    SendAt(c, s);
    hide ApplyInformer, SamePath, Sound, InTransit, Covered, SameNeeds;
    OneActionMoves(c, s, t, n);
  }

  lemma PopPath(c: Config, s: State, k: nat, m: Name)
    requires Valid(c) && WorkerEnabled(s, k, Pop) && Shard(c, s.channels[k][0].name) == k
    ensures
      var t := ApplyWorker(c, s, k, Pop);
      && t.marks == s.marks && (m != s.channels[k][0].name ==> SamePath(c, s, t, m) && SameNeeds(s, t, m))
  {
    Popped1(s.channels[k], m);
  }

  lemma PopAt(c: Config, s: State, k: nat)
    requires Valid(c) && WorkerEnabled(s, k, Pop) && Shard(c, s.channels[k][0].name) == k
    requires Covered(c, s, s.channels[k][0].name)
    ensures
      var t := ApplyWorker(c, s, k, Pop);
      Covered(c, t, s.channels[k][0].name) && InTransit(c, t, s.channels[k][0].name)
  {
    Popped1(s.channels[k], s.channels[k][0].name);
    hide Has, HasDelete;
  }

  lemma PopCovers(c: Config, s: State, k: nat)
    requires Inv(c, s) && WorkerEnabled(s, k, Pop)
    ensures
      var t := ApplyWorker(c, s, k, Pop);
      MarksOk(c, t) && NothingLost(c, t)
  {
    var t := ApplyWorker(c, s, k, Pop);
    var e := s.channels[k][0];
    assert Shard(c, e.name) == k;
    forall m | m != e.name ensures SamePath(c, s, t, m) && SameNeeds(s, t, m) {
      PopPath(c, s, k, m);
    }
    PopPath(c, s, k, e.name);
    assert Covered(c, s, e.name);
    PopAt(c, s, k);
    hide ApplyWorker, SamePath, Sound, InTransit, Covered, SameNeeds;
    OneActionMoves(c, s, t, e.name);
  }

  /** Another action's worker, or a worker past the cache read, does not matter to m. */
  lemma OnlyWorkerPath(c: Config, s: State, t: State, k: nat, m: Name)
    requires Valid(c) && OnlyWorker(s, t, k)
    requires NameOf(s.workers[k]) != Some(m) || !(s.workers[k].Popped? || s.workers[k].Unmarked?)
    ensures SamePath(c, s, t, m)
  {
    hide Has, HasDelete;
  }

  lemma UnmarkCounts(s: State, k: nat)
    requires AtStage(s, k) && s.workers[k].Popped?
    ensures
      var t := UnmarkedBy(s, k);
      && t.marks == s.marks - {s.workers[k].event.name} && t.cache == s.cache && t.handled == s.handled
      && s.finished <= t.finished
  {
  }

  lemma NeedsFromCounts(s: State, t: State, m: Name)
    requires t.cache == s.cache && Count(t.handled, m) == Count(s.handled, m) && s.finished <= t.finished
    requires GrowsAt(s, t, m) && Count(s.cache, m) <= Latest(s, m)
    ensures SameNeeds(s, t, m)
  {
  }

  lemma UnmarkPath(c: Config, s: State, k: nat, m: Name)
    requires Valid(c) && WorkerEnabled(s, k, Unmark)
    ensures
      var t := UnmarkedBy(s, k);
      && t.marks == s.marks - {s.workers[k].event.name}
      && (m != s.workers[k].event.name ==> SamePath(c, s, t, m) && SameNeeds(s, t, m))
  {
    UnmarkFrame(s, k);
    UnmarkCounts(s, k);
    if m != s.workers[k].event.name {
      OnlyWorkerPath(c, s, UnmarkedBy(s, k), k, m);
    }
    hide OnlyWorker, SamePath, UnmarkedBy;
  }

  lemma UnmarkAt(c: Config, s: State, k: nat)
    requires Valid(c) && WorkerEnabled(s, k, Unmark) && WorkerOk(c, s, k, s.workers[k])
    requires Covered(c, s, s.workers[k].event.name)
    ensures Covered(c, UnmarkedBy(s, k), s.workers[k].event.name)
  {
    hide Has, HasDelete;
  }

  lemma UnmarkCovers(c: Config, s: State, k: nat)
    requires Inv(c, s) && WorkerEnabled(s, k, Unmark)
    ensures MarksOk(c, UnmarkedBy(s, k)) && NothingLost(c, UnmarkedBy(s, k))
  {
    var t := UnmarkedBy(s, k);
    var n := s.workers[k].event.name;
    assert WorkerOk(c, s, k, s.workers[k]);
    assert Covered(c, s, n);
    forall m | m != n ensures SamePath(c, s, t, m) && SameNeeds(s, t, m) {
      UnmarkPath(c, s, k, m);
    }
    UnmarkPath(c, s, k, n);
    UnmarkAt(c, s, k);
    hide UnmarkedBy, SamePath, Sound, InTransit, Covered, SameNeeds;
    OneActionMoves(c, s, t, n);
  }

  lemma ReadCounts(s: State, k: nat, m: Name)
    requires AtStage(s, k) && s.workers[k].Unmarked?
    requires HasVersion(s, s.workers[k].event.name, Count(s.cache, s.workers[k].event.name))
    ensures
      var t := ReadBy(s, k);
      && t.marks == s.marks && t.cache == s.cache && t.finished == s.finished
      && (m != s.workers[k].event.name ==> Count(t.handled, m) == Count(s.handled, m))
  {
  }

  lemma ReadPath(c: Config, s: State, k: nat, m: Name)
    requires Valid(c) && WorkerEnabled(s, k, Read)
    ensures
      var t := ReadBy(s, k);
      t.marks == s.marks && (m != s.workers[k].event.name ==> SamePath(c, s, t, m) && SameNeeds(s, t, m))
  {
    ReadFrame(s, k);
    ReadCounts(s, k, m);
    if m != s.workers[k].event.name {
      OnlyWorkerPath(c, s, ReadBy(s, k), k, m);
    }
    hide OnlyWorker, SamePath, ReadBy;
  }

  lemma ReadKeepsTransit(c: Config, s: State, k: nat)
    requires Valid(c) && WorkerEnabled(s, k, Read) && Shard(c, s.workers[k].event.name) == k
    requires InTransit(c, s, s.workers[k].event.name)
    ensures InTransit(c, ReadBy(s, k), s.workers[k].event.name)
  {
    ReadFrame(s, k);
    hide Has, HasDelete, ReadBy;
  }

  lemma ReadAt(c: Config, s: State, k: nat)
    requires Valid(c) && WorkerEnabled(s, k, Read) && WorkerOk(c, s, k, s.workers[k])
    requires Covered(c, s, s.workers[k].event.name)
    ensures Covered(c, ReadBy(s, k), s.workers[k].event.name)
  {
    hide Has, HasDelete;
  }

  lemma ReadCovers(c: Config, s: State, k: nat)
    requires Inv(c, s) && WorkerEnabled(s, k, Read)
    ensures MarksOk(c, ReadBy(s, k)) && NothingLost(c, ReadBy(s, k))
  {
    var t := ReadBy(s, k);
    var n := s.workers[k].event.name;
    assert WorkerOk(c, s, k, s.workers[k]);
    assert Covered(c, s, n);
    forall m | m != n ensures SamePath(c, s, t, m) && SameNeeds(s, t, m) {
      ReadPath(c, s, k, m);
    }
    ReadPath(c, s, k, n);
    ReadAt(c, s, k);
    if n in s.marks {
      ReadKeepsTransit(c, s, k);
    }
    hide ReadBy, SamePath, Sound, InTransit, Covered, SameNeeds;
    OneActionMoves(c, s, t, n);
  }

  /** The stages after the cache read touch neither the queues nor the counts. */
  lemma LateStagePath(c: Config, s: State, k: nat, step: WorkerStep, m: Name)
    requires Sound(c, s) && WorkerEnabled(s, k, step) && IsLate(step)
    ensures
      var t := ApplyWorker(c, s, k, step);
      t.marks == s.marks && SamePath(c, s, t, m) && SameNeeds(s, t, m)
  {
    var t := ApplyWorker(c, s, k, step);
    WorkerFrame(c, s, k, step);
    WorkerGrows(c, s, k, step);
    assert GrowsAt(s, t, m);
    CacheInHistory(c, s, m);
    hide Has, HasDelete, ApplyWorker, Sound, Grows, OnlyWorker, SameNeeds, SamePath, GrowsAt;
    OnlyWorkerPath(c, s, t, k, m);
    NeedsFromCounts(s, t, m);
  }

  lemma ApiPath(c: Config, s: State, step: ApiStep, m: Name)
    requires Sound(c, s) && ApiEnabled(s, step)
    ensures SamePath(c, s, ApplyApi(s, step), m) && SameNeeds(s, ApplyApi(s, step), m)
  {
    ApiGrows(c, s, step);
    ApiKeepsQueues(s, step);
    assert GrowsAt(s, ApplyApi(s, step), m);
    CacheInHistory(c, s, m);
    hide Has, HasDelete, ApplyApi, Sound, Grows;
  }

  lemma StepCovers(c: Config, s: State, step: Step)
    requires Inv(c, s) && Enabled(c, s, step)
    ensures MarksOk(c, Apply(c, s, step)) && NothingLost(c, Apply(c, s, step))
  {
    var t := Apply(c, s, step);
    hide MarksOk, NothingLost, SamePath, SameNeeds, Sound;
    match step
    case Api(a) =>
      ApiKeepsQueues(s, a);
      forall m ensures SamePath(c, s, t, m) && SameNeeds(s, t, m) {
        ApiPath(c, s, a, m);
      }
      SamePathKeeps(c, s, t);
    case Informer(Inform(n, rev, version)) => InformCovers(c, s, n, rev, version);
    case Informer(Dispatch) => DispatchCovers(c, s);
    case Informer(Send) => SendCovers(c, s);
    case Worker(k, Pop) => PopCovers(c, s, k);
    case Worker(k, Unmark) => UnmarkCovers(c, s, k);
    case Worker(k, Read) => ReadCovers(c, s, k);
    case Worker(k, w) => LateStageCovers(c, s, k, w);
    case Watch(id, w) => WatchCovers(c, s, id, w);
  }

  lemma LateStageCovers(c: Config, s: State, k: nat, step: WorkerStep)
    requires Inv(c, s) && WorkerEnabled(s, k, step) && IsLate(step)
    ensures MarksOk(c, ApplyWorker(c, s, k, step)) && NothingLost(c, ApplyWorker(c, s, k, step))
  {
    var t := ApplyWorker(c, s, k, step);
    forall m ensures SamePath(c, s, t, m) && SameNeeds(s, t, m) {
      LateStagePath(c, s, k, step, m);
    }
    WorkerFrame(c, s, k, step);
    hide MarksOk, NothingLost, SamePath, SameNeeds, Sound, ApplyWorker;
    SamePathKeeps(c, s, t);
  }

  lemma StreamsDoNotMatter(c: Config, s: State, t: State, m: Name)
    requires Valid(c) && t == s.(streams := t.streams)
    ensures SamePath(c, s, t, m) && SameNeeds(s, t, m)
  {
    hide Has, HasDelete;
  }

  lemma WatchCovers(c: Config, s: State, id: nat, step: WatchStep)
    requires Inv(c, s) && WatchEnabled(s, id, step)
    ensures MarksOk(c, ApplyWatch(s, id, step)) && NothingLost(c, ApplyWatch(s, id, step))
  {
    var t := ApplyWatch(s, id, step);
    assert t == s.(streams := t.streams);
    hide ApplyWatch, Sound, MarksOk, NothingLost, SamePath, SameNeeds;
    forall m ensures SamePath(c, s, t, m) && SameNeeds(s, t, m) {
      StreamsDoNotMatter(c, s, t, m);
    }
    SamePathKeeps(c, s, t);
  }

  lemma InvInit(c: Config)
    requires Valid(c)
    ensures Inv(c, Init(c))
  {
  }

  lemma InvStep(c: Config, s: State, step: Step)
    requires Inv(c, s) && Enabled(c, s, step)
    ensures Inv(c, Apply(c, s, step))
  {
    hide Sound, MarksOk, NothingLost;
    StepSound(c, s, step);
    StepCovers(c, s, step);
  }

  lemma {:induction false} InvRun(c: Config, run: seq<State>, steps: seq<Step>, i: nat)
    requires Valid(c) && IsRun(c, run, steps) && i < |run|
    ensures Inv(c, run[i])
  {
    if i == 0 {
      InvInit(c);
    } else {
      InvRun(c, run, steps, i - 1);
      StepAt(c, run, steps, i - 1);
      hide Inv;
      InvStep(c, run[i - 1], steps[i - 1]);
    }
  }

  /** No lost update: a cached version that nobody handled yet has an event on its way to the right worker. */
  lemma NoUpdateIsLost(c: Config, run: seq<State>, steps: seq<Step>, i: nat, n: Name)
    requires Valid(c) && IsRun(c, run, steps) && i < |run|
    ensures Behind(run[i], n) ==> Pending(c, run[i], n)
    ensures DeletionBehind(run[i], n) ==> PendingDelete(c, run[i], n)
  {
    InvRun(c, run, steps, i);
    assert Covered(c, run[i], n);
  }

  /** Nothing is on its way and every worker is idle. */
  predicate Quiet(s: State) {
    && s.handlers == [] && s.sending.None?
    && (forall k :: 0 <= k < |s.channels| ==> s.channels[k] == [])
    && forall k :: 0 <= k < |s.workers| ==> s.workers[k].Idle?
  }

  /** When the pipeline is quiet, everything the cache holds was handled at its latest cached version. */
  lemma QuietIsCaughtUp(c: Config, run: seq<State>, steps: seq<Step>, i: nat, n: Name)
    requires Valid(c) && IsRun(c, run, steps) && i < |run| && Quiet(run[i])
    requires HasVersion(run[i], n, Count(run[i].cache, n)) && Wanted(Version(run[i], n, Count(run[i].cache, n)))
    ensures Count(run[i].handled, n) == Count(run[i].cache, n)
  {
    InvRun(c, run, steps, i);
    assert Covered(c, run[i], n);
  }

  /** And every deletion the cache knows of was handled, unless the action was gone before it was ever seen. */
  lemma QuietDeletionsWereHandled(c: Config, run: seq<State>, steps: seq<Step>, i: nat, n: Name)
    requires Valid(c) && IsRun(c, run, steps) && i < |run| && Quiet(run[i])
    requires Gone(run[i], n) && !Version(run[i], n, Latest(run[i], n)).labelled
    ensures n in run[i].finished
  {
    InvRun(c, run, steps, i);
    assert Covered(c, run[i], n);
  }

  /** The mark of an action is only held while one of its events is on the way to its worker. */
  lemma MarkMeansInTransit(c: Config, run: seq<State>, steps: seq<Step>, i: nat, n: Name)
    requires Valid(c) && IsRun(c, run, steps) && i < |run| && n in run[i].marks
    ensures InTransit(c, run[i], n)
  {
    InvRun(c, run, steps, i);
  }

  /** The conditions under which a step reads a version always hold: no run gets stuck on them. */
  lemma VersionsAreThere(c: Config, run: seq<State>, steps: seq<Step>, i: nat)
    requires Valid(c) && IsRun(c, run, steps) && i < |run|
    ensures
      var s := run[i];
      && (|s.handlers| > 0 && s.sending.None? ==> InformerEnabled(c, s, Dispatch))
      && forall k :: 0 <= k < |s.workers| ==>
           && (s.workers[k].Unmarked? ==> WorkerEnabled(s, k, Read))
           && (s.workers[k].Ready? ==> WorkerEnabled(s, k, Notify))
           && (s.workers[k].Noted? ==> WorkerEnabled(s, k, UpdateStatus(true)))
  {
    InvRun(c, run, steps, i);
    var s := run[i];
    if |s.handlers| > 0 {
      assert EventOk(s, s.handlers[0]);
    }
    forall k | 0 <= k < |s.workers|
      ensures s.workers[k].Unmarked? ==> WorkerEnabled(s, k, Read)
      ensures s.workers[k].Ready? ==> WorkerEnabled(s, k, Notify)
      ensures s.workers[k].Noted? ==> WorkerEnabled(s, k, UpdateStatus(true))
    {
      assert WorkerOk(c, s, k, s.workers[k]);
      if s.workers[k].Unmarked? {
        CacheInHistory(c, s, s.workers[k].event.name);
      }
    }
  }
}
