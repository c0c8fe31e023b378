/** What the terminal-status label and the record filter say about the run service. */
module TerminalLabels {
  import opened Base
  import opened Phases
  import opened WatchPipeline
  import opened NoLostUpdates
  import opened PipelineHistories

  /** The action was created with the label already on it. */
  predicate Born(s: State, n: Name) {
    n in s.actions && BornLabelled(s.actions[n].origin)
  }

  predicate Labelled(s: State, n: Name) {
    Latest(s, n) > 0 && Version(s, n, Latest(s, n)).labelled
  }

  ghost predicate Travelling(s: State, e: Event) {
    || s.sending == Some(e)
    || (exists k :: 0 <= k < |s.channels| && e in s.channels[k])
    || (exists k :: 0 <= k < |s.workers| && (s.workers[k] == Popped(e) || s.workers[k] == Unmarked(e)))
  }

  function UpdateOf(stage: Stage): Option<Update> {
    match stage
    case Ready(u) => Some(u)
    case Notified(u) => Some(u)
    case Noted(u) => Some(u)
    case Patching(u) => Some(u)
    case _ => None
  }

  /** A deletion carries a version no older than the last one read. */
  predicate AfterReads(s: State, e: Event) {
    e.kind.Deleted? ==> Count(s.handled, e.name) <= e.version
  }

  predicate StageFact(s: State, stage: Stage) {
    UpdateOf(stage).Some? ==>
      var u := UpdateOf(stage).value;
      && !Born(s, u.name)
      && (if u.kind.Deleted? then Count(s.handled, u.name) <= u.version else u.version <= Count(s.handled, u.name))
      && (stage.Patching? ==>
           && HasVersion(s, u.name, u.version) && u.name in s.service.accepted
           && s.service.accepted[u.name] == Version(s, u.name, u.version).phase)
  }

  ghost predicate QueueFacts(s: State) {
    && (forall e | e in s.handlers :: AfterReads(s, e))
    && (forall e | Travelling(s, e) :: AfterReads(s, e) && !Born(s, e.name))
    && forall k :: 0 <= k < |s.workers| ==> StageFact(s, s.workers[k])
  }

  /** The labels copied at creation: from the run spec, or from a parent that carries them still. */
  predicate CopiedFact(s: State, n: Name) {
    Latest(s, n) > 0 ==>
      && Version(s, n, 1).labelled == Born(s, n)
      && (Born(s, n) && s.actions[n].origin.ChildTask? ==> Labelled(s, s.actions[n].origin.parent))
  }

  /** A label that was not copied says that the run service accepted the final phase, and which. */
  predicate LabelFact(s: State, n: Name) {
    Labelled(s, n) && !Born(s, n) ==>
      && HasVersion(s, n, Count(s.handled, n)) && Terminal(Version(s, n, Count(s.handled, n)).phase)
      && n in s.service.accepted && s.service.accepted[n] == Version(s, n, Latest(s, n)).phase
  }

  /** Nothing past the informer ever sees an action born with the label. */
  predicate BornFact(s: State, n: Name) {
    Born(s, n) ==>
      && n !in s.service.recorded && n !in s.service.accepted
      && n !in s.handled && n !in s.notified && n !in s.marks
  }

  /** The filter holds only actions that the run service recorded. */
  predicate FilterFact(c: Config, s: State) {
    forall k | k in s.service.filter :: s.service.filter[k] in s.service.recorded && c.slot(s.service.filter[k]) == k
  }

  ghost predicate NameFacts(s: State) {
    forall n :: CopiedFact(s, n) && LabelFact(s, n) && BornFact(s, n)
  }

  predicate Known(s: State) {
    && s.service.recorded <= s.actions.Keys && s.service.accepted.Keys <= s.actions.Keys
    && s.handled.Keys <= s.actions.Keys && s.notified.Keys <= s.actions.Keys && s.marks <= s.actions.Keys
  }

  ghost predicate LabelInv(c: Config, s: State) {
    Inv(c, s) && QueueFacts(s) && NameFacts(s) && FilterFact(c, s) && Known(s)
  }


  /** The histories grow and keep their origins. */
  ghost predicate Extends(c: Config, s: State, t: State) {
    && Shapes(c, s) && Shapes(c, t) && Grows(s, t) && s.actions.Keys <= t.actions.Keys
    && forall n | n in s.actions :: t.actions[n].origin == s.actions[n].origin
  }

  /** And this one gains no label but a copied one. */
  predicate ExtendsAt(s: State, t: State, n: Name) {
    && (Labelled(t, n) ==> Labelled(s, n) || Born(t, n))
    && (n !in s.actions ==> CopiedFact(t, n))
  }

  lemma PhaseStays(c: Config, s: State, n: Name, i: nat, j: nat)
    requires Shapes(c, s) && HasVersion(s, n, i) && i <= j <= Latest(s, n) && Terminal(Version(s, n, i).phase)
    ensures Version(s, n, j).phase == Version(s, n, i).phase
  {
    if i < j {
      HistoryAt(s.actions[n].versions, i - 1, j - 1);
    }
  }

  lemma LabelStays(c: Config, s: State, t: State, n: Name)
    requires Shapes(c, t) && GrowsAt(s, t, n) && Labelled(s, n)
    ensures Labelled(t, n)
  {
    if Latest(s, n) < Latest(t, n) {
      HistoryAt(t.actions[n].versions, Latest(s, n) - 1, Latest(t, n) - 1);
    }
  }

  predicate SameTrackers(s: State, t: State) {
    t.service == s.service && t.handled == s.handled && t.notified == s.notified && t.marks == s.marks
  }

  lemma ExtendedNames(c: Config, s: State, t: State, n: Name)
    requires Extends(c, s, t) && ExtendsAt(s, t, n) && NameFacts(s) && Known(s) && SameTrackers(s, t)
    ensures CopiedFact(t, n) && LabelFact(t, n) && BornFact(t, n)
  {
    assert GrowsAt(s, t, n) && CopiedFact(s, n) && LabelFact(s, n) && BornFact(s, n);
    if n in s.actions {
      if Labelled(t, n) && !Born(t, n) {
        PhaseStays(c, t, n, Count(s.handled, n), Latest(s, n));
        PhaseStays(c, t, n, Count(s.handled, n), Latest(t, n));
      }
      if Born(t, n) && t.actions[n].origin.ChildTask? {
        var parent := t.actions[n].origin.parent;
        assert GrowsAt(s, t, parent);
        if Latest(s, n) > 0 {
          LabelStays(c, s, t, parent);
        }
      }
    }
  }

  lemma ExtendedStage(s: State, t: State, stage: Stage)
    requires Grows(s, t) && (forall n | n in s.actions :: n in t.actions && t.actions[n].origin == s.actions[n].origin)
    requires SameTrackers(s, t) && StageOk(s, stage) && StageFact(s, stage)
    ensures StageFact(t, stage)
  {
    if UpdateOf(stage).Some? {
      assert GrowsAt(s, t, UpdateOf(stage).value.name);
    }
  }

  /** A step that only extends histories, and perhaps idles a worker. */
  lemma ExtendedQueues(c: Config, s: State, t: State)
    requires Extends(c, s, t) && LabelInv(c, s) && SameTrackers(s, t)
    requires t.handlers == s.handlers && t.sending == s.sending && t.channels == s.channels && |t.workers| == |s.workers|
    requires forall k :: 0 <= k < |t.workers| ==> t.workers[k] == s.workers[k] || t.workers[k].Idle?
    ensures QueueFacts(t)
  {
    forall e | Travelling(t, e) ensures AfterReads(t, e) && !Born(t, e.name) {
      assert Travelling(s, e);
      TravellersKnown(c, s, e);
    }
    forall k | 0 <= k < |t.workers| ensures StageFact(t, t.workers[k]) {
      assert StageFact(s, s.workers[k]) && WorkerOk(c, s, k, s.workers[k]);
      hide StageFact, StageOk, Grows, SameTrackers;
      ExtendedStage(s, t, s.workers[k]);
      IdleFact(t, t.workers[k]);
    }
  }

  lemma IdleFact(s: State, stage: Stage)
    ensures UpdateOf(stage).None? ==> StageFact(s, stage)
  {
  }

  lemma TravellersKnown(c: Config, s: State, e: Event)
    requires Sound(c, s) && Travelling(s, e)
    ensures EventOk(s, e) && e.name in s.actions
  {
    if k :| 0 <= k < |s.channels| && e in s.channels[k] {
      assert AllOk(s, s.channels[k]);
    }
    if k :| 0 <= k < |s.workers| && (s.workers[k] == Popped(e) || s.workers[k] == Unmarked(e)) {
      assert StageOk(s, s.workers[k]);
    }
  }

  lemma ApiExtends(c: Config, s: State, step: ApiStep)
    requires Shapes(c, s) && ApiEnabled(s, step)
    ensures Extends(c, s, ApplyApi(s, step)) && forall n :: ExtendsAt(s, ApplyApi(s, step), n)
  {
    ApiGrows(c, s, step);
    var t := ApplyApi(s, step);
    forall n ensures ExtendsAt(s, t, n) {
    }
  }

  lemma ApiLabels(c: Config, s: State, step: ApiStep)
    requires LabelInv(c, s) && ApiEnabled(s, step)
    ensures
      var t := ApplyApi(s, step);
      QueueFacts(t) && NameFacts(t) && FilterFact(c, t) && Known(t)
  {
    var t := ApplyApi(s, step);
    ApiExtends(c, s, step);
    ApiKeepsQueues(s, step);
    ExtendedQueues(c, s, t);
    forall n ensures CopiedFact(t, n) && LabelFact(t, n) && BornFact(t, n) {
      ExtendedNames(c, s, t, n);
    }
    hide QueueFacts, ApplyApi, Inv, NameFacts, Extends;
  }

  lemma PatchExtends(c: Config, s: State, k: nat, ok: bool)
    requires Shapes(c, s) && AtStage(s, k) && s.workers[k].Patching?
    ensures
      var t := PatchedBy(s, k, ok);
      && Extends(c, s, t) && SameTrackers(s, t)
      && forall n | n != s.workers[k].update.name :: ExtendsAt(s, t, n)
  {
    PatchGrows(c, s, k, ok);
    var t := PatchedBy(s, k, ok);
    forall n | n != s.workers[k].update.name ensures ExtendsAt(s, t, n) {
    }
  }

  /** The patched action was accepted with its final phase before. */
  lemma PatchedName(c: Config, s: State, k: nat, ok: bool)
    requires LabelInv(c, s) && AtStage(s, k) && s.workers[k].Patching?
    ensures
      var t := PatchedBy(s, k, ok);
      var n := s.workers[k].update.name;
      CopiedFact(t, n) && LabelFact(t, n) && BornFact(t, n)
  {
    var t, u := PatchedBy(s, k, ok), s.workers[k].update;
    assert StageFact(s, s.workers[k]) && WorkerOk(c, s, k, s.workers[k]);
    assert Covered(c, s, u.name) && CopiedFact(s, u.name) && BornFact(s, u.name) && LabelFact(s, u.name);
    CacheInHistory(c, s, u.name);
    PatchExtends(c, s, k, ok);
    hide PatchedBy;
    assert GrowsAt(s, t, u.name);
    hide Inv, QueueFacts, NameFacts, Grows, Covered;
    PhaseStays(c, t, u.name, u.version, Count(s.handled, u.name));
    PhaseStays(c, t, u.name, u.version, Latest(t, u.name));
  }

  lemma PatchLabels(c: Config, s: State, k: nat, ok: bool)
    requires LabelInv(c, s) && AtStage(s, k) && s.workers[k].Patching?
    ensures
      var t := PatchedBy(s, k, ok);
      QueueFacts(t) && NameFacts(t) && FilterFact(c, t) && Known(t)
  {
    var t := PatchedBy(s, k, ok);
    PatchExtends(c, s, k, ok);
    PatchFrame(s, k, ok);
    assert t.workers[k].Idle?;
    hide PatchedBy;
    ExtendedQueues(c, s, t);
    forall n ensures CopiedFact(t, n) && LabelFact(t, n) && BornFact(t, n) {
      if n == s.workers[k].update.name {
        PatchedName(c, s, k, ok);
      } else {
        ExtendedNames(c, s, t, n);
      }
    }
    hide QueueFacts, Inv, NameFacts, Extends;
  }

  // Steps that leave the histories alone.

  lemma SameHistory(s: State, t: State, n: Name)
    requires t.actions == s.actions
    ensures Born(t, n) == Born(s, n) && Labelled(t, n) == Labelled(s, n)
    ensures CopiedFact(t, n) == CopiedFact(s, n)
  {
  }

  lemma InformLabels(c: Config, s: State, n: Name, rev: nat, version: nat)
    requires LabelInv(c, s) && InformerEnabled(c, s, Inform(n, rev, version))
    ensures
      var t := Informed(s, n, rev, version);
      QueueFacts(t) && NameFacts(t) && FilterFact(c, t) && Known(t)
  {
    var t := Informed(s, n, rev, version);
    InformQueues(c, s, n, rev, version);
    assert Covered(c, s, n);
    forall e | e in t.handlers ensures AfterReads(t, e) {
      if e !in s.handlers {
        assert e == t.handlers[|s.handlers|];
      }
    }
    hide Informed, Inv;
    forall e | Travelling(t, e) ensures AfterReads(t, e) && !Born(t, e.name) {
      assert Travelling(s, e);
    }
    SameFacts(c, s, t);
  }

  /** The facts about names and stages depend on the histories and the trackers only. */
  lemma SameFacts(c: Config, s: State, t: State)
    requires t.actions == s.actions && SameTrackers(s, t) && NameFacts(s) && FilterFact(c, s) && Known(s)
    ensures NameFacts(t) && FilterFact(c, t) && Known(t)
    ensures forall stage :: StageFact(s, stage) ==> StageFact(t, stage)
  {
    forall n ensures CopiedFact(t, n) && LabelFact(t, n) && BornFact(t, n) {
      assert CopiedFact(s, n) && LabelFact(s, n) && BornFact(s, n);
    }
  }

  /** An action born with the label has it on every version, so its events are all skipped. */
  lemma BornIsSkipped(c: Config, s: State, n: Name, r: nat)
    requires Shapes(c, s) && CopiedFact(s, n) && Born(s, n) && HasVersion(s, n, r)
    ensures Version(s, n, r).labelled
  {
    if r > 1 {
      HistoryAt(s.actions[n].versions, 0, r - 1);
    }
  }

  lemma DispatchTravellers(c: Config, s: State)
    requires Sound(c, s) && NameFacts(s) && InformerEnabled(c, s, Dispatch)
    ensures
      var t, e := Dispatched(s), s.handlers[0];
      && t == s.(handlers := s.handlers[1..], sending := t.sending, marks := t.marks)
      && (t.sending == s.sending || (t.sending == Some(e) && !Born(s, e.name)))
      && (t.marks == s.marks || (t.marks == s.marks + {e.name} && !Born(s, e.name) && e.name in s.actions))
  {
    var e := s.handlers[0];
    assert CopiedFact(s, e.name);
    if Born(s, e.name) {
      BornIsSkipped(c, s, e.name, e.version);
    }
    hide Sound, NameFacts;
  }

  lemma DispatchLabels(c: Config, s: State)
    requires LabelInv(c, s) && InformerEnabled(c, s, Dispatch)
    ensures QueueFacts(Dispatched(s)) && NameFacts(Dispatched(s)) && FilterFact(c, Dispatched(s)) && Known(Dispatched(s))
  {
    var t, e := Dispatched(s), s.handlers[0];
    DispatchTravellers(c, s);
    assert e in s.handlers;
    hide Inv, Travelling, NameFacts, FilterFact, Known, StageFact, AfterReads, Born, InformerEnabled;
    assert t == s.(handlers := t.handlers, sending := t.sending, marks := t.marks);
    assert t.sending == s.sending || t.sending == Some(e);
    hide Dispatched;
    OneMoreTraveller(s, t, e);
    SameFacts(c, s, t.(marks := s.marks));
    MoreMarks(c, t.(marks := s.marks), t, e.name);
    SameStages(s, t);
  }

  lemma OneMoreTraveller(s: State, t: State, e: Event)
    requires t == s.(handlers := t.handlers, sending := t.sending, marks := t.marks)
    requires t.sending == s.sending || t.sending == Some(e)
    ensures forall x :: Travelling(t, x) ==> Travelling(s, x) || (x == e && t.sending == Some(e))
  {
  }

  lemma MoreMarks(c: Config, s: State, t: State, n: Name)
    requires NameFacts(s) && Known(s) && t == s.(marks := t.marks)
    requires t.marks <= s.marks || (t.marks == s.marks + {n} && !Born(s, n) && n in s.actions)
    ensures NameFacts(t) && Known(t)
  {
    forall m ensures CopiedFact(t, m) && LabelFact(t, m) && BornFact(t, m) {
      assert CopiedFact(s, m) && LabelFact(s, m) && BornFact(s, m);
    }
  }

  lemma SendLabels(c: Config, s: State)
    requires LabelInv(c, s) && InformerEnabled(c, s, Send)
    ensures
      var t := ApplyInformer(c, s, Send);
      QueueFacts(t) && NameFacts(t) && FilterFact(c, t) && Known(t)
  {
    var t := ApplyInformer(c, s, Send);
    SendTravellers(c, s);
    hide ApplyInformer, Inv, Travelling;
    SameFacts(c, s, t);
  }

  lemma SendTravellers(c: Config, s: State)
    requires InformerEnabled(c, s, Send)
    ensures
      var t := ApplyInformer(c, s, Send);
      && t == s.(sending := None, channels := t.channels)
      && forall e :: Travelling(t, e) ==> Travelling(s, e)
  {
    var t := ApplyInformer(c, s, Send);
    forall e | Travelling(t, e) ensures Travelling(s, e) {
      if k :| 0 <= k < |t.channels| && e in t.channels[k] {
        assert e in s.channels[k] || s.sending == Some(e);
      }
    }
  }

  lemma PopLabels(c: Config, s: State, k: nat)
    requires LabelInv(c, s) && WorkerEnabled(s, k, Pop)
    ensures
      var t := ApplyWorker(c, s, k, Pop);
      QueueFacts(t) && NameFacts(t) && FilterFact(c, t) && Known(t)
  {
    var t := ApplyWorker(c, s, k, Pop);
    PopTravellers(c, s, k);
    assert t.workers == s.workers[k := t.workers[k]] && UpdateOf(t.workers[k]).None?;
    hide ApplyWorker, Inv, Travelling;
    SameFacts(c, s, t);
    IdleFact(t, t.workers[k]);
  }

  lemma PopTravellers(c: Config, s: State, k: nat)
    requires WorkerEnabled(s, k, Pop)
    ensures
      var t := ApplyWorker(c, s, k, Pop);
      && t == s.(workers := t.workers, channels := t.channels)
      && forall e :: Travelling(t, e) ==> Travelling(s, e)
  {
    var t := ApplyWorker(c, s, k, Pop);
    forall e | Travelling(t, e) ensures Travelling(s, e) {
      if i :| 0 <= i < |t.channels| && e in t.channels[i] {
        assert e in s.channels[i];
      }
      if i :| 0 <= i < |t.workers| && (t.workers[i] == Popped(e) || t.workers[i] == Unmarked(e)) {
        assert i == k ==> e in s.channels[k];
      }
    }
  }

  /** After a worker step the events under way are those before it. */
  lemma WorkerTravellers(s: State, t: State, k: nat)
    requires OnlyWorker(s, t, k) && !t.workers[k].Popped?
    requires t.workers[k].Unmarked? ==> s.workers[k] == Popped(t.workers[k].event)
    ensures forall e :: Travelling(t, e) ==> Travelling(s, e)
  {
    forall e | Travelling(t, e) ensures Travelling(s, e) {
      if i :| 0 <= i < |t.workers| && (t.workers[i] == Popped(e) || t.workers[i] == Unmarked(e)) {
        assert s.workers[i] == Popped(e) || s.workers[i] == Unmarked(e);
      }
    }
  }

  lemma UnmarkLabels(c: Config, s: State, k: nat)
    requires LabelInv(c, s) && WorkerEnabled(s, k, Unmark)
    ensures
      var t := UnmarkedBy(s, k);
      QueueFacts(t) && NameFacts(t) && FilterFact(c, t) && Known(t)
  {
    var t := UnmarkedBy(s, k);
    assert Travelling(s, s.workers[k].event);
    UnmarkFrame(s, k);
    assert t == s.(marks := s.marks - {s.workers[k].event.name}, finished := t.finished, workers := t.workers);
    assert StageFact(s, t.workers[k]);
    WorkerTravellers(s, t, k);
    hide UnmarkedBy, Inv, Travelling;
    SameFacts(c, s, t.(marks := s.marks));
    MoreMarks(c, t.(marks := s.marks), t, "");
    SameStages(s, t);
  }

  lemma SameStages(s: State, t: State)
    requires t.actions == s.actions && t.service == s.service && t.handled == s.handled
    ensures forall stage :: StageFact(s, stage) ==> StageFact(t, stage)
    ensures forall e :: AfterReads(t, e) == AfterReads(s, e)
    ensures forall n :: Born(t, n) == Born(s, n)
  {
  }

  lemma NotifyLabels(c: Config, s: State, k: nat)
    requires LabelInv(c, s) && WorkerEnabled(s, k, Notify)
    ensures
      var t := NotifiedBy(c, s, k);
      QueueFacts(t) && NameFacts(t) && FilterFact(c, t) && Known(t)
  {
    var t, u := NotifiedBy(c, s, k), s.workers[k].update;
    NotifyFrame(c, s, k);
    assert StageFact(s, s.workers[k]) && WorkerOk(c, s, k, s.workers[k]);
    assert t == s.(workers := s.workers[k := Notified(u)], streams := t.streams, notified := s.notified[u.name := u.rev]);
    assert StageFact(s, Notified(u));
    assert !Born(s, u.name) && u.name in s.actions;
    WorkerTravellers(s, t, k);
    hide NotifiedBy, Inv, Travelling, StageFact, AfterReads;
    SameStages(s, t);
    forall m ensures CopiedFact(t, m) && LabelFact(t, m) && BornFact(t, m) {
      assert CopiedFact(s, m) && LabelFact(s, m) && BornFact(s, m);
    }
    hide NameFacts, FilterFact, Born;
  }

  lemma RecordLabels(c: Config, s: State, k: nat, ok: bool)
    requires LabelInv(c, s) && WorkerEnabled(s, k, Record(ok))
    ensures
      var t := RecordedBy(c, s, k, ok);
      QueueFacts(t) && NameFacts(t) && FilterFact(c, t) && Known(t)
  {
    var t, u := RecordedBy(c, s, k, ok), s.workers[k].update;
    RecordFrame(c, s, k, ok);
    assert StageFact(s, s.workers[k]) && WorkerOk(c, s, k, s.workers[k]);
    assert t == s.(workers := s.workers[k := Noted(u)], service := t.service);
    assert t.service.accepted == s.service.accepted;
    assert t.service.recorded <= s.service.recorded + {u.name};
    assert StageFact(s, Noted(u)) && FilterFact(c, t);
    WorkerTravellers(s, t, k);
    hide RecordedBy, Inv, Travelling, FilterFact;
    SameAccepted(s, t);
    forall m ensures CopiedFact(t, m) && LabelFact(t, m) && BornFact(t, m) {
      assert CopiedFact(s, m) && LabelFact(s, m) && BornFact(s, m);
    }
    hide NameFacts, StageFact, AfterReads, Born;
  }

  lemma SameAccepted(s: State, t: State)
    requires t.actions == s.actions && t.service.accepted == s.service.accepted && t.handled == s.handled
    ensures forall stage :: StageFact(s, stage) ==> StageFact(t, stage)
    ensures forall e :: AfterReads(t, e) == AfterReads(s, e)
    ensures forall n :: Born(t, n) == Born(s, n)
  {
  }

  lemma OthersHaveOtherNames(c: Config, s: State, k: nat, i: nat)
    requires Sound(c, s) && k < |s.workers| && i < |s.workers| && i != k && NameOf(s.workers[k]).Some?
    ensures NameOf(s.workers[i]) != NameOf(s.workers[k])
  {
    assert WorkerOk(c, s, k, s.workers[k]) && WorkerOk(c, s, i, s.workers[i]);
  }

  lemma ReadMoves(c: Config, s: State, k: nat)
    requires LabelInv(c, s) && WorkerEnabled(s, k, Read)
    ensures
      var t, e := ReadBy(s, k), s.workers[k].event;
      var seen := Count(s.cache, e.name);
      && !Born(s, e.name) && Count(s.handled, e.name) <= seen <= Latest(s, e.name) && e.name in s.actions
      && OnlyWorker(s, t, k) && !t.workers[k].Popped? && !t.workers[k].Unmarked?
      && t == s.(workers := t.workers, handled := t.handled)
      && (if t.handled == s.handled && t.workers[k].Idle? then true
          else t.handled == s.handled[e.name := seen] && Version(s, e.name, seen).live
               && t.workers[k] == Ready(Update(e.name, e.kind, seen, seen)) && !e.kind.Deleted?)
  {
    var e := s.workers[k].event;
    assert Travelling(s, e) && WorkerOk(c, s, k, s.workers[k]) && Covered(c, s, e.name);
    CacheInHistory(c, s, e.name);
    ReadFrame(s, k);
    hide Inv, QueueFacts, NameFacts;
  }

  /** Once an action was read live, no deletion of it is under way. */
  lemma ReadQueues(c: Config, s: State, t: State, k: nat, n: Name, seen: nat)
    requires LabelInv(c, s) && t == s.(workers := t.workers, handled := s.handled[n := seen]) && OnlyWorker(s, t, k)
    requires NameOf(s.workers[k]) == Some(n) && seen == Count(s.cache, n) && HasVersion(s, n, seen)
    requires Version(s, n, seen).live && (forall e :: Travelling(t, e) ==> Travelling(s, e))
    requires StageFact(t, t.workers[k])
    ensures QueueFacts(t)
  {
    forall e | e in t.handlers ensures AfterReads(t, e) {
      assert EventOk(s, e) && AfterReads(s, e);
    }
    forall e | Travelling(t, e) ensures AfterReads(t, e) && !Born(t, e.name) {
      TravellersKnown(c, s, e);
      assert AfterReads(s, e) && !Born(s, e.name);
    }
    forall i | 0 <= i < |t.workers| ensures StageFact(t, t.workers[i]) {
      if i != k {
        OthersHaveOtherNames(c, s, k, i);
        assert StageFact(s, s.workers[i]);
      }
    }
  }

  lemma ReadNames(c: Config, s: State, t: State, n: Name, seen: nat)
    requires Shapes(c, s) && NameFacts(s) && Known(s) && t == s.(workers := t.workers, handled := s.handled[n := seen])
    requires !Born(s, n) && Count(s.handled, n) <= seen <= Latest(s, n) && n in s.actions
    ensures NameFacts(t) && Known(t)
  {
    forall m ensures CopiedFact(t, m) && LabelFact(t, m) && BornFact(t, m) {
      assert CopiedFact(s, m) && LabelFact(s, m) && BornFact(s, m);
      if m == n && Labelled(s, n) {
        PhaseStays(c, s, n, Count(s.handled, n), seen);
      }
    }
  }

  lemma ReadLabels(c: Config, s: State, k: nat)
    requires LabelInv(c, s) && WorkerEnabled(s, k, Read)
    ensures
      var t := ReadBy(s, k);
      QueueFacts(t) && NameFacts(t) && FilterFact(c, t) && Known(t)
  {
    var t, n := ReadBy(s, k), s.workers[k].event.name;
    var seen := Count(s.cache, n);
    ReadMoves(c, s, k);
    WorkerTravellers(s, t, k);
    hide ReadBy, Travelling, Inv, AfterReads, Grows;
    if t.handled == s.handled && t.workers[k].Idle? {
      SameStages(s, t);
      SameFacts(c, s, t);
      IdleFact(t, t.workers[k]);
    } else {
      ReadQueues(c, s, t, k, n, seen);
      ReadNames(c, s, t, n, seen);
    }
  }

  /** What UpdateActionStatus accepts for a labelled action is its final phase again. */
  lemma AcceptedIsFinal(c: Config, s: State, u: Update)
    requires Shapes(c, s) && UpdateOk(s, u) && StageFact(s, Noted(u)) && LabelFact(s, u.name)
    requires Labelled(s, u.name)
    ensures UpdatePhase(s, u) == Version(s, u.name, Latest(s, u.name)).phase || !Terminal(UpdatePhase(s, u))
  {
    if Terminal(Version(s, u.name, u.version).phase) {
      PhaseStays(c, s, u.name, u.version, Latest(s, u.name));
    }
    if u.kind.Deleted? {
      PhaseStays(c, s, u.name, Count(s.handled, u.name), u.version);
    }
  }

  lemma UpdateLabels(c: Config, s: State, k: nat, ok: bool)
    requires LabelInv(c, s) && WorkerEnabled(s, k, UpdateStatus(ok))
    ensures
      var t := UpdatedBy(s, k, ok);
      QueueFacts(t) && NameFacts(t) && FilterFact(c, t) && Known(t)
  {
    var t, u := UpdatedBy(s, k, ok), s.workers[k].update;
    UpdateMoves(c, s, k, ok);
    WorkerTravellers(s, t, k);
    UpdateFrame(s, k, ok);
    hide UpdatedBy, Travelling, Inv;
    if t.service == s.service {
      SameStages(s, t);
      SameFacts(c, s, t);
      IdleFact(t, t.workers[k]);
    } else {
      UpdateNames(c, s, t, u);
      UpdateStages(c, s, t, k, u);
      hide StageFact, NameFacts;
      SameReads(s, t);
    }
  }

  lemma SameReads(s: State, t: State)
    requires t.actions == s.actions && t.handled == s.handled
    ensures forall e :: AfterReads(t, e) == AfterReads(s, e)
    ensures forall n :: Born(t, n) == Born(s, n)
  {
  }

  lemma UpdateMoves(c: Config, s: State, k: nat, ok: bool)
    requires LabelInv(c, s) && WorkerEnabled(s, k, UpdateStatus(ok))
    ensures
      var t, u := UpdatedBy(s, k, ok), s.workers[k].update;
      && OnlyWorker(s, t, k) && t == s.(workers := t.workers, service := t.service)
      && UpdateOk(s, u) && StageFact(s, Noted(u)) && Sound(c, s)
      && (t.service == s.service ==> t.workers[k].Idle? || t.workers[k] == Patching(u))
      && ((t.service == s.service && t.workers[k].Idle?)
          || (Terminal(UpdatePhase(s, u))
              && t.service == s.service.(accepted := s.service.accepted[u.name := UpdatePhase(s, u)])
              && t.workers[k] == if u.kind.Deleted? then Idle else Patching(u)))
  {
    UpdateFrame(s, k, ok);
    assert StageFact(s, s.workers[k]) && WorkerOk(c, s, k, s.workers[k]);
    hide QueueFacts, NameFacts;
  }

  lemma UpdateNames(c: Config, s: State, t: State, u: Update)
    requires Shapes(c, s) && NameFacts(s) && Known(s) && UpdateOk(s, u) && StageFact(s, Noted(u))
    requires Terminal(UpdatePhase(s, u))
    requires t == s.(workers := t.workers,
                     service := s.service.(accepted := s.service.accepted[u.name := UpdatePhase(s, u)]))
    ensures NameFacts(t) && Known(t)
  {
    forall m ensures CopiedFact(t, m) && LabelFact(t, m) && BornFact(t, m) {
      assert CopiedFact(s, m) && LabelFact(s, m) && BornFact(s, m);
      if m == u.name && Labelled(s, m) {
        AcceptedIsFinal(c, s, u);
      }
    }
  }

  lemma UpdateStages(c: Config, s: State, t: State, k: nat, u: Update)
    requires Sound(c, s) && QueueFacts(s) && OnlyWorker(s, t, k) && s.workers[k] == Noted(u) && UpdateOk(s, u)
    requires Terminal(UpdatePhase(s, u)) && t.workers[k] == if u.kind.Deleted? then Idle else Patching(u)
    requires t == s.(workers := t.workers,
                     service := s.service.(accepted := s.service.accepted[u.name := UpdatePhase(s, u)]))
    ensures forall i :: 0 <= i < |t.workers| ==> StageFact(t, t.workers[i])
  {
    forall i | 0 <= i < |t.workers| ensures StageFact(t, t.workers[i]) {
      assert StageFact(s, s.workers[i]);
      if i != k {
        OthersHaveOtherNames(c, s, k, i);
      }
    }
  }

  lemma WatchLabels(c: Config, s: State, id: nat, step: WatchStep)
    requires LabelInv(c, s) && WatchEnabled(s, id, step)
    ensures
      var t := ApplyWatch(s, id, step);
      QueueFacts(t) && NameFacts(t) && FilterFact(c, t) && Known(t)
  {
    var t := ApplyWatch(s, id, step);
    assert t == s.(streams := t.streams);
    hide ApplyWatch, Inv;
    forall e | Travelling(t, e) ensures Travelling(s, e) {
    }
    SameFacts(c, s, t);
    SameStages(s, t);
  }

  lemma LabelStep(c: Config, s: State, step: Step)
    requires LabelInv(c, s) && Enabled(c, s, step)
    ensures LabelInv(c, Apply(c, s, step))
  {
    InvStep(c, s, step);
    hide Inv, QueueFacts, NameFacts, FilterFact, Known;
    match step
    case Api(a) => ApiLabels(c, s, a);
    case Informer(Inform(n, rev, version)) => InformLabels(c, s, n, rev, version);
    case Informer(Dispatch) => DispatchLabels(c, s);
    case Informer(Send) => SendLabels(c, s);
    case Worker(k, Pop) => PopLabels(c, s, k);
    case Worker(k, Unmark) => UnmarkLabels(c, s, k);
    case Worker(k, Read) => ReadLabels(c, s, k);
    case Worker(k, Notify) => NotifyLabels(c, s, k);
    case Worker(k, Record(ok)) => RecordLabels(c, s, k, ok);
    case Worker(k, UpdateStatus(ok)) => UpdateLabels(c, s, k, ok);
    case Worker(k, Patch(ok)) => PatchLabels(c, s, k, ok);
    case Watch(id, w) => WatchLabels(c, s, id, w);
  }

  lemma {:induction false} LabelRun(c: Config, run: seq<State>, steps: seq<Step>, i: nat)
    requires Valid(c) && IsRun(c, run, steps) && i < |run|
    ensures LabelInv(c, run[i])
  {
    if i == 0 {
      InvInit(c);
    } else {
      LabelRun(c, run, steps, i - 1);
      StepAt(c, run, steps, i - 1);
      hide LabelInv;
      LabelStep(c, run[i - 1], steps[i - 1]);
    }
  }

  /** The label says that the run service accepted the action's final phase, exactly when it was not copied at creation. */
  lemma LabelMeansRecorded(c: Config, run: seq<State>, steps: seq<Step>, i: nat, n: Name)
    requires Valid(c) && IsRun(c, run, steps) && i < |run| && Labelled(run[i], n)
    ensures n in run[i].service.accepted <==> !Born(run[i], n)
    ensures !Born(run[i], n) ==>
      var final := Version(run[i], n, Latest(run[i], n)).phase;
      Terminal(final) && run[i].service.accepted[n] == final
  {
    LabelRun(c, run, steps, i);
    assert LabelFact(run[i], n) && BornFact(run[i], n) && CopiedFact(run[i], n);
    if !Born(run[i], n) {
      PhaseStays(c, run[i], n, Count(run[i].handled, n), Latest(run[i], n));
    }
  }

  /** An action born with the label stays invisible to the run service, and no update of it is ever sent to the streams. */
  lemma BornLabelledIsInvisible(c: Config, run: seq<State>, steps: seq<Step>, i: nat, n: Name)
    requires Valid(c) && IsRun(c, run, steps) && i < |run| && Born(run[i], n)
    ensures Labelled(run[i], n)
    ensures n !in run[i].service.recorded && n !in run[i].service.accepted && n !in run[i].notified
  {
    LabelRun(c, run, steps, i);
    assert BornFact(run[i], n) && CopiedFact(run[i], n);
    BornIsSkipped(c, run[i], n, Latest(run[i], n));
  }

  lemma Extend(c: Config, run: seq<State>, steps: seq<Step>, step: Step) returns (run': seq<State>, steps': seq<Step>)
    requires |run| == |steps| + 1 && IsRun(c, run, steps) && Enabled(c, run[|steps|], step)
    ensures run' == run + [Apply(c, run[|steps|], step)] && steps' == steps + [step] && IsRun(c, run', steps')
  {
    run', steps' := run + [Apply(c, run[|steps|], step)], steps + [step];
  }

  /** There are such actions: a root whose run spec sets the label, and a child that inherits it. The child ends and its
      final version reaches the cache and the handler, and the pipeline is quiet without having told anyone. */
  lemma LabelIsInherited(c: Config, root: Name, child: Name, scope: Scope) returns (run: seq<State>, steps: seq<Step>)
    requires Valid(c) && root != child
    ensures |run| == |steps| + 1 && IsRun(c, run, steps)
    ensures
      var s := run[|steps|];
      && Born(s, root) && s.actions[root].origin == RootTask(true)
      && Born(s, child) && s.actions[child].origin == ChildTask(root, true)
      && Quiet(s) && Exists(s, child) && Count(s.cache, child) == Latest(s, child)
      && Version(s, child, Latest(s, child)).phase == Succeeded
  {
    run, steps := [Init(c)], [];
    assert IsRun(c, run, steps);
    hide IsRun;
    run, steps := Extend(c, run, steps, Api(Create(root, "root", scope, RootTask(true))));
    run, steps := Extend(c, run, steps, Api(Create(child, "child", scope, ChildTask(root, true))));
    run, steps := Extend(c, run, steps, Api(Write(child, Succeeded)));
    run, steps := Extend(c, run, steps, Informer(Inform(child, 2, 2)));
    run, steps := Extend(c, run, steps, Informer(Dispatch));
  }

  /** It got the label from its run spec or from a parent that still carries it. */
  lemma BornLabelledHasSource(c: Config, run: seq<State>, steps: seq<Step>, i: nat, n: Name)
    requires Valid(c) && IsRun(c, run, steps) && i < |run| && Born(run[i], n)
    ensures
      match run[i].actions[n].origin
      case RootTask(keyInRunSpec) => keyInRunSpec
      case ChildTask(parent, _) => Labelled(run[i], parent)
      case Condition => false
  {
    LabelRun(c, run, steps, i);
    assert CopiedFact(run[i], n) && BornFact(run[i], n);
  }

  /** RecordAction is skipped only for an action whose RecordAction succeeded before. */
  lemma SkippedWasRecorded(c: Config, run: seq<State>, steps: seq<Step>, i: nat, n: Name)
    requires Valid(c) && IsRun(c, run, steps) && i < |run| && InFilter(c, run[i].service, n)
    ensures n in run[i].service.recorded
  {
    LabelRun(c, run, steps, i);
  }

  predicate HandledWanted(s: State, n: Name) {
    Count(s.handled, n) > 0 ==> HasVersion(s, n, Count(s.handled, n)) && Wanted(Version(s, n, Count(s.handled, n)))
  }

  lemma ReadIsWanted(c: Config, s: State, k: nat, n: Name)
    requires WorkerEnabled(s, k, Read) && HandledWanted(s, n)
    ensures HandledWanted(ReadBy(s, k), n)
  {
  }

  lemma HandledKept(c: Config, s: State, step: Step)
    requires Enabled(c, s, step) && !(step.Worker? && step.worker.Read?)
    ensures Apply(c, s, step).handled == s.handled
  {
    hide HasVersion, StageVersions, Versions, SetWorker;
    match step
    case Worker(k, w) => WorkerKeepsHandled(c, s, k, w);
    case Api(a) => ApiKeepsQueues(s, a);
    case Informer(Inform(m, rev, version)) =>
    case Informer(Dispatch) =>
    case Informer(Send) =>
    case Watch(id, w) =>
  }

  lemma WorkerKeepsHandled(c: Config, s: State, k: nat, w: WorkerStep)
    requires WorkerEnabled(s, k, w) && !w.Read?
    ensures ApplyWorker(c, s, k, w).handled == s.handled
  {
    if w.Unmark? {
      UnmarkCounts(s, k);
    } else if !w.Pop? {
      WorkerFrame(c, s, k, w);
    }
  }

  lemma HandledStep(c: Config, s: State, step: Step, n: Name)
    requires Sound(c, s) && Enabled(c, s, step) && HandledWanted(s, n)
    ensures HandledWanted(Apply(c, s, step), n)
  {
    if step.Worker? && step.worker.Read? {
      ReadIsWanted(c, s, step.shard, n);
    } else {
      StepGrows(c, s, step);
      assert GrowsAt(s, Apply(c, s, step), n);
      HandledKept(c, s, step);
      hide Sound, Grows, Enabled, Apply;
    }
  }

  lemma RunStarts(c: Config, run: seq<State>, steps: seq<Step>)
    requires IsRun(c, run, steps)
    ensures |run| > 0 && run[0] == Init(c)
  {
  }

  lemma SoundRun(c: Config, run: seq<State>, steps: seq<Step>, i: nat)
    requires Valid(c) && IsRun(c, run, steps) && i < |run|
    ensures Sound(c, run[i])
  {
    InvRun(c, run, steps, i);
  }

  /** A version that carries the label, or is a deletion's, is never handled, whichever event led to it. */
  lemma {:induction false} LabelledIsSkipped(c: Config, run: seq<State>, steps: seq<Step>, i: nat, n: Name)
    requires Valid(c) && |run| == |steps| + 1 && i < |run| && IsRun(c, run, steps)
    ensures HandledWanted(run[i], n)
  {
    hide IsRun, Enabled, Apply;
    if i == 0 {
      RunStarts(c, run, steps);
    } else {
      hide HandledWanted;
      LabelledIsSkipped(c, run, steps, i - 1, n);
      SoundRun(c, run, steps, i - 1);
      StepAt(c, run, steps, i - 1);
      hide Sound;
      HandledStep(c, run[i - 1], steps[i - 1], n);
    }
  }
}
