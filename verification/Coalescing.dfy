/** Coalescing: of each action at most one event that is no deletion is on its way to the worker. */
module Coalescing {
  import opened Base
  import opened Phases
  import opened WatchPipeline
  import opened PipelineHistories
  import opened NoLostUpdates

  /** The events of n among these, oldest first: true stands for one that is no deletion. */
  function Of(events: seq<Event>, n: Name): seq<bool> {
    if events == [] then []
    else (if events[0].name == n then [!events[0].kind.Deleted?] else []) + Of(events[1..], n)
  }

  function Live(bs: seq<bool>): nat {
    if bs == [] then 0 else (if bs[0] then 1 else 0) + Live(bs[1..])
  }

  lemma {:induction false} OfBoth(a: seq<Event>, b: seq<Event>, n: Name)
    ensures Of(a + b, n) == Of(a, n) + Of(b, n)
  {
    if a == [] {
      assert a + b == b;
    } else {
      assert (a + b)[1..] == a[1..] + b;
      OfBoth(a[1..], b, n);
    }
  }

  lemma {:induction false} LiveBoth(a: seq<bool>, b: seq<bool>)
    ensures Live(a + b) == Live(a) + Live(b)
  {
    if a == [] {
      assert a + b == b;
    } else {
      assert (a + b)[1..] == a[1..] + b;
      LiveBoth(a[1..], b);
    }
  }

  lemma {:induction false} NoneLive(bs: seq<bool>)
    requires forall i :: 0 <= i < |bs| ==> !bs[i]
    ensures Live(bs) == 0
  {
    if bs != [] {
      NoneLive(bs[1..]);
    }
  }

  lemma {:induction false} OfDeletions(events: seq<Event>, n: Name)
    requires forall i :: 0 <= i < |events| && events[i].name == n ==> !events[i].kind.Deleted?
    ensures forall i :: 0 <= i < |Of(events, n)| ==> Of(events, n)[i]
  {
    if events != [] {
      OfDeletions(events[1..], n);
    }
  }

  /** Nothing but deletions comes after a deletion. */
  predicate DeletionLast(bs: seq<bool>) {
    forall i, j :: 0 <= i < j < |bs| ==> bs[i] || !bs[j]
  }

  function Taken(c: Config, s: State, n: Name): seq<Event>
    requires Valid(c)
  {
    if WorkerOf(c, s, n).Popped? then [WorkerOf(c, s, n).event] else []
  }

  function Sending(s: State): seq<Event> {
    if s.sending.Some? then [s.sending.value] else []
  }

  /** The events of n past their handler call, up to the one its worker has just taken. */
  function Transit(c: Config, s: State, n: Name): seq<bool>
    requires Valid(c)
  {
    Of(Taken(c, s, n), n) + Of(Lane(c, s, n), n) + Of(Sending(s), n)
  }

  predicate Coalesced(c: Config, s: State, n: Name)
    requires Valid(c)
  {
    && Live(Transit(c, s, n)) == (if n in s.marks then 1 else 0)
    && DeletionLast(Transit(c, s, n) + Of(s.handlers, n))
  }

  lemma SameTransit(c: Config, s: State, t: State, n: Name)
    requires Valid(c) && Coalesced(c, s, n) && Transit(c, t, n) == Transit(c, s, n) && Of(t.handlers, n) == Of(s.handlers, n)
    requires n in t.marks <==> n in s.marks
    ensures Coalesced(c, t, n)
  {
  }

  /** Only a deleted action has deletions under way. */
  lemma NoDeletionsYet(c: Config, s: State, n: Name)
    requires Sound(c, s) && !Gone(s, n)
    ensures forall i :: 0 <= i < |Transit(c, s, n) + Of(s.handlers, n)| ==> (Transit(c, s, n) + Of(s.handlers, n))[i]
  {
    var k := Shard(c, n);
    assert AllOk(s, s.channels[k]) && WorkerOk(c, s, k, s.workers[k]);
    assert forall i :: 0 <= i < |s.handlers| ==> EventOk(s, s.handlers[i]);
    assert forall i :: 0 <= i < |s.channels[k]| ==> EventOk(s, s.channels[k][i]);
    hide Sound, HasVersion;
    OfDeletions(s.handlers, n);
    OfDeletions(Lane(c, s, n), n);
    OfDeletions(Taken(c, s, n), n);
    OfDeletions(Sending(s), n);
  }

  lemma InformCoalesces(c: Config, s: State, m: Name, rev: nat, version: nat, n: Name)
    requires Sound(c, s) && Coalesced(c, s, n) && InformerEnabled(c, s, Inform(m, rev, version))
    ensures Coalesced(c, Informed(s, m, rev, version), n)
  {
    var t := Informed(s, m, rev, version);
    assert Valid(c);
    InformQueues(c, s, m, rev, version);
    SameQueuesTransit(c, s, t, n);
    NotGone(c, s, m, rev, version);
    if m == n {
      NoDeletionsYet(c, s, n);
    }
    hide *;
    if t.handlers == s.handlers {
      SameTransit(c, s, t, n);
    } else {
      var e :| t.handlers == s.handlers + [e] && e.name == m;
      OneMoreHandler(c, s, t, e, n);
    }
  }

  lemma NotGone(c: Config, s: State, m: Name, rev: nat, version: nat)
    requires InformerEnabled(c, s, Inform(m, rev, version))
    ensures !Gone(s, m)
  {
  }

  lemma SameQueuesTransit(c: Config, s: State, t: State, n: Name)
    requires Valid(c) && t.workers == s.workers && t.channels == s.channels && t.sending == s.sending
    ensures Transit(c, t, n) == Transit(c, s, n)
  {
    hide Of;
  }

  lemma OneMoreHandler(c: Config, s: State, t: State, e: Event, n: Name)
    requires Valid(c) && Coalesced(c, s, n) && t.handlers == s.handlers + [e] && t.marks == s.marks
    requires Transit(c, t, n) == Transit(c, s, n)
    requires e.name == n ==> forall i :: 0 <= i < |Transit(c, s, n) + Of(s.handlers, n)| ==> (Transit(c, s, n) + Of(s.handlers, n))[i]
    ensures Coalesced(c, t, n)
  {
    var path, more := Transit(c, s, n) + Of(s.handlers, n), Of([e], n);
    OfOne(e, n);
    OfBoth(s.handlers, [e], n);
    hide Transit, Of;
    AppendLast(path, more);
    assert Transit(c, t, n) + (Of(s.handlers, n) + more) == path + more;
  }

  lemma AppendLast(path: seq<bool>, more: seq<bool>)
    requires DeletionLast(path) && |more| <= 1
    requires more != [] ==> forall i :: 0 <= i < |path| ==> path[i]
    ensures DeletionLast(path + more)
  {
  }

  lemma OfOne(e: Event, n: Name)
    ensures Of([e], n) == (if e.name == n then [!e.kind.Deleted?] else []) && Of([], n) == []
  {
  }

  lemma DispatchCoalesces(c: Config, s: State, n: Name)
    requires Valid(c) && Coalesced(c, s, n) && InformerEnabled(c, s, Dispatch)
    ensures Coalesced(c, Dispatched(s), n)
  {
    var t, e := Dispatched(s), s.handlers[0];
    var before, after, rest := Transit(c, s, n), Transit(c, t, n), Of(s.handlers[1..], n);
    var b := !e.kind.Deleted?;
    assert Of(s.handlers, n) == (if e.name == n then [b] else []) + rest;
    DispatchSends(c, s, n);
    hide Dispatched, Transit, Of, InformerEnabled;
    if e.name == n {
      if after == before {
        DropOne(before, b, rest);
      } else {
        LiveBoth(before, [b]);
        assert before + ([b] + rest) == after + rest;
      }
    } else {
      assert [] + rest == rest;
    }
  }

  lemma DispatchMoves(c: Config, s: State)
    requires InformerEnabled(c, s, Dispatch)
    ensures
      var t, e := Dispatched(s), s.handlers[0];
      && t == s.(handlers := s.handlers[1..], sending := t.sending, marks := t.marks) && s.sending.None?
      && (|| (t.sending.None? && t.marks == s.marks)
          || (t.sending == Some(e) && e.kind.Deleted? && t.marks == s.marks)
          || (t.sending == Some(e) && !e.kind.Deleted? && t.marks == s.marks + {e.name} && e.name !in s.marks))
  {
  }

  /** What a dispatch does to the events of n: it drops the oldest, or sends it. */
  lemma DispatchSends(c: Config, s: State, n: Name)
    requires Valid(c) && InformerEnabled(c, s, Dispatch)
    ensures
      var t, e := Dispatched(s), s.handlers[0];
      && t.handlers == s.handlers[1..]
      && (e.name != n ==> Transit(c, t, n) == Transit(c, s, n) && (n in t.marks <==> n in s.marks))
      && (e.name == n ==>
            || (Transit(c, t, n) == Transit(c, s, n) && (n in t.marks <==> n in s.marks))
            || (Transit(c, t, n) == Transit(c, s, n) + [!e.kind.Deleted?]
                && if e.kind.Deleted? then (n in t.marks <==> n in s.marks) else n !in s.marks && n in t.marks))
  {
    var e, t := s.handlers[0], Dispatched(s);
    DispatchMoves(c, s);
    OfOne(e, n);
    hide Dispatched, InformerEnabled, Of;
    assert Taken(c, t, n) == Taken(c, s, n) && Lane(c, t, n) == Lane(c, s, n);
  }

  lemma DropOne(before: seq<bool>, b: bool, rest: seq<bool>)
    requires DeletionLast(before + ([b] + rest))
    ensures DeletionLast(before + rest)
  {
    var long, short := before + ([b] + rest), before + rest;
    forall i, j | 0 <= i < j < |short| ensures short[i] || !short[j] {
      var i', j' := if i < |before| then i else i + 1, if j < |before| then j else j + 1;
      assert long[i'] == short[i] && long[j'] == short[j];
    }
  }

  lemma SendCoalesces(c: Config, s: State, n: Name)
    requires Sound(c, s) && Coalesced(c, s, n) && InformerEnabled(c, s, Send)
    ensures Coalesced(c, ApplyInformer(c, s, Send), n)
  {
    var t, e := ApplyInformer(c, s, Send), s.sending.value;
    assert Valid(c) && t == s.(sending := None, channels := t.channels);
    SendTransit(c, s, n);
    hide *;
    SameTransit(c, s, t, n);
  }

  lemma SendTransit(c: Config, s: State, n: Name)
    requires Valid(c) && InformerEnabled(c, s, Send)
    ensures Transit(c, ApplyInformer(c, s, Send), n) == Transit(c, s, n)
  {
    var t, e := ApplyInformer(c, s, Send), s.sending.value;
    assert Sending(t) == [] && Sending(s) == [e] && Taken(c, t, n) == Taken(c, s, n);
    OfOne(e, n);
    if Shard(c, e.name) == Shard(c, n) {
      assert Lane(c, t, n) == Lane(c, s, n) + [e];
      hide ApplyInformer, InformerEnabled, Of, Lane;
      OfBoth(Lane(c, s, n), [e], n);
    } else {
      assert Lane(c, t, n) == Lane(c, s, n);
      hide ApplyInformer, InformerEnabled, Of, Lane;
    }
  }

  lemma PopCoalesces(c: Config, s: State, k: nat, n: Name)
    requires Sound(c, s) && Coalesced(c, s, n) && WorkerEnabled(s, k, Pop)
    ensures Coalesced(c, ApplyWorker(c, s, k, Pop), n)
  {
    var t := ApplyWorker(c, s, k, Pop);
    assert Valid(c) && t.handlers == s.handlers && t.marks == s.marks;
    PopTransit(c, s, k, n);
    hide *;
    SameTransit(c, s, t, n);
  }

  lemma PopTransit(c: Config, s: State, k: nat, n: Name)
    requires Valid(c) && WorkerEnabled(s, k, Pop)
    ensures Transit(c, ApplyWorker(c, s, k, Pop), n) == Transit(c, s, n)
  {
    var t, e := ApplyWorker(c, s, k, Pop), s.channels[k][0];
    assert t == s.(workers := s.workers[k := Popped(e)], channels := s.channels[k := s.channels[k][1..]]);
    assert s.workers[k].Idle?;
    hide *;
    if k == Shard(c, n) {
      PopHere(c, s, t, k, e, n);
    } else {
      PopElsewhere(c, s, t, k, e, n);
    }
  }

  lemma PopHere(c: Config, s: State, t: State, k: nat, e: Event, n: Name)
    requires Valid(c) && k == Shard(c, n) && k < |s.workers| && k < |s.channels| && s.channels[k] != [] && e == s.channels[k][0]
    requires s.workers[k].Idle?
    requires t == s.(workers := s.workers[k := Popped(e)], channels := s.channels[k := s.channels[k][1..]])
    ensures Transit(c, t, n) == Transit(c, s, n)
  {
    assert Taken(c, t, n) == [e] && Taken(c, s, n) == [] && Lane(c, s, n) == [e] + Lane(c, t, n);
    hide Taken, Lane, Of;
    OfBoth([e], Lane(c, t, n), n);
    OfOne(e, n);
  }

  lemma PopElsewhere(c: Config, s: State, t: State, k: nat, e: Event, n: Name)
    requires Valid(c) && k != Shard(c, n) && k < |s.workers| && k < |s.channels| && s.channels[k] != []
    requires t == s.(workers := s.workers[k := Popped(e)], channels := s.channels[k := s.channels[k][1..]])
    ensures Transit(c, t, n) == Transit(c, s, n)
  {
    assert Taken(c, t, n) == Taken(c, s, n) && Lane(c, t, n) == Lane(c, s, n);
    hide Taken, Lane, Of;
  }

  lemma UnmarkCoalesces(c: Config, s: State, k: nat, n: Name)
    requires Sound(c, s) && Coalesced(c, s, n) && WorkerEnabled(s, k, Unmark)
    ensures Coalesced(c, UnmarkedBy(s, k), n)
  {
    var t, e := UnmarkedBy(s, k), s.workers[k].event;
    assert WorkerOk(c, s, k, s.workers[k]);
    UnmarkCounts(s, k);
    UnmarkTakes(c, s, k, n);
    hide UnmarkedBy, Sound, Transit, Of, WorkerEnabled, WorkerOk;
    if e.name == n {
      FirstIsTaken(Transit(c, t, n), Of(s.handlers, n), !e.kind.Deleted?);
    } else {
      assert [] + Transit(c, t, n) == Transit(c, t, n);
      SameTransit(c, s, t, n);
    }
  }

  /** The first event was the only live one, or a deletion with none behind it. */
  lemma FirstIsTaken(rest: seq<bool>, waiting: seq<bool>, b: bool)
    requires DeletionLast(([b] + rest) + waiting) && Live([b] + rest) <= 1
    ensures Live(rest) == 0 && DeletionLast(rest + waiting)
  {
    LiveBoth([b], rest);
    assert Live([b]) == if b then 1 else 0;
    hide Live;
    assert ([b] + rest) + waiting == [b] + (rest + waiting);
    TailAfter(b, rest + waiting);
    if !b {
      forall i | 0 <= i < |rest| ensures !rest[i] {
        assert (rest + waiting)[i] == rest[i];
      }
      NoneLive(rest);
    }
  }

  lemma TailAfter(b: bool, tail: seq<bool>)
    requires DeletionLast([b] + tail)
    ensures DeletionLast(tail) && (!b ==> forall i :: 0 <= i < |tail| ==> !tail[i])
  {
    var path := [b] + tail;
    forall i, j | 0 <= i < j < |tail| ensures tail[i] || !tail[j] {
      assert path[i + 1] == tail[i] && path[j + 1] == tail[j];
    }
    forall i | 0 <= i < |tail| && !b ensures !tail[i] {
      assert path[0] == b && path[i + 1] == tail[i];
    }
  }

  lemma UnmarkTakes(c: Config, s: State, k: nat, n: Name)
    requires Valid(c) && WorkerEnabled(s, k, Unmark) && Shard(c, s.workers[k].event.name) == k
    ensures
      var t, e := UnmarkedBy(s, k), s.workers[k].event;
      && t.handlers == s.handlers
      && Transit(c, s, n) == (if e.name == n then [!e.kind.Deleted?] else []) + Transit(c, t, n)
  {
    var t, e := UnmarkedBy(s, k), s.workers[k].event;
    assert t.handlers == s.handlers && t.channels == s.channels && t.sending == s.sending;
    assert t.workers == s.workers[k := t.workers[k]] && !t.workers[k].Popped?;
    assert s.workers[k] == Popped(e);
    hide *;
    TakenAway(c, s, t, k, e, n);
  }

  lemma TakenAway(c: Config, s: State, t: State, k: nat, e: Event, n: Name)
    requires Valid(c) && k < |s.workers| && s.workers[k] == Popped(e) && Shard(c, e.name) == k
    requires t.channels == s.channels && t.sending == s.sending && |t.workers| == |s.workers|
    requires t.workers == s.workers[k := t.workers[k]] && !t.workers[k].Popped?
    ensures Transit(c, s, n) == (if e.name == n then [!e.kind.Deleted?] else []) + Transit(c, t, n)
  {
    OfOne(e, n);
    assert Lane(c, t, n) == Lane(c, s, n) && Sending(t) == Sending(s);
    if k == Shard(c, n) {
      assert Taken(c, s, n) == [e] && Taken(c, t, n) == [];
    } else {
      assert Taken(c, s, n) == Taken(c, t, n);
    }
    hide Taken, Lane, Sending, Of;
  }

  /** The later stages of a worker move no event. */
  lemma LaterCoalesces(c: Config, s: State, k: nat, w: WorkerStep, n: Name)
    requires Sound(c, s) && Coalesced(c, s, n) && WorkerEnabled(s, k, w) && !w.Pop? && !w.Unmark?
    ensures Coalesced(c, ApplyWorker(c, s, k, w), n)
  {
    var t := ApplyWorker(c, s, k, w);
    WorkerFrame(c, s, k, w);
    NotTaken(c, s, k, w);
    if w.Read? {
      ReadCounts(s, k, n);
    }
    assert t.marks == s.marks && t.handlers == s.handlers;
    hide ApplyWorker, Sound, WorkerEnabled;
    assert Taken(c, t, n) == Taken(c, s, n) && Lane(c, t, n) == Lane(c, s, n) && Sending(t) == Sending(s);
    SameTransit(c, s, t, n);
  }

  lemma NotTaken(c: Config, s: State, k: nat, w: WorkerStep)
    requires WorkerEnabled(s, k, w) && !w.Pop? && !w.Unmark?
    ensures !s.workers[k].Popped? && k < |ApplyWorker(c, s, k, w).workers| && !ApplyWorker(c, s, k, w).workers[k].Popped?
  {
    hide StageVersions, HasVersion;
    match w
    case Read =>
    case Notify =>
    case Record(_) =>
    case UpdateStatus(_) =>
    case Patch(ok) => PatchFrame(s, k, ok);
  }

  lemma CoalescedStep(c: Config, s: State, step: Step, n: Name)
    requires Sound(c, s) && Enabled(c, s, step) && Coalesced(c, s, n)
    ensures Coalesced(c, Apply(c, s, step), n)
  {
    assert Valid(c);
    hide Sound, Coalesced, WorkerEnabled, InformerEnabled, ApiEnabled, WatchEnabled;
    match step
    case Api(a) => ApiCoalesces(c, s, a, n);
    case Informer(Inform(m, rev, version)) => InformCoalesces(c, s, m, rev, version, n);
    case Informer(Dispatch) => DispatchCoalesces(c, s, n);
    case Informer(Send) => SendCoalesces(c, s, n);
    case Worker(k, Pop) => PopCoalesces(c, s, k, n);
    case Worker(k, Unmark) => UnmarkCoalesces(c, s, k, n);
    case Worker(k, w) => LaterCoalesces(c, s, k, w, n);
    case Watch(id, w) => WatchCoalesces(c, s, id, w, n);
  }

  lemma ApiCoalesces(c: Config, s: State, a: ApiStep, n: Name)
    requires Sound(c, s) && Coalesced(c, s, n) && ApiEnabled(s, a)
    ensures Coalesced(c, ApplyApi(s, a), n)
  {
    ApiKeepsQueues(s, a);
    hide ApplyApi;
    SameTransit(c, s, ApplyApi(s, a), n);
  }

  lemma WatchCoalesces(c: Config, s: State, id: nat, w: WatchStep, n: Name)
    requires Sound(c, s) && Coalesced(c, s, n) && WatchEnabled(s, id, w)
    ensures Coalesced(c, ApplyWatch(s, id, w), n)
  {
    var t := ApplyWatch(s, id, w);
    assert t == s.(streams := t.streams);
    hide ApplyWatch;
    SameTransit(c, s, t, n);
  }

  lemma {:induction false} CoalescedRun(c: Config, run: seq<State>, steps: seq<Step>, i: nat, n: Name)
    requires Valid(c) && |run| == |steps| + 1 && i < |run| && IsRun(c, run, steps)
    ensures Coalesced(c, run[i], n)
  {
    hide *;
    if i == 0 {
      StartsCoalesced(c, run, steps, n);
    } else {
      CoalescedRun(c, run, steps, i - 1, n);
      SoundRun(c, run, steps, i - 1);
      StepAt(c, run, steps, i - 1);
      CoalescedStep(c, run[i - 1], steps[i - 1], n);
    }
  }

  /** Of every action, at any time, at most one event that is no deletion is between its handler call and its worker's
      next read, and there is one exactly while the action is marked. */
  lemma AtMostOneEvent(c: Config, run: seq<State>, steps: seq<Step>, i: nat, n: Name)
    requires Valid(c) && IsRun(c, run, steps) && i < |run|
    ensures Live(Transit(c, run[i], n)) <= 1 && (Live(Transit(c, run[i], n)) == 1 <==> n in run[i].marks)
  {
    CoalescedRun(c, run, steps, i, n);
  }

  lemma SoundRun(c: Config, run: seq<State>, steps: seq<Step>, i: nat)
    requires Valid(c) && IsRun(c, run, steps) && i < |run|
    ensures Sound(c, run[i])
  {
    InvRun(c, run, steps, i);
  }

  lemma StartsCoalesced(c: Config, run: seq<State>, steps: seq<Step>, n: Name)
    requires Valid(c) && IsRun(c, run, steps)
    ensures |run| > 0 && Coalesced(c, run[0], n)
  {
    assert run[0] == Init(c);
    hide IsRun;
    assert Lane(c, Init(c), n) == [] && Taken(c, Init(c), n) == [];
  }
}
