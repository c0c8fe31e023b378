/** The auto-refresh cache at the grain of its single LRU-map operations. */
module RefreshCaches {

  type Id = string

  datatype Item = Item(terminal: bool, value: int)

  /** `birth` numbers the additions that started an entry's life; replacing the item keeps it. */
  datatype Entry = Entry(item: Item, birth: nat)

  /** A call between its lookup and its write; `since` is the number of births when it looked. */
  datatype Thread =
    | Updating(id: Id, item: Item, since: nat, seen: nat)
    | Creating(id: Id, item: Item, since: nat)

  /** `lock` is held by the one Update under way. */
  datatype State = State(cache: map<Id, Entry>, births: nat, holder: set<nat>, threads: map<nat, Thread>)

  datatype Step =
    | UpdateLook(t: nat, id: Id, item: Item)
    | UpdateWrite(t: nat)
    | CreateLook(t: nat, id: Id, item: Item)
    | CreateAdd(t: nat)
    | Delete(id: Id)
    | Evict(id: Id)

  function Init(): State {
    State(map[], 0, {}, map[])
  }

  predicate Enabled(s: State, step: Step) {
    match step
    case UpdateLook(t, _, _) => t !in s.threads && s.holder == {}
    case UpdateWrite(t) => t in s.threads && s.threads[t].Updating?
    case CreateLook(t, _, _) => t !in s.threads
    case CreateAdd(t) => t in s.threads && s.threads[t].Creating?
    case Delete(_) => s.holder == {}
    case Evict(_) => true
  }

  predicate Live(s: State, id: Id) {
    id in s.cache && !s.cache[id].item.terminal
  }

  /** Update's write replaces what it finds, or starts a new life if the entry was evicted meanwhile. */
  function Written(s: State, t: nat): State
    requires t in s.threads && s.threads[t].Updating?
  {
    var th := s.threads[t];
    var done := s.(holder := s.holder - {t}, threads := s.threads - {t});
    if th.id in s.cache then done.(cache := s.cache[th.id := s.cache[th.id].(item := th.item)])
    else done.(cache := s.cache[th.id := Entry(th.item, s.births + 1)], births := s.births + 1)
  }

  function Apply(s: State, step: Step): State
    requires Enabled(s, step)
  {
    match step
    case UpdateLook(t, id, item) =>
      if Live(s, id)
      then s.(holder := {t}, threads := s.threads[t := Updating(id, item, s.births, s.cache[id].birth)])
      else s
    case UpdateWrite(t) => Written(s, t)
    case CreateLook(t, id, item) =>
      if id in s.cache then s else s.(threads := s.threads[t := Creating(id, item, s.births)])
    case CreateAdd(t) =>
      var th := s.threads[t];
      s.(cache := s.cache[th.id := Entry(th.item, s.births + 1)], births := s.births + 1, threads := s.threads - {t})
    case Delete(id) => s.(cache := s.cache - {id})
    case Evict(id) => s.(cache := s.cache - {id})
  }

  ghost predicate IsRun(run: seq<State>, steps: seq<Step>) {
    && |run| == |steps| + 1 && run[0] == Init()
    && forall i :: 0 <= i < |steps| ==> Enabled(run[i], steps[i]) && run[i + 1] == Apply(run[i], steps[i])
  }

  lemma StepAt(run: seq<State>, steps: seq<Step>, i: nat)
    requires IsRun(run, steps) && i < |steps|
    ensures Enabled(run[i], steps[i]) && run[i + 1] == Apply(run[i], steps[i])
  {
  }

  /** What a call knows of the entry it is about to write: still the live one it saw, or a younger one. */
  predicate Knows(s: State, th: Thread) {
    && th.since <= s.births
    && (th.id in s.cache ==>
         s.cache[th.id].birth > th.since
         || (th.Updating? && s.cache[th.id].birth == th.seen && !s.cache[th.id].item.terminal))
  }

  predicate Inv(s: State) {
    && (forall id | id in s.cache :: s.cache[id].birth <= s.births)
    && (forall t | t in s.threads :: Knows(s, s.threads[t]))
    && (forall t | t in s.threads && s.threads[t].Updating? :: s.holder == {t})
  }

  lemma InvStep(s: State, step: Step)
    requires Inv(s) && Enabled(s, step)
    ensures Inv(Apply(s, step))
  {
    var n := Apply(s, step);
    forall t | t in n.threads ensures Knows(n, n.threads[t]) {
      if t in s.threads {
        assert Knows(s, s.threads[t]);
      }
    }
  }

  lemma {:induction false} InvRun(run: seq<State>, steps: seq<Step>, i: nat)
    requires IsRun(run, steps) && i < |run|
    ensures Inv(run[i])
  {
    if i > 0 {
      InvRun(run, steps, i - 1);
      StepAt(run, steps, i - 1);
      InvStep(run[i - 1], steps[i - 1]);
    }
  }

  predicate Terminal(s: State, id: Id) {
    id in s.cache && s.cache[id].item.terminal
  }

  /** The step writes the entry of `id` for a call that looked before that entry's life began. */
  predicate StaleWrite(s: State, step: Step, id: Id) {
    && (step.UpdateWrite? || step.CreateAdd?) && step.t in s.threads && s.threads[step.t].id == id
    && id in s.cache && s.threads[step.t].since < s.cache[id].birth
  }

  /** A terminal item leaves the cache exactly by deletion or eviction, and is replaced exactly by a stale write of
      another. */
  lemma TerminalIsAbsorbing(run: seq<State>, steps: seq<Step>, i: nat, id: Id)
    requires IsRun(run, steps) && i < |steps| && Terminal(run[i], id)
    ensures
      var before, after, step := run[i], run[i + 1], steps[i];
      && (id !in after.cache <==> step == Delete(id) || step == Evict(id))
      && (id in after.cache && after.cache[id].item != before.cache[id].item <==>
            StaleWrite(before, step, id) && before.threads[step.t].item != before.cache[id].item)
  {
    InvRun(run, steps, i);
    StepAt(run, steps, i);
    var step := steps[i];
    if step.UpdateWrite? || step.CreateAdd? {
      assert Knows(run[i], run[i].threads[step.t]);
    }
  }

  /** GetOrCreate is atomic for each id, and no entry is evicted while an Update of it is under way. */
  predicate Calm(s: State, step: Step) {
    match step
    case CreateAdd(t) => t in s.threads && s.threads[t].id !in s.cache
    case Evict(id) => forall t | t in s.threads && s.threads[t].Updating? :: s.threads[t].id != id
    case _ => true
  }

  predicate CalmInv(s: State) {
    && Inv(s)
    && forall t | t in s.threads && s.threads[t].Updating? :: Live(s, s.threads[t].id)
  }

  lemma CalmStep(s: State, step: Step)
    requires CalmInv(s) && Enabled(s, step) && Calm(s, step)
    ensures CalmInv(Apply(s, step))
    ensures forall id :: !StaleWrite(s, step, id) || !Terminal(s, id)
  {
    InvStep(s, step);
    if step.UpdateWrite? {
      assert s.holder == {step.t};
    }
  }

  lemma {:induction false} CalmRun(run: seq<State>, steps: seq<Step>, i: nat)
    requires IsRun(run, steps) && i < |run|
    requires forall k :: 0 <= k < i ==> Calm(run[k], steps[k])
    ensures CalmInv(run[i])
  {
    if i > 0 {
      CalmRun(run, steps, i - 1);
      StepAt(run, steps, i - 1);
      CalmStep(run[i - 1], steps[i - 1]);
    }
  }

  /** Then nothing replaces a terminal item. */
  lemma {:induction false} CalmRunsKeepTerminalItems(run: seq<State>, steps: seq<Step>, i: nat, j: nat, id: Id)
    requires IsRun(run, steps) && i <= j < |run| && Terminal(run[i], id)
    requires forall k :: 0 <= k < j ==> Calm(run[k], steps[k])
    requires forall k :: i <= k < j ==> steps[k] != Delete(id) && steps[k] != Evict(id)
    ensures id in run[j].cache && run[j].cache[id].item == run[i].cache[id].item
  {
    if i < j {
      CalmRunsKeepTerminalItems(run, steps, i, j - 1, id);
      TerminalIsAbsorbing(run, steps, j - 1, id);
      CalmRun(run, steps, j - 1);
      StepAt(run, steps, j - 1);
      CalmStep(run[j - 1], steps[j - 1]);
    }
  }

  function Play(s: State, steps: seq<Step>): State
    decreases |steps|
  {
    if steps == [] then s
    else if Enabled(s, steps[0]) then Play(Apply(s, steps[0]), steps[1..])
    else s
  }

  /** Two calls of GetOrCreate race: the second write replaces the first one's terminal item. */
  lemma CreateRace(id: Id, final: Item, other: Item)
    requires final.terminal && !other.terminal
    ensures
      var s := Play(Init(), [CreateLook(0, id, final), CreateLook(1, id, other), CreateAdd(0)]);
      Terminal(s, id) && Enabled(s, CreateAdd(1)) && Live(Apply(s, CreateAdd(1)), id)
  {
    var s1 := Apply(Init(), CreateLook(0, id, final));
    var s2 := Apply(s1, CreateLook(1, id, other));
    var s3 := Apply(s2, CreateAdd(0));
    assert Play(s3, []) == s3;
    assert Play(s2, [CreateAdd(0)]) == s3;
    assert Play(s1, [CreateLook(1, id, other), CreateAdd(0)]) == s3;
  }

  /** An eviction during an Update lets it replace the terminal item of the entry's next life. */
  lemma EvictionRace(id: Id, first: Item, update: Item, final: Item)
    requires !first.terminal && !update.terminal && final.terminal
    ensures
      var s0 := Play(Init(), [CreateLook(0, id, first), CreateAdd(0), UpdateLook(1, id, update)]);
      var s := Play(s0, [Evict(id), CreateLook(2, id, final), CreateAdd(2)]);
      Terminal(s, id) && Enabled(s, UpdateWrite(1)) && Live(Apply(s, UpdateWrite(1)), id)
  {
    var s1 := Apply(Init(), CreateLook(0, id, first));
    var s2 := Apply(s1, CreateAdd(0));
    var s3 := Apply(s2, UpdateLook(1, id, update));
    assert Play(s2, [UpdateLook(1, id, update)]) == Play(s3, []) == s3;
    assert Play(s1, [CreateAdd(0), UpdateLook(1, id, update)]) == s3;
    var s4 := Apply(s3, Evict(id));
    var s5 := Apply(s4, CreateLook(2, id, final));
    var s6 := Apply(s5, CreateAdd(2));
    assert Play(s5, [CreateAdd(2)]) == Play(s6, []) == s6;
    assert Play(s4, [CreateLook(2, id, final), CreateAdd(2)]) == s6;
  }
}
