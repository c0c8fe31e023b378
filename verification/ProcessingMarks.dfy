/** The processing mark of one cached item that stays live, and the clock. */
module ProcessingMarks {
  import opened Base

  /** The mark is believed for five sync periods. */
  predicate Believed(now: nat, mark: Option<nat>, period: nat) {
    mark.Some? && now - mark.value <= 5 * period
  }

  /** Who has decided to enqueue: the creator of the item or the enqueue loop. */
  datatype Stage = Idle | Adding | Storing

  /** `cycle` is the longest time between two enqueue cycles. */
  datatype Config = Config(period: nat, cycle: nat)

  datatype State = State(
    now: nat,
    mark: Option<nat>,
    queued: nat,
    creator: Stage,
    enqueuer: Stage,
    lastCheck: nat,
    lastStore: nat,
    adds: nat,
    stores: nat)

  datatype Step = Tick(d: nat) | Check | Add | Store | CreatorAdd | CreatorStore | Take

  /** GetOrCreate has just added the item to the map. */
  function Init(now: nat): State {
    State(now, None, 0, Adding, Idle, now, now, 0, 0)
  }

  predicate Enabled(c: Config, s: State, step: Step) {
    match step
    case Tick(d) => s.now + d <= s.lastCheck + c.cycle
    case Check => s.enqueuer.Idle?
    case Add => s.enqueuer.Adding?
    case Store => s.enqueuer.Storing?
    case CreatorAdd => s.creator.Adding?
    case CreatorStore => s.creator.Storing?
    case Take => s.queued > 0
  }

  function Apply(c: Config, s: State, step: Step): State
    requires Enabled(c, s, step)
  {
    match step
    case Tick(d) => s.(now := s.now + d)
    case Check =>
      if Believed(s.now, s.mark, c.period) then s.(lastCheck := s.now)
      else s.(lastCheck := s.now, mark := None, enqueuer := Adding)
    case Add => s.(queued := s.queued + 1, enqueuer := Storing, adds := s.adds + 1)
    case Store => s.(mark := Some(s.now), enqueuer := Idle, lastStore := s.now, stores := s.stores + 1)
    case CreatorAdd => s.(queued := s.queued + 1, creator := Storing, adds := s.adds + 1)
    case CreatorStore => s.(mark := Some(s.now), creator := Idle, lastStore := s.now, stores := s.stores + 1)
    case Take => s.(queued := s.queued - 1, mark := None)
  }

  ghost predicate IsRun(c: Config, run: seq<State>, steps: seq<Step>) {
    && |run| == |steps| + 1 && run[0] == Init(run[0].now)
    && forall i :: 0 <= i < |steps| ==> Enabled(c, run[i], steps[i]) && run[i + 1] == Apply(c, run[i], steps[i])
  }

  lemma StepAt(c: Config, run: seq<State>, steps: seq<Step>, i: nat)
    requires IsRun(c, run, steps) && i < |steps|
    ensures Enabled(c, run[i], steps[i]) && run[i + 1] == Apply(c, run[i], steps[i])
  {
  }

  function Waiting(stage: Stage): nat {
    if stage.Storing? then 1 else 0
  }

  predicate Inv(c: Config, s: State) {
    && s.lastStore <= s.now && s.lastCheck <= s.now <= s.lastCheck + c.cycle
    && (s.mark.Some? ==> s.mark.value <= s.lastStore)
    && (s.enqueuer.Idle? ==> s.lastCheck <= s.lastStore + 5 * c.period)
    && s.adds == s.stores + Waiting(s.creator) + Waiting(s.enqueuer)
  }

  lemma {:induction false} InvRun(c: Config, run: seq<State>, steps: seq<Step>, i: nat)
    requires IsRun(c, run, steps) && i < |run|
    ensures Inv(c, run[i])
  {
    if i > 0 {
      InvRun(c, run, steps, i - 1);
      StepAt(c, run, steps, i - 1);
    }
  }

  lemma {:induction false} TimePasses(c: Config, run: seq<State>, steps: seq<Step>, i: nat, j: nat)
    requires IsRun(c, run, steps) && i <= j < |run|
    ensures run[i].now <= run[j].now && run[i].stores <= run[j].stores && run[i].adds <= run[j].adds
    ensures run[j].stores == run[i].stores ==> run[j].lastStore == run[i].lastStore
  {
    if i < j {
      TimePasses(c, run, steps, i, j - 1);
      StepAt(c, run, steps, j - 1);
    }
  }

  /** While nobody is enqueuing it, a live item was marked at most five periods and a cycle ago. */
  lemma MarksAreRenewed(c: Config, run: seq<State>, steps: seq<Step>, i: nat)
    requires IsRun(c, run, steps) && i < |run| && run[i].enqueuer.Idle?
    ensures run[i].now <= run[i].lastStore + 5 * c.period + c.cycle
  {
    InvRun(c, run, steps, i);
  }

  /** So a live item is enqueued again in every longer stretch of time, whenever workers drop its mark. */
  lemma ItemIsEnqueuedAgain(c: Config, run: seq<State>, steps: seq<Step>, i: nat, j: nat)
    requires IsRun(c, run, steps) && i <= j < |run| && run[j].enqueuer.Idle?
    requires run[j].now > run[i].now + 5 * c.period + c.cycle
    ensures run[j].stores > run[i].stores
    ensures run[j].adds >= run[j].stores
    ensures run[i].creator.Idle? && run[i].enqueuer.Idle? ==> run[j].adds > run[i].adds
  {
    InvRun(c, run, steps, i);
    InvRun(c, run, steps, j);
    TimePasses(c, run, steps, i, j);
  }

  lemma {:induction false} ChecksFollowStores(c: Config, run: seq<State>, steps: seq<Step>, i: nat)
    requires IsRun(c, run, steps) && i < |run|
    ensures run[i].lastCheck <= run[i].lastStore + 5 * c.period + c.cycle
  {
    if i > 0 {
      ChecksFollowStores(c, run, steps, i - 1);
      InvRun(c, run, steps, i - 1);
      StepAt(c, run, steps, i - 1);
    }
  }

  /** At any moment at all, in the middle of an enqueue cycle too, one cycle more suffices. */
  lemma ItemIsAlwaysEnqueuedAgain(c: Config, run: seq<State>, steps: seq<Step>, i: nat, j: nat)
    requires IsRun(c, run, steps) && i <= j < |run|
    requires run[j].now > run[i].now + 5 * c.period + 2 * c.cycle
    ensures run[j].stores > run[i].stores
    ensures run[i].creator.Idle? && run[i].enqueuer.Idle? ==> run[j].adds > run[i].adds
  {
    InvRun(c, run, steps, i);
    InvRun(c, run, steps, j);
    ChecksFollowStores(c, run, steps, j);
    TimePasses(c, run, steps, i, j);
  }

  lemma Extend(c: Config, run: seq<State>, steps: seq<Step>, step: Step) returns (run': seq<State>, steps': seq<Step>)
    requires |run| == |steps| + 1 && IsRun(c, run, steps) && Enabled(c, run[|steps|], step)
    ensures run' == run + [Apply(c, run[|steps|], step)] && steps' == steps + [step] && IsRun(c, run', steps')
  {
    run', steps' := run + [Apply(c, run[|steps|], step)], steps + [step];
  }

  /** Without that cycle the bound fails while the enqueuer is slow to add what it has picked. */
  lemma SlowAddIsLate() returns (run: seq<State>, steps: seq<Step>)
    ensures
      var c := Config(1, 5);
      && |run| == |steps| + 1 == 8 && IsRun(c, run, steps)
      && run[2].creator.Idle? && run[2].enqueuer.Idle?
      && run[7].now > run[2].now + 5 * c.period + c.cycle
      && run[7].adds == run[2].adds && run[7].stores == run[2].stores
  {
    var c := Config(1, 5);
    run, steps := [Init(0)], [];
    assert IsRun(c, run, steps);
    hide IsRun;
    run, steps := Extend(c, run, steps, CreatorAdd);
    run, steps := Extend(c, run, steps, CreatorStore);
    run, steps := Extend(c, run, steps, Tick(5));
    run, steps := Extend(c, run, steps, Check);
    run, steps := Extend(c, run, steps, Tick(5));
    run, steps := Extend(c, run, steps, Check);
    run, steps := Extend(c, run, steps, Tick(5));
  }

  /** After step t, a Take, nothing is queued, and nothing is added before step n. */
  predicate EmptiedFor(run: seq<State>, steps: seq<Step>, t: nat, n: nat)
    requires t < n <= |steps| < |run|
  {
    steps[t] == Take && run[t + 1].queued == 0 && forall u :: t < u < n ==> steps[u] != Add
  }

  /** The mark that the creator stores stands for nothing in the queue exactly if a worker emptied the queue between the
      creator's Add and its Store, with no Add of the enqueuer after that. */
  lemma MarkOutlivesExactly(c: Config, run: seq<State>, steps: seq<Step>, a: nat, b: nat)
    requires IsRun(c, run, steps) && a < b < |steps| && steps[a] == CreatorAdd && steps[b] == CreatorStore
    ensures run[b + 1].mark == Some(run[b].now) && Believed(run[b + 1].now, run[b + 1].mark, c.period)
    ensures run[b + 1].queued == 0 <==> exists t :: a < t < b && EmptiedFor(run, steps, t, b)
  {
    StepAt(c, run, steps, b);
    EmptyExactly(c, run, steps, a, b);
  }

  lemma OneMoreStep(run: seq<State>, steps: seq<Step>, t: nat, n: nat)
    requires t < n < |steps| < |run|
    ensures EmptiedFor(run, steps, t, n + 1) <==> EmptiedFor(run, steps, t, n) && steps[n] != Add
  {
    if EmptiedFor(run, steps, t, n) && steps[n] != Add {
      forall u | t < u < n + 1 ensures steps[u] != Add {
        if u < n {
          assert steps[u] != Add;
        }
      }
    }
  }

  lemma {:induction false} EmptyExactly(c: Config, run: seq<State>, steps: seq<Step>, a: nat, n: nat)
    requires IsRun(c, run, steps) && a < n <= |steps| && steps[a] == CreatorAdd
    ensures !run[n].creator.Adding?
    ensures run[n].queued == 0 <==> exists t :: a < t < n && EmptiedFor(run, steps, t, n)
  {
    StepAt(c, run, steps, a);
    if n > a + 1 {
      EmptyExactly(c, run, steps, a, n - 1);
      StepAt(c, run, steps, n - 1);
      hide IsRun;
      if run[n].queued == 0 {
        if steps[n - 1] == Take {
          assert EmptiedFor(run, steps, n - 1, n);
        } else {
          var t :| a < t < n - 1 && EmptiedFor(run, steps, t, n - 1);
          OneMoreStep(run, steps, t, n - 1);
        }
      }
      if t :| a < t < n && EmptiedFor(run, steps, t, n) {
        if t < n - 1 {
          OneMoreStep(run, steps, t, n - 1);
          assert run[n - 1].queued == 0;
        }
      }
    }
  }

  /** A worker that is quicker than the creator leaves a mark behind with nothing queued. */
  lemma MarkCanOutliveItsEvent(c: Config, now: nat)
    ensures
      var s1 := Apply(c, Init(now), CreatorAdd);
      var s2 := Apply(c, s1, Take);
      var s3 := Apply(c, s2, CreatorStore);
      s3.queued == 0 && s3.creator.Idle? && Believed(s3.now, s3.mark, c.period)
  {
  }
}
