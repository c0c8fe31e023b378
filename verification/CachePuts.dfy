/** Put as its two separate steps, read then write, next to the lease protocol that serializes callers. */
module CachePuts {
  import opened Base
  import opened ReservationTable
  import L = LeaseProtocol

  /** A stored output; times are those of its metadata. */
  datatype Entry = Entry(uri: string, createdAt: int, lastUpdated: int)

  datatype Request = Request(key: string, uri: string, overwrite: bool, maxAge: Option<int>, createdAt: Option<int>)

  datatype PutPc = ReadDone(existing: Option<Entry>) | Stored | Refused

  /** A Put call of an owner; `covered` stays true while the owner has held the key ever since the read. */
  datatype Put = Put(owner: string, request: Request, now: int, covered: bool, pc: PutPc)

  datatype State = State(lease: L.State, outputs: map<string, Entry>, puts: map<nat, Put>)

  datatype Step =
    | Lease(step: L.Step)
    | Read(id: nat, owner: string, request: Request, now: int)
    | Write(id: nat)
    | Delete(key: string)

  /** An existing entry stands in the way unless the request overwrites it or finds it older than maxAge. */
  predicate Blocks(existing: Option<Entry>, request: Request, clock: int) {
    && existing.Some?
    && !request.overwrite
    && !(request.maxAge.Some? && clock - existing.value.lastUpdated > request.maxAge.value)
  }

  /** mergeMetadata: the request's own creation time wins, then the existing one, then now. */
  function Merged(existing: Option<Entry>, request: Request, now: int): Entry {
    var created := if request.createdAt.Some? then request.createdAt.value
                   else if existing.Some? then existing.value.createdAt
                   else now;
    Entry(request.uri, created, now)
  }

  function Lookup(outputs: map<string, Entry>, key: string): Option<Entry> {
    if key in outputs then Some(outputs[key]) else None
  }

  function Init(clock: int): State {
    State(L.Init(clock), map[], map[])
  }

  /** Drops the cover of every put whose owner no longer holds its key. */
  function Recover(lease: L.State, puts: map<nat, Put>): map<nat, Put> {
    map id | id in puts ::
      puts[id].(covered := puts[id].covered && L.Holds(lease, puts[id].request.key, puts[id].owner))
  }

  predicate Running(s: State, id: nat) {
    id in s.puts && s.puts[id].pc.ReadDone?
  }

  predicate Enabled(s: State, step: Step) {
    match step
    case Lease(l) => L.Enabled(s.lease, l)
    case Read(id, _, request, _) => id !in s.puts && request.key != "" && request.uri != ""
    case Write(id) => Running(s, id)
    case Delete(_) => true
  }

  function Apply(cfg: Config, s: State, step: Step): State
    requires cfg.Valid() && Enabled(s, step)
  {
    match step
    case Lease(l) =>
      var lease := L.Apply(cfg, s.lease, l);
      s.(lease := lease, puts := Recover(lease, s.puts))
    case Read(id, owner, request, now) =>
      var existing := Lookup(s.outputs, request.key);
      var pc := if Blocks(existing, request, s.lease.clock) then Refused else ReadDone(existing);
      s.(puts := s.puts[id := Put(owner, request, now, L.Holds(s.lease, request.key, owner), pc)])
    case Write(id) =>
      var p := s.puts[id];
      s.(outputs := s.outputs[p.request.key := Merged(p.pc.existing, p.request, p.now)],
         puts := s.puts[id := p.(pc := Stored)])
    case Delete(key) => s.(outputs := s.outputs - {key})
  }

  ghost predicate IsRun(cfg: Config, run: seq<State>, steps: seq<Step>)
    requires cfg.Valid()
  {
    && |run| == |steps| + 1 && run[0] == Init(run[0].lease.clock)
    && forall n :: 0 <= n < |steps| ==> Enabled(run[n], steps[n]) && run[n + 1] == Apply(cfg, run[n], steps[n])
  }

  /** The caller's side of the bargain: clocks that do not run ahead, and every write made under a lease held since
      the read. */
  predicate Leased(s: State, step: Step) {
    match step
    case Lease(l) => L.Timely(s.lease, l)
    case Write(id) => id in s.puts && s.puts[id].covered
    case _ => true
  }

  ghost predicate IsLeasedRun(cfg: Config, run: seq<State>, steps: seq<Step>)
    requires cfg.Valid()
  {
    IsRun(cfg, run, steps) && forall n :: 0 <= n < |steps| ==> Leased(run[n], steps[n])
  }

  lemma StepAt(cfg: Config, run: seq<State>, steps: seq<Step>, n: nat)
    requires cfg.Valid() && n < |steps| && IsRun(cfg, run, steps)
    ensures |run| == |steps| + 1 && Enabled(run[n], steps[n]) && run[n + 1] == Apply(cfg, run[n], steps[n])
  {
  }

  /** A covered put's owner holds its key. */
  ghost predicate Inv(s: State) {
    L.Inv(s.lease) && forall id | id in s.puts && s.puts[id].covered :: L.Holds(s.lease, s.puts[id].request.key, s.puts[id].owner)
  }

  lemma InvStep(cfg: Config, s: State, step: Step)
    requires cfg.Valid() && Enabled(s, step) && Leased(s, step) && Inv(s)
    ensures Inv(Apply(cfg, s, step))
  {
    if step.Lease? {
      L.InvStep(cfg, s.lease, step.step);
    }
  }

  lemma {:induction false} InvRun(cfg: Config, run: seq<State>, steps: seq<Step>, n: nat)
    requires cfg.Valid() && n < |run| && IsLeasedRun(cfg, run, steps)
    ensures Inv(run[n])
  {
    if n > 0 {
      InvRun(cfg, run, steps, n - 1);
      StepAt(cfg, run, steps, n - 1);
      assert Leased(run[n - 1], steps[n - 1]);
      InvStep(cfg, run[n - 1], steps[n - 1]);
    }
  }

  /** Step r is the read of put id. */
  predicate ReadBy(steps: seq<Step>, r: nat, id: nat) {
    r < |steps| && steps[r].Read? && steps[r].id == id
  }

  /** What a put remembers of its read. */
  lemma {:induction false} PutRemembers(cfg: Config, run: seq<State>, steps: seq<Step>, r: nat, n: nat)
    requires cfg.Valid() && r < |steps| && r < n < |run| && IsRun(cfg, run, steps) && steps[r].Read?
    ensures
      var id, request := steps[r].id, steps[r].request;
      id in run[n].puts && var p := run[n].puts[id];
      && p.owner == steps[r].owner && p.request == request && p.now == steps[r].now
      && (Running(run[n], id) ==> p.pc.existing == Lookup(run[r].outputs, request.key))
  {
    if n == r + 1 {
      StepAt(cfg, run, steps, r);
    } else {
      PutRemembers(cfg, run, steps, r, n - 1);
      StepAt(cfg, run, steps, n - 1);
    }
  }

  /** A put that is covered was covered, and running, ever since its read. */
  lemma {:induction false} CoveredSinceRead(cfg: Config, run: seq<State>, steps: seq<Step>, r: nat, k: nat, n: nat)
    requires cfg.Valid() && r < |steps| && r < k <= n < |run| && IsRun(cfg, run, steps) && steps[r].Read?
    requires Running(run[n], steps[r].id) && run[n].puts[steps[r].id].covered
    ensures Running(run[k], steps[r].id) && run[k].puts[steps[r].id].covered
  {
    if k < n {
      PutRemembers(cfg, run, steps, r, n - 1);
      StepAt(cfg, run, steps, n - 1);
      CoveredSinceRead(cfg, run, steps, r, k, n - 1);
    }
  }

  /** Step w stores an entry under the key. */
  predicate Stores(run: seq<State>, steps: seq<Step>, w: nat, key: string)
    requires w < |steps| < |run|
  {
    steps[w].Write? && steps[w].id in run[w].puts && run[w].puts[steps[w].id].request.key == key
  }

  /** The step that stored the entry under the key in state n, if there is one. */
  function LastStore(run: seq<State>, steps: seq<Step>, key: string, n: nat): Option<nat>
    requires n <= |steps| < |run|
  {
    if n == 0 || steps[n - 1] == Delete(key) then None
    else if Stores(run, steps, n - 1, key) then Some(n - 1)
    else LastStore(run, steps, key, n - 1)
  }

  lemma {:induction false} LastStoreIsThere(cfg: Config, run: seq<State>, steps: seq<Step>, key: string, n: nat)
    requires cfg.Valid() && |run| == |steps| + 1 && n <= |steps| && IsRun(cfg, run, steps)
    ensures
      match LastStore(run, steps, key, n)
      case None => key !in run[n].outputs
      case Some(w) =>
        && w < n && Stores(run, steps, w, key) && key in run[w + 1].outputs
        && key in run[n].outputs && run[n].outputs[key] == run[w + 1].outputs[key]
  {
    if n > 0 {
      LastStoreIsThere(cfg, run, steps, key, n - 1);
      StepAt(cfg, run, steps, n - 1);
    }
  }

  /** In state n the entry under the key is the one that was there in state r, or there is none. */
  predicate SameOrGone(run: seq<State>, steps: seq<Step>, key: string, r: nat, n: nat)
    requires r <= n <= |steps| < |run|
  {
    LastStore(run, steps, key, n).None? || LastStore(run, steps, key, n) == LastStore(run, steps, key, r)
  }

  /** Between r and n an entry was stored that was not deleted again. */
  ghost predicate Overtaken(run: seq<State>, steps: seq<Step>, key: string, r: nat, n: nat)
    requires r <= n <= |steps| < |run|
  {
    exists w :: r < w < n && Stores(run, steps, w, key) && Stays(steps, key, w, n)
  }

  predicate Stays(steps: seq<Step>, key: string, w: nat, n: nat)
    requires w < n <= |steps|
  {
    forall d :: w < d < n ==> steps[d] != Delete(key)
  }

  lemma {:induction false} OvertakenExactly(run: seq<State>, steps: seq<Step>, key: string, r: nat, n: nat)
    requires r < n <= |steps| < |run| && steps[r].Read?
    ensures SameOrGone(run, steps, key, r, n) <==> !Overtaken(run, steps, key, r, n)
    ensures LastStore(run, steps, key, r).None? || LastStore(run, steps, key, r).value < r
    ensures LastStore(run, steps, key, n).None? || LastStore(run, steps, key, n).value < n
  {
    StoredBefore(run, steps, key, r);
    StoredBefore(run, steps, key, n);
    if n > r + 1 {
      OvertakenExactly(run, steps, key, r, n - 1);
      if steps[n - 1] == Delete(key) {
        assert !Overtaken(run, steps, key, r, n);
      } else if Stores(run, steps, n - 1, key) {
        assert Stays(steps, key, n - 1, n);
      } else {
        OneQuietStep(run, steps, key, r, n - 1);
      }
    }
  }

  lemma {:induction false} StoredBefore(run: seq<State>, steps: seq<Step>, key: string, n: nat)
    requires n <= |steps| < |run|
    ensures LastStore(run, steps, key, n).None? || LastStore(run, steps, key, n).value < n
  {
    if n > 0 {
      StoredBefore(run, steps, key, n - 1);
    }
  }

  lemma OneQuietStep(run: seq<State>, steps: seq<Step>, key: string, r: nat, n: nat)
    requires r < n < |steps| < |run| && steps[n] != Delete(key) && !Stores(run, steps, n, key)
    ensures Overtaken(run, steps, key, r, n + 1) <==> Overtaken(run, steps, key, r, n)
  {
    forall w | r < w < n ensures Stays(steps, key, w, n + 1) <==> Stays(steps, key, w, n) {
    }
  }

  /** The owner itself overtook its put. */
  ghost predicate OwnPutOvertook(run: seq<State>, steps: seq<Step>, r: nat, n: nat)
    requires r < n <= |steps| < |run| && steps[r].Read?
  {
    exists w :: r < w < n && Stores(run, steps, w, steps[r].request.key) && Stays(steps, steps[r].request.key, w, n)
                && run[w].puts[steps[w].id].owner == steps[r].owner
  }

  /** Under a lease only the owner's own puts can have come between. */
  lemma OnlyOwnPutsOvertake(cfg: Config, run: seq<State>, steps: seq<Step>, r: nat, n: nat)
    requires cfg.Valid() && |run| == |steps| + 1 && r < n < |steps| && IsLeasedRun(cfg, run, steps)
    requires steps[r].Read? && steps[n] == Write(steps[r].id)
    ensures OwnPutOvertook(run, steps, r, n) <==> Overtaken(run, steps, steps[r].request.key, r, n)
  {
    var key := steps[r].request.key;
    forall w | r < w < n && Stores(run, steps, w, key) ensures run[w].puts[steps[w].id].owner == steps[r].owner {
      assert Leased(run[n], steps[n]) && Leased(run[w], steps[w]);
      StepAt(cfg, run, steps, n);
      CoveredSinceRead(cfg, run, steps, r, w, n);
      PutRemembers(cfg, run, steps, r, w);
      InvRun(cfg, run, steps, w);
    }
  }

  /** Under leases, read-then-write is atomic in effect exactly if the owner's own puts do not overlap: at the write
      the entry is the one that was read, or gone, if and only if no put of the same owner stored one since. */
  lemma AtomicExactly(cfg: Config, run: seq<State>, steps: seq<Step>, r: nat, n: nat)
    requires cfg.Valid() && |run| == |steps| + 1 && r < n < |steps| && IsLeasedRun(cfg, run, steps)
    requires steps[r].Read? && steps[n] == Write(steps[r].id)
    ensures SameOrGone(run, steps, steps[r].request.key, r, n) <==> !OwnPutOvertook(run, steps, r, n)
  {
    OvertakenExactly(run, steps, steps[r].request.key, r, n);
    OnlyOwnPutsOvertake(cfg, run, steps, r, n);
  }

  /** Then the put decides on the entry that is there, and keeps its creation time unless it names one. */
  lemma PutUnderLeaseIsAtomic(cfg: Config, run: seq<State>, steps: seq<Step>, r: nat, n: nat)
    requires cfg.Valid() && |run| == |steps| + 1 && r < n < |steps| && IsLeasedRun(cfg, run, steps)
    requires steps[r].Read? && steps[n] == Write(steps[r].id) && !OwnPutOvertook(run, steps, r, n)
    ensures
      var s, after, request := run[n], run[n + 1], steps[r].request;
      var key := request.key;
      && key in after.outputs
      && after.outputs[key].uri == request.uri && after.outputs[key].lastUpdated == steps[r].now
      && (key in s.outputs && request.createdAt == None ==>
            after.outputs[key].createdAt == s.outputs[key].createdAt)
      && (request.createdAt.Some? ==> after.outputs[key].createdAt == request.createdAt.value)
      && (key !in run[r].outputs && request.createdAt == None ==> after.outputs[key].createdAt == steps[r].now)
      && (forall k :: k != key ==> Lookup(after.outputs, k) == Lookup(s.outputs, k))
      && (key in s.outputs ==> Running(s, steps[r].id) && s.puts[steps[r].id].pc.existing == Some(s.outputs[key]))
  {
    var key := steps[r].request.key;
    AtomicExactly(cfg, run, steps, r, n);
    LastStoreIsThere(cfg, run, steps, key, r);
    LastStoreIsThere(cfg, run, steps, key, n);
    PutRemembers(cfg, run, steps, r, n);
    StepAt(cfg, run, steps, n);
  }

  /** A running put would pass its guard on the entry it read at any time since. */
  lemma {:induction false} RunningWasNotBlocked(cfg: Config, run: seq<State>, steps: seq<Step>, n: nat, id: nat)
    requires cfg.Valid() && n < |run| && IsRun(cfg, run, steps) && Running(run[n], id)
    ensures
      var p := run[n].puts[id];
      !Blocks(p.pc.existing, p.request, run[n].lease.clock)
  {
    if n > 0 {
      StepAt(cfg, run, steps, n - 1);
      ClockAdvances(cfg, run[n - 1], steps[n - 1]);
      if Running(run[n - 1], id) {
        RunningWasNotBlocked(cfg, run, steps, n - 1, id);
      }
    }
  }

  lemma ClockAdvances(cfg: Config, s: State, step: Step)
    requires cfg.Valid() && Enabled(s, step)
    ensures Apply(cfg, s, step).lease.clock >= s.lease.clock
  {
  }

  /** So a write that was not overtaken still passes the guard that was passed at the read, against what it replaces. */
  lemma WriteIsStillAllowed(cfg: Config, run: seq<State>, steps: seq<Step>, r: nat, n: nat)
    requires cfg.Valid() && |run| == |steps| + 1 && r < n < |steps| && IsLeasedRun(cfg, run, steps)
    requires steps[r].Read? && steps[n] == Write(steps[r].id) && !OwnPutOvertook(run, steps, r, n)
    ensures !Blocks(Lookup(run[n].outputs, steps[r].request.key), steps[r].request, run[n].lease.clock)
  {
    PutUnderLeaseIsAtomic(cfg, run, steps, r, n);
    PutRemembers(cfg, run, steps, r, n);
    StepAt(cfg, run, steps, n);
    RunningWasNotBlocked(cfg, run, steps, n, steps[r].id);
  }

  /** A Put without overwrite or maxAge replaces an entry exactly if a put of the same owner overtook it. */
  lemma PlainPutNeverReplaces(cfg: Config, run: seq<State>, steps: seq<Step>, r: nat, n: nat)
    requires cfg.Valid() && |run| == |steps| + 1 && r < n < |steps| && IsLeasedRun(cfg, run, steps)
    requires steps[r].Read? && steps[n] == Write(steps[r].id)
    requires !steps[r].request.overwrite && steps[r].request.maxAge == None
    ensures steps[r].request.key in run[n].outputs <==> OwnPutOvertook(run, steps, r, n)
  {
    var key := steps[r].request.key;
    PutRemembers(cfg, run, steps, r, n);
    StepAt(cfg, run, steps, n);
    RunningWasNotBlocked(cfg, run, steps, n, steps[r].id);
    AtomicExactly(cfg, run, steps, r, n);
    LastStoreIsThere(cfg, run, steps, key, r);
    LastStoreIsThere(cfg, run, steps, key, n);
  }

  /** A write to the key that names no creation time, and that was not overtaken since state i if its read is older. */
  ghost predicate KeepsCreation(run: seq<State>, steps: seq<Step>, key: string, i: nat, n: nat)
    requires n < |steps| < |run|
  {
    Stores(run, steps, n, key) ==>
      && run[n].puts[steps[n].id].request.createdAt == None
      && forall r | 0 <= r < i && r < n && ReadBy(steps, r, steps[n].id) :: !OwnPutOvertook(run, steps, r, n)
  }

  /** Over any history in which no one deletes the entry or names a creation time for it, CreatedAt stays, unless a put
      that read before the history began was overtaken. */
  lemma {:induction false} CreatedAtStays(cfg: Config, run: seq<State>, steps: seq<Step>, key: string, i: nat, j: nat)
    requires cfg.Valid() && |run| == |steps| + 1 && i <= j < |run| && IsLeasedRun(cfg, run, steps) && key in run[i].outputs
    requires forall n :: i <= n < j ==> steps[n] != Delete(key) && KeepsCreation(run, steps, key, i, n)
    ensures forall k :: i <= k <= j ==> key in run[k].outputs && run[k].outputs[key].createdAt == run[i].outputs[key].createdAt
  {
    if i < j {
      CreatedAtStays(cfg, run, steps, key, i, j - 1);
      StepAt(cfg, run, steps, j - 1);
      if Stores(run, steps, j - 1, key) {
        WriteKeepsCreation(cfg, run, steps, key, i, j - 1);
      }
    }
  }

  lemma WriteKeepsCreation(cfg: Config, run: seq<State>, steps: seq<Step>, key: string, i: nat, n: nat)
    requires cfg.Valid() && |run| == |steps| + 1 && i <= n < |steps| && IsLeasedRun(cfg, run, steps)
    requires Stores(run, steps, n, key) && KeepsCreation(run, steps, key, i, n) && key in run[i].outputs
    requires forall k :: i <= k <= n ==> key in run[k].outputs && run[k].outputs[key].createdAt == run[i].outputs[key].createdAt
    ensures key in run[n + 1].outputs && run[n + 1].outputs[key].createdAt == run[i].outputs[key].createdAt
  {
    var r := FindRead(cfg, run, steps, n, steps[n].id);
    StepAt(cfg, run, steps, n);
    PutRemembers(cfg, run, steps, r, n);
    if r < i {
      PutUnderLeaseIsAtomic(cfg, run, steps, r, n);
    }
  }

  /** Every put began with a read. */
  lemma {:induction false} FindRead(cfg: Config, run: seq<State>, steps: seq<Step>, n: nat, id: nat) returns (r: nat)
    requires cfg.Valid() && |run| == |steps| + 1 && n <= |steps| && IsRun(cfg, run, steps) && id in run[n].puts
    ensures r < n && ReadBy(steps, r, id)
  {
    StepAt(cfg, run, steps, n - 1);
    if id in run[n - 1].puts {
      r := FindRead(cfg, run, steps, n - 1, id);
    } else {
      r := n - 1;
    }
  }

  lemma Extend(cfg: Config, run: seq<State>, steps: seq<Step>, step: Step) returns (run': seq<State>, steps': seq<Step>)
    requires cfg.Valid() && |run| == |steps| + 1 && IsLeasedRun(cfg, run, steps)
    requires Enabled(run[|steps|], step) && Leased(run[|steps|], step)
    ensures run' == run + [Apply(cfg, run[|steps|], step)] && steps' == steps + [step] && IsLeasedRun(cfg, run', steps')
  {
    run', steps' := run + [Apply(cfg, run[|steps|], step)], steps + [step];
  }

  /** The first lease on a key, step by step. */
  lemma GrantLease(cfg: Config, key: string, owner: string, clock: int) returns (run: seq<State>, steps: seq<Step>)
    requires cfg.Valid() && key != "" && owner != ""
    ensures |run| == |steps| + 1 == 4 && IsLeasedRun(cfg, run, steps)
    ensures run[3].outputs == map[] && run[3].puts == map[] && L.Holds(run[3].lease, key, owner)
  {
    run, steps := [Init(clock)], [];
    ShortestTerm(cfg);
    assert IsLeasedRun(cfg, run, steps);
    hide IsLeasedRun;
    run, steps := Extend(cfg, run, steps, Lease(L.Begin(0, key, owner, Some(1), clock)));
    run, steps := Extend(cfg, run, steps, Lease(L.FirstRead(0)));
    run, steps := Extend(cfg, run, steps, Lease(L.Insert(0, true)));
  }

  /** Which Puts get past the guard: a Put is refused exactly if it finds an entry under its key which the request neither
      overwrites nor finds older than its maxAge. That is settled at its read and stays so. */
  lemma {:induction false} RefusedExactly(cfg: Config, run: seq<State>, steps: seq<Step>, r: nat, n: nat)
    requires cfg.Valid() && |run| == |steps| + 1 && r < |steps| && r < n < |run| && IsRun(cfg, run, steps) && steps[r].Read?
    ensures steps[r].id in run[n].puts
    ensures
      var s, request := run[r], steps[r].request;
      run[n].puts[steps[r].id].pc.Refused? <==>
        && request.key in s.outputs && !request.overwrite
        && (request.maxAge.Some? ==> s.lease.clock - s.outputs[request.key].lastUpdated <= request.maxAge.value)
  {
    if n == r + 1 {
      StepAt(cfg, run, steps, r);
    } else {
      RefusedExactly(cfg, run, steps, r, n - 1);
      StepAt(cfg, run, steps, n - 1);
      hide IsRun, Blocks;
    }
  }

  lemma ExtendRun(cfg: Config, run: seq<State>, steps: seq<Step>, step: Step) returns (run': seq<State>, steps': seq<Step>)
    requires cfg.Valid() && |run| == |steps| + 1 && IsRun(cfg, run, steps) && Enabled(run[|steps|], step)
    ensures run' == run + [Apply(cfg, run[|steps|], step)] && steps' == steps + [step] && IsRun(cfg, run', steps')
  {
    run', steps' := run + [Apply(cfg, run[|steps|], step)], steps + [step];
  }

  /** A Put that meets no other call: if it may, it stores its uri with the times it should have, and leaves all other
      keys alone; an overwriting one always may. */
  lemma PutAlone(cfg: Config, run: seq<State>, steps: seq<Step>, id: nat, owner: string, request: Request, now: int)
      returns (run': seq<State>, steps': seq<Step>)
    requires cfg.Valid() && |run| == |steps| + 1 && IsRun(cfg, run, steps)
    requires id !in run[|steps|].puts && request.key != "" && request.uri != ""
    ensures |run'| == |steps'| + 1 && run <= run' && steps + [Read(id, owner, request, now)] <= steps' && IsRun(cfg, run', steps')
    ensures
      var before, after, key := run[|steps|].outputs, run'[|steps'|].outputs, request.key;
      var mayStore :=
        || key !in before || request.overwrite
        || (request.maxAge.Some? && run[|steps|].lease.clock - before[key].lastUpdated > request.maxAge.value);
      && id in run'[|steps'|].puts && run'[|steps'|].puts[id].pc == (if mayStore then Stored else Refused)
      && (!mayStore ==> after == before)
      && (mayStore ==>
            && after.Keys == before.Keys + {key} && (forall k | k in before && k != key :: after[k] == before[k])
            && after[key].uri == request.uri && after[key].lastUpdated == now
            && (request.createdAt.Some? ==> after[key].createdAt == request.createdAt.value)
            && (request.createdAt.None? && key in before ==> after[key].createdAt == before[key].createdAt)
            && (request.createdAt.None? && key !in before ==> after[key].createdAt == now))
  {
    hide IsRun;
    run', steps' := ExtendRun(cfg, run, steps, Read(id, owner, request, now));
    if run'[|steps'|].puts[id].pc.ReadDone? {
      run', steps' := ExtendRun(cfg, run', steps', Write(id));
    }
  }

  /** The owner of a lease can undo its own put: two plain puts of one owner both read "absent" under its lease, and the
      second replaces the first. */
  lemma OwnPutsReplace(cfg: Config, key: string, owner: string, uri1: string, uri2: string, now: int)
      returns (run: seq<State>, steps: seq<Step>)
    requires cfg.Valid() && key != "" && owner != "" && uri1 != "" && uri2 != ""
    ensures |run| == |steps| + 1 == 8 && IsLeasedRun(cfg, run, steps)
    ensures steps[3..] == [Read(1, owner, Request(key, uri1, false, None, None), now),
                           Read(2, owner, Request(key, uri2, false, None, None), now), Write(1), Write(2)]
    ensures run[6].outputs == map[key := Entry(uri1, now, now)] && run[7].outputs == map[key := Entry(uri2, now, now)]
  {
    run, steps := GrantLease(cfg, key, owner, now);
    hide IsLeasedRun, L.Holds;
    run, steps := Extend(cfg, run, steps, Read(1, owner, Request(key, uri1, false, None, None), now));
    run, steps := Extend(cfg, run, steps, Read(2, owner, Request(key, uri2, false, None, None), now));
    run, steps := Extend(cfg, run, steps, Write(1));
    run, steps := Extend(cfg, run, steps, Write(2));
  }

  /** Without leases two plain puts can both read "absent", and the second replaces the first. */
  lemma UncoveredPutsReplace(cfg: Config) returns (s: State)
    requires cfg.Valid()
    ensures
      var plain1 := Request("k", "u1", false, None, None);
      var plain2 := Request("k", "u2", false, None, None);
      var s1 := Apply(cfg, Init(0), Read(1, "a", plain1, 0));
      Enabled(s1, Read(2, "b", plain2, 0)) && var s2 := Apply(cfg, s1, Read(2, "b", plain2, 0));
      Enabled(s2, Write(1)) && var s3 := Apply(cfg, s2, Write(1));
      Enabled(s3, Write(2)) && s == Apply(cfg, s3, Write(2))
      && s3.outputs == map["k" := Entry("u1", 0, 0)] && s.outputs == map["k" := Entry("u2", 0, 0)]
  {
    var s1 := Apply(cfg, Init(0), Read(1, "a", Request("k", "u1", false, None, None), 0));
    var s2 := Apply(cfg, s1, Read(2, "b", Request("k", "u2", false, None, None), 0));
    var s3 := Apply(cfg, s2, Write(1));
    s := Apply(cfg, s3, Write(2));
  }
}
