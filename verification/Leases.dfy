/** Calls of GetOrExtendReservation and ReleaseReservation, interleaved at every repository statement. */
module LeaseProtocol {
  import opened Base
  import opened ReservationTable

  /** Where a GetOrExtendReservation call stands. */
  datatype Pc =
    | Started
    | Found
    | Missing
    | Conflicted
    | Returned(row: Row)
    | Failed

  datatype Call = Call(key: string, row: Row, now: int, pc: Pc)

  /** `held` records, per key and owner, the latest expiry the owner wrote since it last released the key. */
  datatype State = State(
    table: Table,
    calls: map<nat, Call>,
    held: map<(string, string), int>,
    clock: int)

  /** A write whose answer is lost takes effect, and the call fails all the same. */
  datatype Step =
    | Begin(id: nat, key: string, owner: string, requested: Option<int>, now: int)
    | FirstRead(id: nat)
    | Update(id: nat, answered: bool)
    | Insert(id: nat, answered: bool)
    | Reread(id: nat)
    | RepoFailure(id: nat)
    | Release(key: string, owner: string)
    | Tick(to: int)

  function Init(clock: int): State {
    State(map[], map[], map[], clock)
  }

  predicate AtPc(s: State, id: nat, pc: Pc) {
    id in s.calls && s.calls[id].pc == pc
  }

  predicate Enabled(s: State, step: Step) {
    match step
    case Begin(id, _, _, _, _) => id !in s.calls
    case FirstRead(id) => AtPc(s, id, Started)
    case Update(id, _) => AtPc(s, id, Found)
    case Insert(id, _) => AtPc(s, id, Missing)
    case Reread(id) => AtPc(s, id, Conflicted)
    case RepoFailure(id) => id in s.calls && !s.calls[id].pc.Returned?
    case Release(_, _) => true
    case Tick(to) => s.clock <= to
  }

  function SetPc(s: State, id: nat, pc: Pc): State
    requires id in s.calls
  {
    s.(calls := s.calls[id := s.calls[id].(pc := pc)])
  }

  /** The state after the caller's own row is stored, and returned to it unless the answer is lost. */
  function Granted(s: State, id: nat, table: Table, answered: bool): State
    requires id in s.calls
  {
    var c := s.calls[id];
    SetPc(s, id, if answered then Returned(c.row) else Failed)
      .(table := table, held := s.held[(c.key, c.row.owner) := c.row.expiresAt])
  }

  function Apply(cfg: Config, s: State, step: Step): State
    requires cfg.Valid() && Enabled(s, step)
  {
    match step
    case Begin(id, key, owner, requested, now) =>
      var pc := if key == "" || owner == "" then Failed else Started;
      s.(calls := s.calls[id := Call(key, OwnRow(cfg, owner, requested, now), now, pc)])
    case FirstRead(id) =>
      SetPc(s, id, if Get(s.table, s.calls[id].key).Ok? then Found else Missing)
    case Update(id, answered) =>
      var c := s.calls[id];
      (match UpdateIfExpiredOrOwned(s.table, c.key, c.row, c.now)
       case Ok(table) => Granted(s, id, table, answered)
       case Err(_) => SetPc(s, id, if answered then Conflicted else Failed))
    case Insert(id, answered) =>
      var c := s.calls[id];
      (match Create(s.table, c.key, c.row)
       case Ok(table) => Granted(s, id, table, answered)
       case Err(_) => SetPc(s, id, if answered then Conflicted else Failed))
    case Reread(id) =>
      (match Get(s.table, s.calls[id].key)
       case Ok(row) => SetPc(s, id, Returned(row))
       case Err(_) => SetPc(s, id, Failed))
    case RepoFailure(id) => SetPc(s, id, Failed)
    case Release(key, owner) =>
      var gone := DeleteByKeyAndOwner(s.table, key, owner);
      s.(table := if gone.Ok? then gone.value else s.table, held := s.held - {(key, owner)})
    case Tick(to) => s.(clock := to)
  }

  /** run[n+1] follows from run[n] by steps[n]. */
  ghost predicate IsRun(cfg: Config, run: seq<State>, steps: seq<Step>)
    requires cfg.Valid()
  {
    && |run| == |steps| + 1
    && forall n :: 0 <= n < |steps| ==> Enabled(run[n], steps[n]) && run[n + 1] == Apply(cfg, run[n], steps[n])
  }

  /** A key changes hands only by an update of a row expired at the claimer's `now`, goes only by a
      release of its own owner, and comes back only by an insert. */
  lemma OwnershipMoves(cfg: Config, s: State, step: Step, key: string)
    requires cfg.Valid() && Enabled(s, step)
    ensures
      var after := Apply(cfg, s, step);
      && (key in s.table && key in after.table && s.table[key].owner != after.table[key].owner ==>
            && step.Update? && s.calls[step.id].key == key
            && after.table[key] == s.calls[step.id].row
            && s.table[key].expiresAt <= s.calls[step.id].now)
      && (key in s.table && key !in after.table <==>
          step.Release? && step.key == key && key in s.table && s.table[key].owner == step.owner)
      && (key !in s.table && key in after.table <==>
          step.Insert? && s.calls[step.id].key == key && key !in s.table)
  {}

  /** One step of a call: it keeps its request, and each outcome is tied to the table of that moment. */
  lemma CallStep(cfg: Config, s: State, step: Step, id: nat)
    requires cfg.Valid() && Enabled(s, step) && id in s.calls
    ensures
      var before, after := s.calls[id], Apply(cfg, s, step);
      id in after.calls && var c := after.calls[id];
      && c.key == before.key && c.row == before.row && c.now == before.now
      && (c.pc.Returned? && c.pc != before.pc ==> c.key in after.table && c.pc.row == after.table[c.key])
      && (before.pc != Failed && !Faulty(step, id) ==>
            (c.pc == Failed <==> step == Reread(id) && c.key !in s.table))
      && (SawRow(c.pc) ==> SawRow(before.pc) || c.key in after.table)
  {}

  /** The call is told of an error by the repository. */
  predicate Faulty(step: Step, id: nat) {
    step == RepoFailure(id) || step == Update(id, false) || step == Insert(id, false)
  }

  predicate SawRow(pc: Pc) {
    pc == Found || pc == Conflicted
  }

  lemma StepAt(cfg: Config, run: seq<State>, steps: seq<Step>, n: nat)
    requires cfg.Valid() && IsRun(cfg, run, steps) && 0 < n < |run|
    ensures Enabled(run[n - 1], steps[n - 1]) && run[n] == Apply(cfg, run[n - 1], steps[n - 1])
  {}

  /** A step that introduces a call leaves it started, or failed when its key or owner is empty. */
  lemma CallBegins(cfg: Config, s: State, step: Step, id: nat)
    requires cfg.Valid() && Enabled(s, step) && id !in s.calls && id in Apply(cfg, s, step).calls
    ensures
      var c := Apply(cfg, s, step).calls[id];
      && step.Begin? && step.id == id && c.row.owner == step.owner
      && c.pc == if c.key == "" || c.row.owner == "" then Failed else Started
  {}

  /** A row a call returns was in the table at some moment of that call. */
  lemma {:induction false} ReturnedRowWasStored(cfg: Config, run: seq<State>, steps: seq<Step>, id: nat, i: nat, j: nat)
      returns (m: nat)
    requires cfg.Valid() && |run| == |steps| + 1 && IsRun(cfg, run, steps)
    requires i < j < |run| && id !in run[i].calls
    requires id in run[j].calls && run[j].calls[id].pc.Returned?
    ensures i < m <= j
    ensures var c := run[j].calls[id]; c.key in run[m].table && run[m].table[c.key] == c.pc.row
  {
    hide IsRun, Apply, Enabled;
    var before := run[j - 1];
    StepAt(cfg, run, steps, j);
    if id !in before.calls {
      CallBegins(cfg, before, steps[j - 1], id);
      assert false;
    } else {
      CallStep(cfg, before, steps[j - 1], id);
      if before.calls[id].pc == run[j].calls[id].pc {
        m := ReturnedRowWasStored(cfg, run, steps, id, i, j - 1);
      } else {
        m := j;
      }
    }
  }

  /** Without repository failures, a well-formed call fails only if its key was released while it ran. */
  lemma {:induction false} FailsOnlyAfterRelease(cfg: Config, run: seq<State>, steps: seq<Step>, id: nat, i: nat, j: nat)
      returns (m: nat)
    requires cfg.Valid() && |run| == |steps| + 1 && IsRun(cfg, run, steps)
    requires i < j < |run| && id !in run[i].calls && id in run[j].calls
    requires run[j].calls[id].pc == Failed && run[j].calls[id].key != "" && run[j].calls[id].row.owner != ""
    requires forall n :: 0 <= n < |steps| ==> !Faulty(steps[n], id)
    ensures i <= m < j && steps[m].Release? && steps[m].key == run[j].calls[id].key
  {
    hide IsRun, Apply;
    var before := run[j - 1];
    StepAt(cfg, run, steps, j);
    if id !in before.calls {
      CallBegins(cfg, before, steps[j - 1], id);
      assert false;
    } else {
      CallStep(cfg, before, steps[j - 1], id);
      if before.calls[id].pc == Failed {
        m := FailsOnlyAfterRelease(cfg, run, steps, id, i, j - 1);
      } else {
        m := RowVanished(cfg, run, steps, id, i, j - 1);
      }
    }
  }

  /** A step that fails a call: an error of the repository, a missing key or owner, or a last read that finds no row. */
  predicate FailsAt(s: State, step: Step, id: nat) {
    || (Faulty(step, id) && id in s.calls)
    || (step.Begin? && step.id == id && (step.key == "" || step.owner == ""))
    || (step == Reread(id) && id in s.calls && s.calls[id].key !in s.table)
  }

  /** A call ends in an error exactly if it met one of these. */
  lemma {:induction false} FailsExactly(cfg: Config, run: seq<State>, steps: seq<Step>, id: nat, i: nat, j: nat)
    requires cfg.Valid() && |run| == |steps| + 1 && i <= j <= |steps| && IsRun(cfg, run, steps)
    requires id !in run[i].calls
    ensures AtPc(run[j], id, Failed) <==> exists n :: i <= n < j && FailsAt(run[n], steps[n], id)
    decreases j
  {
    hide IsRun, Apply, Enabled, FailsAt;
    if i < j {
      FailsExactly(cfg, run, steps, id, i, j - 1);
      StepAt(cfg, run, steps, j);
      FailureStays(cfg, run[j - 1], steps[j - 1], id);
    }
  }

  lemma FailureStays(cfg: Config, s: State, step: Step, id: nat)
    requires cfg.Valid() && Enabled(s, step)
    ensures AtPc(Apply(cfg, s, step), id, Failed) <==> AtPc(s, id, Failed) || FailsAt(s, step, id)
  {
  }

  /** A call past its first sight of its row saw the row; if the row is gone, a release took it. */
  lemma {:induction false} RowVanished(cfg: Config, run: seq<State>, steps: seq<Step>, id: nat, i: nat, j: nat)
      returns (m: nat)
    requires cfg.Valid() && IsRun(cfg, run, steps)
    requires i < j < |run| && id !in run[i].calls && id in run[j].calls
    requires SawRow(run[j].calls[id].pc)
    requires run[j].calls[id].key !in run[j].table
    ensures i <= m < j && steps[m].Release? && steps[m].key == run[j].calls[id].key
  {
    hide Apply, Enabled;
    var key := run[j].calls[id].key;
    SawRowBefore(cfg, run, steps, id, j);
    if key in run[j - 1].table {
      m := j - 1;
    } else {
      m := RowVanished(cfg, run, steps, id, i, j - 1);
    }
  }

  lemma SawRowBefore(cfg: Config, run: seq<State>, steps: seq<Step>, id: nat, j: nat)
    requires cfg.Valid() && IsRun(cfg, run, steps) && 0 < j < |run|
    requires id in run[j].calls && SawRow(run[j].calls[id].pc) && run[j].calls[id].key !in run[j].table
    ensures
      var before, key := run[j - 1], run[j].calls[id].key;
      && id in before.calls && before.calls[id].key == key
      && if key in before.table then steps[j - 1].Release? && steps[j - 1].key == key else SawRow(before.calls[id].pc)
  {
    StepAt(cfg, run, steps, j);
    if id in run[j - 1].calls {
      CallStep(cfg, run[j - 1], steps[j - 1], id);
      OwnershipMoves(cfg, run[j - 1], steps[j - 1], run[j].calls[id].key);
    }
  }

  /** The owner's last write has not run out and the owner has not released the key since. */
  predicate Holds(s: State, key: string, owner: string) {
    (key, owner) in s.held && s.held[(key, owner)] > s.clock
  }

  /** What exclusivity asks of a step: no caller's clock runs ahead, and no owner replaces an expiry of its own
      by an earlier one. */
  predicate Orderly(s: State, step: Step) {
    match step
    case Begin(_, _, _, _, now) => now <= s.clock
    case Update(id, _) => NotBackwards(s, id)
    case Insert(id, _) => NotBackwards(s, id)
    case _ => true
  }

  predicate NotBackwards(s: State, id: nat) {
    id in s.calls && var c := s.calls[id];
    ((c.key, c.row.owner) in s.held ==> s.held[(c.key, c.row.owner)] <= c.row.expiresAt)
  }

  ghost predicate Inv(s: State) {
    && (forall id :: id in s.calls ==> s.calls[id].now <= s.clock)
    && (forall key :: key in s.table ==>
          var row := s.table[key];
          (key, row.owner) in s.held && s.held[(key, row.owner)] == row.expiresAt)
    && (forall key, owner :: Holds(s, key, owner) ==> key in s.table && s.table[key].owner == owner)
  }

  /** No caller's clock runs ahead. */
  predicate Timely(s: State, step: Step) {
    step.Begin? ==> step.now <= s.clock
  }

  lemma InvStep(cfg: Config, s: State, step: Step)
    requires cfg.Valid() && Enabled(s, step) && Timely(s, step) && Inv(s)
    ensures Inv(Apply(cfg, s, step))
  {
    var after := Apply(cfg, s, step);
    forall key, owner | Holds(after, key, owner)
      ensures key in after.table && after.table[key].owner == owner
    {
      if (key, owner) in s.held && after.held[(key, owner)] == s.held[(key, owner)] {
        assert Holds(s, key, owner);
        OwnershipMoves(cfg, s, step, key);
      }
    }
  }

  ghost predicate IsOrderlyRun(cfg: Config, run: seq<State>, steps: seq<Step>)
    requires cfg.Valid()
  {
    && IsRun(cfg, run, steps)
    && run[0] == Init(run[0].clock)
    && forall n :: 0 <= n < |steps| ==> Orderly(run[n], steps[n])
  }

  ghost predicate IsTimelyRun(cfg: Config, run: seq<State>, steps: seq<Step>)
    requires cfg.Valid()
  {
    && IsRun(cfg, run, steps)
    && run[0] == Init(run[0].clock)
    && forall n :: 0 <= n < |steps| ==> Timely(run[n], steps[n])
  }

  lemma {:induction false} InvRun(cfg: Config, run: seq<State>, steps: seq<Step>, n: nat)
    requires cfg.Valid() && IsTimelyRun(cfg, run, steps) && n < |run|
    ensures Inv(run[n])
  {
    if n > 0 {
      InvRun(cfg, run, steps, n - 1);
      InvStep(cfg, run[n - 1], steps[n - 1]);
    }
  }

  lemma OrderlyIsTimely(cfg: Config, run: seq<State>, steps: seq<Step>)
    requires cfg.Valid() && IsOrderlyRun(cfg, run, steps)
    ensures IsTimelyRun(cfg, run, steps)
  {
    forall n | 0 <= n < |steps| ensures Timely(run[n], steps[n]) {
      assert Orderly(run[n], steps[n]);
    }
  }

  /** Call id was handed a row naming its own owner at state m. */
  predicate ToldItOwns(s: State, id: nat, key: string, row: Row) {
    id in s.calls && s.calls[id].key == key && s.calls[id].row.owner == row.owner && s.calls[id].pc == Returned(row)
  }

  /** The step stores a row of the owner on the key that expires before e. */
  predicate Shortens(s: State, step: Step, key: string, owner: string, e: int) {
    && (step.Update? || step.Insert?) && step.id in s.calls
    && var c := s.calls[step.id];
       && c.key == key && c.row.owner == owner && c.row.expiresAt < e
       && if step.Update? then UpdateIfExpiredOrOwned(s.table, key, c.row, c.now).Ok? else Create(s.table, key, c.row).Ok?
  }

  /** From m to n the owner neither released the key nor stored an expiry before e. */
  ghost predicate Kept(run: seq<State>, steps: seq<Step>, key: string, owner: string, e: int, m: nat, n: nat)
    requires n <= |steps| < |run|
  {
    forall k :: m <= k < n ==> steps[k] != Release(key, owner) && !Shortens(run[k], steps[k], key, owner, e)
  }

  /** From the moment a call is told its owner holds the key, the owner's recorded expiry is at least the one
      returned, until that owner releases or shortens it. */
  lemma {:induction false} ReturnStaysHeld(cfg: Config, run: seq<State>, steps: seq<Step>,
                                           id: nat, key: string, row: Row, m: nat, n: nat)
    requires cfg.Valid() && IsTimelyRun(cfg, run, steps)
    requires 0 < m <= n < |run|
    requires ToldItOwns(run[m], id, key, row) && !ToldItOwns(run[m - 1], id, key, row)
    requires Kept(run, steps, key, row.owner, row.expiresAt, m, n)
    ensures (key, row.owner) in run[n].held && run[n].held[(key, row.owner)] >= row.expiresAt
  {
    if n == m {
      InvRun(cfg, run, steps, m);
      StepAt(cfg, run, steps, m);
      ToldWhenStored(cfg, run[m - 1], steps[m - 1], id, key, row);
    } else {
      ReturnStaysHeld(cfg, run, steps, id, key, row, m, n - 1);
      HeldStays(cfg, run[n - 1], steps[n - 1], key, row.owner, row.expiresAt);
    }
  }

  lemma HeldStays(cfg: Config, s: State, step: Step, key: string, owner: string, e: int)
    requires cfg.Valid() && Enabled(s, step) && (key, owner) in s.held && s.held[(key, owner)] >= e
    requires step != Release(key, owner) && !Shortens(s, step, key, owner, e)
    ensures
      var after := Apply(cfg, s, step);
      (key, owner) in after.held && after.held[(key, owner)] >= e
  {}

  /** An owner that never puts its expiry back, or not below e, keeps every lease it was told of until e. */
  lemma {:induction false} OrderlyKeeps(cfg: Config, run: seq<State>, steps: seq<Step>,
                                        id: nat, key: string, row: Row, m: nat, n: nat)
    requires cfg.Valid() && 0 < m <= n <= |steps| < |run| && IsTimelyRun(cfg, run, steps)
    requires ToldItOwns(run[m], id, key, row) && !ToldItOwns(run[m - 1], id, key, row)
    requires forall k :: m <= k < n ==>
      && steps[k] != Release(key, row.owner)
      && (Orderly(run[k], steps[k]) || !Shortens(run[k], steps[k], key, row.owner, row.expiresAt))
    ensures Kept(run, steps, key, row.owner, row.expiresAt, m, n)
  {
    hide *;
    if n == m {
      KeptSoFar(run, steps, key, row.owner, row.expiresAt, m);
    } else {
      OrderlyKeeps(cfg, run, steps, id, key, row, m, n - 1);
      ReturnStaysHeld(cfg, run, steps, id, key, row, m, n - 1);
      OrderlyStepKeeps(run[n - 1], steps[n - 1], key, row.owner, row.expiresAt);
      KeptOneMore(run, steps, key, row.owner, row.expiresAt, m, n - 1);
    }
  }

  lemma KeptSoFar(run: seq<State>, steps: seq<Step>, key: string, owner: string, e: int, m: nat)
    requires m <= |steps| < |run|
    ensures Kept(run, steps, key, owner, e, m, m)
  {
  }

  lemma KeptOneMore(run: seq<State>, steps: seq<Step>, key: string, owner: string, e: int, m: nat, n: nat)
    requires n < |steps| < |run| && Kept(run, steps, key, owner, e, m, n)
    requires steps[n] != Release(key, owner) && !Shortens(run[n], steps[n], key, owner, e)
    ensures Kept(run, steps, key, owner, e, m, n + 1)
  {
    hide Shortens;
  }

  lemma OrderlyStepKeeps(s: State, step: Step, key: string, owner: string, e: int)
    requires Orderly(s, step) || !Shortens(s, step, key, owner, e)
    requires (key, owner) in s.held && s.held[(key, owner)] >= e
    ensures !Shortens(s, step, key, owner, e)
  {
  }

  lemma ToldWhenStored(cfg: Config, s: State, step: Step, id: nat, key: string, row: Row)
    requires cfg.Valid() && Enabled(s, step)
    requires !ToldItOwns(s, id, key, row) && ToldItOwns(Apply(cfg, s, step), id, key, row)
    ensures var after := Apply(cfg, s, step); key in after.table && after.table[key] == row
  {
    if id in s.calls {
      CallStep(cfg, s, step, id);
    }
  }

  /** A call was told at state m that its owner holds the key; at state n the owner has not released it since, and
      the row it was told has not expired. */
  ghost predicate LeasedAt(run: seq<State>, steps: seq<Step>, id: nat, key: string, row: Row, m: nat, n: nat) {
    && 0 < m <= n < |run| && n <= |steps|
    && ToldItOwns(run[m], id, key, row) && !ToldItOwns(run[m - 1], id, key, row)
    && (forall k :: m <= k < n ==> steps[k] != Release(key, row.owner))
    && run[n].clock < row.expiresAt
  }

  /** Some call was told so. */
  ghost predicate Leased(run: seq<State>, steps: seq<Step>, key: string, owner: string, n: nat) {
    exists id: nat, row: Row, m: nat :: LeasedAt(run, steps, id, key, row, m, n) && row.owner == owner
  }

  /** Leases that their owners kept are exclusive: two of them at one time on one key are the same owner's. */
  lemma KeptLeasesAreExclusive(cfg: Config, run: seq<State>, steps: seq<Step>, key: string, n: nat,
                               id1: nat, row1: Row, m1: nat, id2: nat, row2: Row, m2: nat)
    requires cfg.Valid() && IsTimelyRun(cfg, run, steps)
    requires LeasedAt(run, steps, id1, key, row1, m1, n) && Kept(run, steps, key, row1.owner, row1.expiresAt, m1, n)
    requires LeasedAt(run, steps, id2, key, row2, m2, n) && Kept(run, steps, key, row2.owner, row2.expiresAt, m2, n)
    ensures row1.owner == row2.owner
  {
    ReturnStaysHeld(cfg, run, steps, id1, key, row1, m1, n);
    ReturnStaysHeld(cfg, run, steps, id2, key, row2, m2, n);
    InvRun(cfg, run, steps, n);
    assert Holds(run[n], key, row1.owner) && Holds(run[n], key, row2.owner);
  }

  /** Lease exclusivity: if no owner ever puts back its expiry, all the leases that run on one key at any time are the
      same owner's. */
  lemma LeasesAreExclusive(cfg: Config, run: seq<State>, steps: seq<Step>, key: string, n: nat, a: string, b: string)
    requires cfg.Valid() && IsOrderlyRun(cfg, run, steps)
    requires Leased(run, steps, key, a, n) && Leased(run, steps, key, b, n)
    ensures a == b
  {
    var id1: nat, row1: Row, m1: nat :| LeasedAt(run, steps, id1, key, row1, m1, n) && row1.owner == a;
    var id2: nat, row2: Row, m2: nat :| LeasedAt(run, steps, id2, key, row2, m2, n) && row2.owner == b;
    OrderlyIsTimely(cfg, run, steps);
    assert forall k :: 0 <= k < n ==> Orderly(run[k], steps[k]);
    hide IsOrderlyRun, IsTimelyRun, Orderly, Shortens;
    OrderlyKeeps(cfg, run, steps, id1, key, row1, m1, n);
    OrderlyKeeps(cfg, run, steps, id2, key, row2, m2, n);
    KeptLeasesAreExclusive(cfg, run, steps, key, n, id1, row1, m1, id2, row2, m2);
  }

  /** No release, and no clock running ahead. */
  ghost predicate OnTime(run: seq<State>, steps: seq<Step>) {
    && |run| == |steps| + 1
    && forall n :: 0 <= n < |steps| ==> !steps[n].Release? && Timely(run[n], steps[n])
  }

  lemma Extend(cfg: Config, run: seq<State>, steps: seq<Step>, step: Step)
      returns (run': seq<State>, steps': seq<Step>)
    requires cfg.Valid() && |run| == |steps| + 1 && IsRun(cfg, run, steps) && Enabled(run[|steps|], step)
    ensures IsRun(cfg, run', steps') && run' == run + [Apply(cfg, run[|steps|], step)] && steps' == steps + [step]
    ensures OnTime(run, steps) && !step.Release? && Timely(run[|steps|], step) ==> OnTime(run', steps')
  {
    run', steps' := run + [Apply(cfg, run[|steps|], step)], steps + [step];
  }

  /** The steps of a call that meets no one else. */
  function CallSteps(s: State, id: nat, key: string, owner: string, requested: Option<int>): seq<Step> {
    [Begin(id, key, owner, requested, s.clock), FirstRead(id), if key in s.table then Update(id, true) else Insert(id, true)]
  }

  /** The state it leaves. */
  function AfterCall(cfg: Config, s: State, id: nat, key: string, owner: string, requested: Option<int>): State
    requires cfg.Valid()
  {
    var row := OwnRow(cfg, owner, requested, s.clock);
    s.(table := s.table[key := row], calls := s.calls[id := Call(key, row, s.clock, Returned(row))],
       held := s.held[(key, owner) := row.expiresAt])
  }

  function CallStates(cfg: Config, s: State, id: nat, key: string, owner: string, requested: Option<int>): seq<State>
    requires cfg.Valid()
  {
    var row := OwnRow(cfg, owner, requested, s.clock);
    [s.(calls := s.calls[id := Call(key, row, s.clock, Started)]),
     s.(calls := s.calls[id := Call(key, row, s.clock, if key in s.table then Found else Missing)]),
     AfterCall(cfg, s, id, key, owner, requested)]
  }

  predicate Claimable(s: State, key: string, owner: string) {
    key in s.table ==> s.table[key].owner == owner || s.table[key].expiresAt <= s.clock
  }

  /** A call that finds the key claimable and is not interrupted stores its own row and returns it. */
  lemma CallAlone(cfg: Config, run: seq<State>, steps: seq<Step>,
                  id: nat, key: string, owner: string, requested: Option<int>)
      returns (run': seq<State>, steps': seq<Step>)
    requires cfg.Valid() && |run| == |steps| + 1 && IsRun(cfg, run, steps)
    requires id !in run[|steps|].calls && key != "" && owner != "" && Claimable(run[|steps|], key, owner)
    ensures run' == run + CallStates(cfg, run[|steps|], id, key, owner, requested) && IsRun(cfg, run', steps')
    ensures steps' == steps + CallSteps(run[|steps|], id, key, owner, requested)
    ensures OnTime(run, steps) ==> OnTime(run', steps')
    ensures |run'| == |steps'| + 1 && run'[|steps'|] == AfterCall(cfg, run[|steps|], id, key, owner, requested)
  {
    var s, row := run[|steps|], OwnRow(cfg, owner, requested, run[|steps|].clock);
    run', steps' := Extend(cfg, run, steps, Begin(id, key, owner, requested, s.clock));
    run', steps' := Extend(cfg, run', steps', FirstRead(id));
    run', steps' := Extend(cfg, run', steps', if key in s.table then Update(id, true) else Insert(id, true));
    assert run'[|steps'|].calls == s.calls[id := Call(key, row, s.clock, Returned(row))];
    assert run'[|steps| + 2].calls == CallStates(cfg, s, id, key, owner, requested)[1].calls;
  }

  /** The first call on a key begins a lease exactly if its term did not wrap round to nothing. */
  lemma FirstCallIsGranted(cfg: Config, key: string, owner: string, requested: Option<int>, clock: int)
      returns (run: seq<State>, steps: seq<Step>)
    requires cfg.Valid() && key != "" && owner != ""
    ensures IsOrderlyRun(cfg, run, steps) && run == [Init(clock)] + CallStates(cfg, Init(clock), 0, key, owner, requested)
    ensures Leased(run, steps, key, owner, |steps|) <==> Term(cfg, requested) > 0
  {
    run, steps := CallAlone(cfg, [Init(clock)], [], 0, key, owner, requested);
    assert run[0] == Init(clock);
    if Term(cfg, requested) > 0 {
      assert LeasedAt(run, steps, 0, key, OwnRow(cfg, owner, requested, clock), 3, 3);
    }
  }

  /** A later state in which the lease told by call `id` still runs and another owner was told it has one too, although
      after the steps of `call` no one put back an expiry. */
  ghost predicate LosesLease(cfg: Config, run: seq<State>, steps: seq<Step>, call: seq<Step>, id: nat, key: string, row: Row,
                             m: nat, later: seq<State>, laterSteps: seq<Step>, n: nat, other: string)
    requires cfg.Valid()
  {
    && IsRun(cfg, later, laterSteps) && |run| <= |later| && later[..|run|] == run && steps + call <= laterSteps
    && (forall k :: |steps| + |call| <= k < |laterSteps| ==> Orderly(later[k], laterSteps[k]))
    && |steps| + |call| <= n < |later|
    && LeasedAt(later, laterSteps, id, key, row, m, n) && Leased(later, laterSteps, key, other, n) && other != row.owner
  }

  /** When an owner whose lease runs extends it undisturbed, that lease can be lost to someone else exactly if the
      heartbeat asked for, times the grace factor in Go's integers, ends before it does. */
  lemma ExtensionIsSafeExactly(cfg: Config, run: seq<State>, steps: seq<Step>, id: nat, key: string, row: Row, m: nat,
                               callId: nat, requested: Option<int>)
    requires cfg.Valid() && LeasedAt(run, steps, id, key, row, m, |steps|) && IsOrderlyRun(cfg, run, steps)
    requires callId !in run[|steps|].calls
    ensures
      var call := CallSteps(run[|steps|], callId, key, row.owner, requested);
      (exists later: seq<State>, laterSteps: seq<Step>, n: nat, other: string ::
        LosesLease(cfg, run, steps, call, id, key, row, m, later, laterSteps, n, other))
      <==> run[|steps|].clock + Term(cfg, requested) < row.expiresAt
  {
    var call := CallSteps(run[|steps|], callId, key, row.owner, requested);
    if run[|steps|].clock + Term(cfg, requested) < row.expiresAt {
      var later, laterSteps :=
        ShorterExtensionLosesLease(cfg, run, steps, id, key, row, m, callId, requested, row.owner + "'s rival");
      assert LosesLease(cfg, run, steps, call, id, key, row, m, later, laterSteps, |laterSteps|, row.owner + "'s rival");
    } else {
      forall later: seq<State>, laterSteps: seq<Step>, n: nat, other: string
        ensures !LosesLease(cfg, run, steps, call, id, key, row, m, later, laterSteps, n, other)
      {
        LongExtensionKeepsLease(cfg, run, steps, id, key, row, m, callId, requested, later, laterSteps, n, other);
      }
    }
  }

  lemma {:induction false} ReturnedIsNamed(cfg: Config, run: seq<State>, steps: seq<Step>, n: nat, id: nat)
    requires cfg.Valid() && IsTimelyRun(cfg, run, steps) && n < |run| && id in run[n].calls && run[n].calls[id].pc != Failed
    ensures run[n].calls[id].key != "" && run[n].calls[id].row.owner != ""
  {
    hide *;
    StepBefore(cfg, run, steps, n, id);
    if id in run[n - 1].calls {
      ReturnedIsNamed(cfg, run, steps, n - 1, id);
    }
  }

  lemma StepBefore(cfg: Config, run: seq<State>, steps: seq<Step>, n: nat, id: nat)
    requires cfg.Valid() && IsTimelyRun(cfg, run, steps) && n < |run| && id in run[n].calls && run[n].calls[id].pc != Failed
    ensures n > 0
    ensures
      var c := run[n].calls[id];
      if id in run[n - 1].calls
      then run[n - 1].calls[id].pc != Failed && run[n - 1].calls[id].key == c.key && run[n - 1].calls[id].row == c.row
      else c.key != "" && c.row.owner != ""
  {
    if n > 0 {
      StepAt(cfg, run, steps, n);
    }
  }

  lemma FreshId(ids: set<nat>) returns (id: nat)
    ensures forall i | i in ids :: i < id
  {
    if ids == {} {
      id := 0;
    } else {
      var x :| x in ids;
      var rest := FreshId(ids - {x});
      id := if rest > x then rest else x + 1;
      forall i | i in ids ensures i < id {
        assert i == x || i in ids - {x};
      }
    }
  }

  /** Where the extension ends before the lease does, any other owner can be told it holds the key in between. */
  lemma ShorterExtensionLosesLease(cfg: Config, run: seq<State>, steps: seq<Step>, id: nat, key: string, row: Row, m: nat,
                                   callId: nat, requested: Option<int>, other: string)
      returns (later: seq<State>, laterSteps: seq<Step>)
    requires cfg.Valid() && LeasedAt(run, steps, id, key, row, m, |steps|) && IsOrderlyRun(cfg, run, steps)
    requires callId !in run[|steps|].calls && other != "" && other != row.owner
    requires run[|steps|].clock + Term(cfg, requested) < row.expiresAt
    ensures
      LosesLease(cfg, run, steps, CallSteps(run[|steps|], callId, key, row.owner, requested), id, key, row, m,
                 later, laterSteps, |laterSteps|, other)
  {
    HolderOfLease(cfg, run, steps, id, key, row, m);
    later, laterSteps := RivalClaims(cfg, run, steps, key, row.owner, callId, requested, other);
    assert later[m] == run[m] && later[m - 1] == run[m - 1];
    assert forall k :: m <= k < |steps| ==> laterSteps[k] == steps[k];
    hide IsRun, IsOrderlyRun, CallSteps, ToldItOwns, Orderly;
    assert LeasedAt(later, laterSteps, id, key, row, m, |laterSteps|);
  }

  /** The holder extends, its extension ends, and another owner claims the key. */
  lemma RivalClaims(cfg: Config, run: seq<State>, steps: seq<Step>, key: string, owner: string,
                    callId: nat, requested: Option<int>, other: string)
      returns (later: seq<State>, laterSteps: seq<Step>)
    requires cfg.Valid() && |run| == |steps| + 1 && IsRun(cfg, run, steps)
    requires HeldBy(run[|steps|], key, owner)
    requires callId !in run[|steps|].calls && other != "" && other != owner
    ensures IsRun(cfg, later, laterSteps) && |later| == |laterSteps| + 1
    ensures
      var call := CallSteps(run[|steps|], callId, key, owner, requested);
      && |run| <= |later| && later[..|run|] == run && steps + call <= laterSteps
      && (forall k :: |steps| <= k < |laterSteps| ==> !laterSteps[k].Release?)
      && forall k :: |steps| + |call| <= k < |laterSteps| ==> Orderly(later[k], laterSteps[k])
    ensures
      var e := OwnRow(cfg, owner, requested, run[|steps|].clock).expiresAt;
      later[|laterSteps|].clock == if e > run[|steps|].clock then e else run[|steps|].clock
    ensures Leased(later, laterSteps, key, other, |laterSteps|)
  {
    hide *;
    later, laterSteps := ExtendAndWait(cfg, run, steps, key, owner, callId, requested, other);
    later, laterSteps := ClaimIsLeased(cfg, later, laterSteps, key, other);
  }

  /** The holder extends, and its extension ends. */
  lemma ExtendAndWait(cfg: Config, run: seq<State>, steps: seq<Step>, key: string, owner: string,
                      callId: nat, requested: Option<int>, other: string)
      returns (later: seq<State>, laterSteps: seq<Step>)
    requires cfg.Valid() && |run| == |steps| + 1 && IsRun(cfg, run, steps)
    requires HeldBy(run[|steps|], key, owner)
    requires callId !in run[|steps|].calls && other != "" && other != owner
    ensures |later| == |laterSteps| + 1 && IsRun(cfg, later, laterSteps)
    ensures
      var call := CallSteps(run[|steps|], callId, key, owner, requested);
      && |run| <= |later| && later[..|run|] == run && steps + call <= laterSteps && |laterSteps| == |steps| + |call| + 1
      && laterSteps[|steps| + |call|].Tick? && Orderly(later[|steps| + |call|], laterSteps[|steps| + |call|])
      && forall k :: |steps| <= k < |laterSteps| ==> !laterSteps[k].Release?
    ensures
      var e, s := OwnRow(cfg, owner, requested, run[|steps|].clock).expiresAt, later[|laterSteps|];
      && s.clock == (if e > run[|steps|].clock then e else run[|steps|].clock) && Claimable(s, key, other)
      && ((key, other) in s.held ==> s.held[(key, other)] <= s.clock)
    ensures key != ""
  {
    var s := run[|steps|];
    var e := OwnRow(cfg, owner, requested, s.clock).expiresAt;
    var moment := if e > s.clock then e else s.clock;
    hide IsRun, OnTime, Term, Apply, Enabled, Timely, Leased;
    var run1, steps1 := CallAlone(cfg, run, steps, callId, key, owner, requested);
    later, laterSteps := Later(cfg, run1, steps1, moment);
    assert laterSteps[|steps1|] == Tick(moment);
  }

  /** Where nobody's writes on a key run any longer, the shortest request of anyone is granted. */
  lemma ClaimIsLeased(cfg: Config, run: seq<State>, steps: seq<Step>, key: string, other: string)
      returns (later: seq<State>, laterSteps: seq<Step>)
    requires cfg.Valid() && |run| == |steps| + 1 && IsRun(cfg, run, steps)
    requires key != "" && other != "" && Claimable(run[|steps|], key, other)
    requires (key, other) in run[|steps|].held ==> run[|steps|].held[(key, other)] <= run[|steps|].clock
    ensures |later| == |laterSteps| + 1 && IsRun(cfg, later, laterSteps)
    ensures |run| <= |later| && later[..|run|] == run && steps <= laterSteps
    ensures forall k :: |steps| <= k < |laterSteps| ==> !laterSteps[k].Release? && Orderly(later[k], laterSteps[k])
    ensures later[|laterSteps|].clock == run[|steps|].clock && Leased(later, laterSteps, key, other, |laterSteps|)
  {
    var s := run[|steps|];
    var rival := FreshId(s.calls.Keys);
    ShortestTerm(cfg);
    hide IsRun, OnTime, Term, Apply, Enabled;
    later, laterSteps := CallAlone(cfg, run, steps, rival, key, other, Some(1));
    assert later[|steps|] == s && later[|steps| + 1] == CallStates(cfg, s, rival, key, other, Some(1))[0];
    assert later[|steps| + 2] == CallStates(cfg, s, rival, key, other, Some(1))[1];
    assert NotBackwards(later[|steps| + 2], rival);
    assert LeasedAt(later, laterSteps, rival, key, OwnRow(cfg, other, Some(1), s.clock), |laterSteps|, |laterSteps|);
  }

  /** The key's row is the owner's, and nobody else's writes run any longer. */
  ghost predicate HeldBy(s: State, key: string, owner: string) {
    && key != "" && owner != "" && key in s.table && s.table[key].owner == owner
    && forall other | (key, other) in s.held && other != owner :: s.held[(key, other)] <= s.clock
  }

  /** Where it does not, no one else is told so for as long as the lease runs. */
  lemma LongExtensionKeepsLease(cfg: Config, run: seq<State>, steps: seq<Step>, id: nat, key: string, row: Row, m: nat,
                                callId: nat, requested: Option<int>,
                                later: seq<State>, laterSteps: seq<Step>, n: nat, other: string)
    requires cfg.Valid() && LeasedAt(run, steps, id, key, row, m, |steps|) && IsOrderlyRun(cfg, run, steps)
    requires callId !in run[|steps|].calls
    requires run[|steps|].clock + Term(cfg, requested) >= row.expiresAt
    ensures
      !LosesLease(cfg, run, steps, CallSteps(run[|steps|], callId, key, row.owner, requested), id, key, row, m,
                  later, laterSteps, n, other)
  {
    var call := CallSteps(run[|steps|], callId, key, row.owner, requested);
    if LosesLease(cfg, run, steps, call, id, key, row, m, later, laterSteps, n, other) {
      LaterIsMostlyOrderly(cfg, run, steps, callId, key, row, requested, later, laterSteps);
      var id2: nat, row2: Row, m2: nat :| LeasedAt(later, laterSteps, id2, key, row2, m2, n) && row2.owner == other;
      assert LeasedAt(later, laterSteps, id, key, row, m, n) && other != row.owner;
      hide LosesLease, Orderly, Shortens, IsTimelyRun, IsOrderlyRun;
      OrderlyKeeps(cfg, later, laterSteps, id, key, row, m, n);
      OrderlyKeeps(cfg, later, laterSteps, id2, key, row2, m2, n);
      KeptLeasesAreExclusive(cfg, later, laterSteps, key, n, id, row, m, id2, row2, m2);
    }
  }

  /** The call is the only one that may put back an expiry, of its owner, and not before the row's. */
  lemma LaterIsMostlyOrderly(cfg: Config, run: seq<State>, steps: seq<Step>, callId: nat, key: string, row: Row,
                             requested: Option<int>, later: seq<State>, laterSteps: seq<Step>)
    requires cfg.Valid() && IsOrderlyRun(cfg, run, steps) && callId !in run[|steps|].calls
    requires run[|steps|].clock + Term(cfg, requested) >= row.expiresAt
    requires IsRun(cfg, later, laterSteps) && |run| <= |later| && later[..|run|] == run
    requires steps + CallSteps(run[|steps|], callId, key, row.owner, requested) <= laterSteps
    requires forall k :: |steps| + 3 <= k < |laterSteps| ==> Orderly(later[k], laterSteps[k])
    ensures IsTimelyRun(cfg, later, laterSteps)
    ensures forall k, owner, e :: 0 <= k < |laterSteps| && (owner == row.owner ==> e <= row.expiresAt) ==>
      Orderly(later[k], laterSteps[k]) || !Shortens(later[k], laterSteps[k], key, owner, e)
  {
    var p := |steps|;
    var call := CallSteps(run[p], callId, key, row.owner, requested);
    assert later[p] == run[p];
    assert laterSteps[p] == call[0] && laterSteps[p + 1] == call[1] && laterSteps[p + 2] == call[2];
    StepAt(cfg, later, laterSteps, p + 1);
    StepAt(cfg, later, laterSteps, p + 2);
    assert later[p + 2].calls[callId].row == OwnRow(cfg, row.owner, requested, run[p].clock);
    assert forall k :: 0 <= k < p ==> later[k] == run[k] && laterSteps[k] == steps[k] && Orderly(run[k], steps[k]);
    hide Apply;
    forall k | 0 <= k < |laterSteps| ensures Timely(later[k], laterSteps[k]) {
      assert k < p || k in {p, p + 1, p + 2} || Orderly(later[k], laterSteps[k]);
    }
    forall k, owner, e | 0 <= k < |laterSteps| && (owner == row.owner ==> e <= row.expiresAt)
      ensures Orderly(later[k], laterSteps[k]) || !Shortens(later[k], laterSteps[k], key, owner, e)
    {
      assert k < p || k in {p, p + 1, p + 2} || Orderly(later[k], laterSteps[k]);
    }
  }

  /** A running lease of an orderly run is the key's row. */
  lemma HolderOfLease(cfg: Config, run: seq<State>, steps: seq<Step>, id: nat, key: string, row: Row, m: nat)
    requires cfg.Valid() && LeasedAt(run, steps, id, key, row, m, |steps|) && IsOrderlyRun(cfg, run, steps)
    ensures HeldBy(run[|steps|], key, row.owner)
  {
    OrderlyIsTimely(cfg, run, steps);
    assert forall k :: 0 <= k < |steps| ==> Orderly(run[k], steps[k]);
    ReturnedIsNamed(cfg, run, steps, m, id);
    OrderlyKeeps(cfg, run, steps, id, key, row, m, |steps|);
    ReturnStaysHeld(cfg, run, steps, id, key, row, m, |steps|);
    InvRun(cfg, run, steps, |steps|);
    assert Holds(run[|steps|], key, row.owner);
    forall other | other != row.owner && (key, other) in run[|steps|].held
      ensures run[|steps|].held[(key, other)] <= run[|steps|].clock
    {
      assert !Holds(run[|steps|], key, other);
    }
  }

  /** No clock runs ahead, and the repository never fails the call. */
  ghost predicate Smooth(run: seq<State>, steps: seq<Step>, id: nat) {
    |run| == |steps| + 1 && forall n :: 0 <= n < |steps| ==> !Faulty(steps[n], id) && Timely(run[n], steps[n])
  }

  lemma ExtendSmoothly(cfg: Config, run: seq<State>, steps: seq<Step>, step: Step, id: nat)
      returns (run': seq<State>, steps': seq<Step>)
    requires cfg.Valid() && |run| == |steps| + 1 && IsRun(cfg, run, steps) && Smooth(run, steps, id)
    requires Enabled(run[|steps|], step) && !Faulty(step, id) && Timely(run[|steps|], step)
    ensures |run'| == |steps'| + 1 && run'[0] == run[0] && IsRun(cfg, run', steps') && Smooth(run', steps', id)
    ensures run'[|steps'|] == Apply(cfg, run[|steps|], step)
  {
    hide Apply, Enabled;
    run', steps' := Extend(cfg, run, steps, step);
  }

  /** A claim on a key that someone else holds is refused. */
  lemma ClaimIsRefused(cfg: Config, run: seq<State>, steps: seq<Step>, id: nat, key: string, owner: string)
      returns (run': seq<State>, steps': seq<Step>)
    requires cfg.Valid() && |run| == |steps| + 1 && IsRun(cfg, run, steps) && Smooth(run, steps, id)
    requires id !in run[|steps|].calls && key != "" && owner != "" && key in run[|steps|].table
    requires run[|steps|].table[key].owner != owner && run[|steps|].table[key].expiresAt > run[|steps|].clock
    ensures |run'| == |steps'| + 1 && run'[0] == run[0] && IsRun(cfg, run', steps') && Smooth(run', steps', id)
    ensures
      var s := run[|steps|];
      var call := Call(key, OwnRow(cfg, owner, None, s.clock), s.clock, Conflicted);
      run'[|steps'|] == s.(calls := s.calls[id := call])
  {
    var s := run[|steps|];
    hide IsRun, Smooth;
    run', steps' := ExtendSmoothly(cfg, run, steps, Begin(id, key, owner, None, s.clock), id);
    run', steps' := ExtendSmoothly(cfg, run', steps', FirstRead(id), id);
    run', steps' := ExtendSmoothly(cfg, run', steps', Update(id, true), id);
    assert run'[|steps'|].calls == s.calls[id := Call(key, OwnRow(cfg, owner, None, s.clock), s.clock, Conflicted)];
  }

  /** A call whose row is released between its refused write and its last read fails, with nothing wrong in the
      repository. */
  lemma ReleaseFailsCall(cfg: Config, key: string, holder: string, other: string, clock: int)
      returns (run: seq<State>, steps: seq<Step>)
    requires cfg.Valid() && key != "" && holder != "" && other != "" && other != holder
    ensures |run| == |steps| + 1 && run[0] == Init(clock) && IsRun(cfg, run, steps) && Smooth(run, steps, 2)
    ensures
      2 in run[|steps|].calls && var c := run[|steps|].calls[2];
      c.key == key && c.row.owner == other && c.pc == Failed
  {
    ShortestTerm(cfg);
    run, steps := CallAlone(cfg, [Init(clock)], [], 1, key, holder, Some(1));
    assert run[0] == Init(clock) && run[1].clock == clock && run[2].clock == clock;
    assert Smooth(run, steps, 2);
    hide IsRun, Smooth, OnTime, CallSteps, CallStates;
    run, steps := ClaimIsRefused(cfg, run, steps, 2, key, other);
    run, steps := ReleasedReadFails(cfg, run, steps, 2, holder);
  }

  lemma ReleasedReadFails(cfg: Config, run: seq<State>, steps: seq<Step>, id: nat, holder: string)
      returns (run': seq<State>, steps': seq<Step>)
    requires cfg.Valid() && |run| == |steps| + 1 && IsRun(cfg, run, steps) && Smooth(run, steps, id)
    requires AtPc(run[|steps|], id, Conflicted)
    requires
      var key := run[|steps|].calls[id].key;
      key in run[|steps|].table && run[|steps|].table[key].owner == holder
    ensures |run'| == |steps'| + 1 && run'[0] == run[0] && IsRun(cfg, run', steps') && Smooth(run', steps', id)
    ensures AtPc(run'[|steps'|], id, Failed)
    ensures
      var before, after := run[|steps|].calls[id], run'[|steps'|].calls[id];
      after.key == before.key && after.row == before.row
  {
    hide IsRun, Smooth;
    run', steps' := ExtendSmoothly(cfg, run, steps, Release(run[|steps|].calls[id].key, holder), id);
    run', steps' := ExtendSmoothly(cfg, run', steps', Reread(id), id);
  }

  lemma Later(cfg: Config, run: seq<State>, steps: seq<Step>, to: int) returns (run': seq<State>, steps': seq<Step>)
    requires cfg.Valid() && |run| == |steps| + 1 && IsRun(cfg, run, steps) && run[|steps|].clock <= to
    ensures IsRun(cfg, run', steps') && run' == run + [run[|steps|].(clock := to)] && steps' == steps + [Tick(to)]
    ensures OnTime(run, steps) ==> OnTime(run', steps')
  {
    run', steps' := Extend(cfg, run, steps, Tick(to));
  }

  /** The condition on expiries is needed: an owner that extends with a shorter heartbeat can lose the key to
      another owner while the lease it was first handed is still running. */
  lemma ShorterHeartbeatBreaksExclusivity() returns (run: seq<State>, steps: seq<Step>)
    ensures
      var cfg := Config(10 * SECOND, 3);
      && |run| == |steps| + 1 && run[0] == Init(0) && IsRun(cfg, run, steps) && OnTime(run, steps)
      && var last := run[|steps|];
         && ToldItOwns(last, 1, "k", Row("a", 10, 30 * SECOND))
         && ToldItOwns(last, 3, "k", Row("b", 10, 34 * SECOND))
         && last.clock == 4 * SECOND
  {
    var cfg := Config(10 * SECOND, 3);
    assert IsRun(cfg, [Init(0)], []) && OnTime([Init(0)], []);
    hide IsRun, OnTime, Apply, CallSteps, CallStates, Enabled;
    run, steps := CallAlone(cfg, [Init(0)], [], 1, "k", "a", None);
    var first := run[|steps|];
    assert first.clock == 0 && first.calls.Keys == {1} && ToldItOwns(first, 1, "k", Row("a", 10, 30 * SECOND));
    run, steps := CallAlone(cfg, run, steps, 2, "k", "a", Some(SECOND));
    var second := run[|steps|];
    assert second.clock == 0 && second.calls.Keys == {1, 2} && second.table["k"] == Row("a", 1, 3 * SECOND);
    assert ToldItOwns(second, 1, "k", Row("a", 10, 30 * SECOND));
    run, steps := Later(cfg, run, steps, 4 * SECOND);
    run, steps := CallAlone(cfg, run, steps, 3, "k", "b", None);
  }
}
