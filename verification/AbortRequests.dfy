/** What becomes of an abort that is asked for while an earlier one of the same action is under way. */
module AbortRequests {
  import opened AbortQueue

  /** The abort call is over; what is left is to clear the request and to free the key. */
  predicate Finishing(s: State, id: nat, key: string) {
    id in s.tokens && s.tokens[id].key == key && (s.tokens[id].stage == Clearing || s.tokens[id].stage == Removing)
  }

  /** An abort call of the key is still to return. */
  predicate Coming(s: State, id: nat, key: string) {
    id in s.tokens && s.tokens[id].key == key && s.tokens[id].stage != Clearing && s.tokens[id].stage != Removing
  }

  /** The action has a row, and whatever its tokens stand at, an abort call is still to return. */
  ghost predicate Awaited(s: State, key: string) {
    key in s.attempts && (exists id :: Coming(s, id, key)) && forall id :: !Finishing(s, id, key)
  }

  /** No abort call of the key returns, and no push of it is withdrawn by a shutdown. */
  predicate Silent(s: State, step: Step, key: string) {
    match step
    case AbortSucceeds(id) => id in s.tokens ==> s.tokens[id].key != key
    case AbortFails(id) => id in s.tokens ==> s.tokens[id].key != key
    case Cancel(id) => id in s.tokens ==> s.tokens[id].key != key
    case _ => true
  }

  lemma AwaitedStep(cfg: Config, s: State, step: Step, key: string)
    requires Enabled(cfg, s, step) && Inv(s) && Awaited(s, key) && Silent(s, step, key)
    ensures Awaited(Apply(cfg, s, step), key)
  {
    StillComing(cfg, s, step, key);
    forall t ensures !Finishing(Apply(cfg, s, step), t, key) {
      assert !Finishing(s, t, key);
      NotYetFinishing(cfg, s, step, t, key);
    }
  }

  lemma NotYetFinishing(cfg: Config, s: State, step: Step, t: nat, key: string)
    requires Enabled(cfg, s, step) && Silent(s, step, key) && !Finishing(s, t, key)
    ensures !Finishing(Apply(cfg, s, step), t, key)
  {
  }

  lemma StillComing(cfg: Config, s: State, step: Step, key: string)
    requires Enabled(cfg, s, step) && Inv(s) && Awaited(s, key) && Silent(s, step, key)
    ensures key in Apply(cfg, s, step).attempts && exists id :: Coming(Apply(cfg, s, step), id, key)
  {
    var id :| Coming(s, id, key);
    var kept: nat := id;
    if step == Repush(id) && key in s.keys {
      kept :| Live(s, kept) && s.tokens[kept].key == key;
      assert !Finishing(s, kept, key);
    }
    assert step.Pop? ==> At(s, s.ch[0], Queued);
    hide Inv, Awaited;
    KeepsComing(cfg, s, step, key, kept);
  }

  lemma KeepsComing(cfg: Config, s: State, step: Step, key: string, id: nat)
    requires Enabled(cfg, s, step) && Silent(s, step, key) && key in s.attempts && Coming(s, id, key)
    requires step == Repush(id) ==> key !in s.keys
    ensures key in Apply(cfg, s, step).attempts && Coming(Apply(cfg, s, step), id, key)
  {
  }

  lemma PushIsAwaited(cfg: Config, s: State, id: nat, key: string)
    requires Enabled(cfg, s, Push(id, key)) && Inv(s) && key in s.attempts && forall t :: !Finishing(s, t, key)
    ensures Awaited(Apply(cfg, s, Push(id, key)), key)
  {
    var after := Apply(cfg, s, Push(id, key));
    var kept: nat := id;
    if key in s.keys {
      kept :| Live(s, kept) && s.tokens[kept].key == key;
      assert !Finishing(s, kept, key);
    }
    assert Coming(after, kept, key);
    forall t ensures !Finishing(after, t, key) {
      assert !Finishing(s, t, key);
    }
  }

  /** The run goes on with a push of the key and ends with no token of it, although meanwhile no abort call of the key
      returned. */
  ghost predicate Loses(cfg: Config, run: seq<State>, steps: seq<Step>, id: nat, key: string,
                        later: seq<State>, laterSteps: seq<Step>) {
    && IsRun(cfg, later, laterSteps) && run <= later && steps + [Push(id, key)] <= laterSteps
    && (forall k :: |steps| < k < |laterSteps| ==> Silent(later[k], laterSteps[k], key))
    && NoTokens(later[|laterSteps|], key)
  }

  predicate NoTokens(s: State, key: string) {
    forall t | t in s.tokens :: s.tokens[t].key != key
  }

  lemma {:induction false} StaysAwaited(cfg: Config, run: seq<State>, steps: seq<Step>, key: string, i: nat, j: nat)
    requires |run| == |steps| + 1 && i <= j <= |steps| && IsRun(cfg, run, steps)
    requires Awaited(run[i], key) && forall k :: i <= k < j ==> Silent(run[k], steps[k], key)
    ensures Awaited(run[j], key)
    decreases j
  {
    if i < j {
      StaysAwaited(cfg, run, steps, key, i, j - 1);
      InvRun(cfg, run, steps, j - 1);
      AwaitedStep(cfg, run[j - 1], steps[j - 1], key);
    }
  }

  /** A requested abort can be lost exactly if it is pushed while an earlier one has been answered but not removed. */
  lemma LostExactly(cfg: Config, run: seq<State>, steps: seq<Step>, id: nat, key: string)
    requires |run| == |steps| + 1 && IsRun(cfg, run, steps)
    requires id !in run[|steps|].tokens && key in run[|steps|].attempts
    ensures
      (exists later: seq<State>, laterSteps: seq<Step> :: Loses(cfg, run, steps, id, key, later, laterSteps))
      <==> exists t :: Finishing(run[|steps|], t, key)
  {
    if t :| Finishing(run[|steps|], t, key) {
      var later, laterSteps := DroppedPush(cfg, run, steps, id, key, t);
    } else {
      forall later: seq<State>, laterSteps: seq<Step> ensures !Loses(cfg, run, steps, id, key, later, laterSteps) {
        if Loses(cfg, run, steps, id, key, later, laterSteps) {
          NotLost(cfg, run, steps, id, key, later, laterSteps);
        }
      }
    }
  }

  lemma NotLost(cfg: Config, run: seq<State>, steps: seq<Step>, id: nat, key: string,
                later: seq<State>, laterSteps: seq<Step>)
    requires |run| == |steps| + 1 && IsRun(cfg, run, steps)
    requires id !in run[|steps|].tokens && key in run[|steps|].attempts
    requires Loses(cfg, run, steps, id, key, later, laterSteps)
    ensures exists t :: Finishing(run[|steps|], t, key)
  {
    if forall t :: !Finishing(run[|steps|], t, key) {
      InvRun(cfg, run, steps, |steps|);
      PushStep(cfg, run, steps, id, key, later, laterSteps);
      PushIsAwaited(cfg, run[|steps|], id, key);
      StaysAwaited(cfg, later, laterSteps, key, |steps| + 1, |laterSteps|);
    }
  }

  lemma PushStep(cfg: Config, run: seq<State>, steps: seq<Step>, id: nat, key: string,
                 later: seq<State>, laterSteps: seq<Step>)
    requires |run| == |steps| + 1 && IsRun(cfg, run, steps)
    requires IsRun(cfg, later, laterSteps) && run <= later && steps + [Push(id, key)] <= laterSteps
    ensures Enabled(cfg, run[|steps|], Push(id, key)) && later[|steps| + 1] == Apply(cfg, run[|steps|], Push(id, key))
  {
    assert laterSteps[|steps|] == Push(id, key) && later[|steps|] == run[|steps|];
    assert Enabled(cfg, later[|steps|], laterSteps[|steps|]);
  }

  /** The flag stays in the database, and no clearing of it is on its way. */
  ghost predicate FlagKept(s: State, key: string) {
    key in s.requested && forall t :: At(s, t, Clearing) ==> s.tokens[t].key != key
  }

  lemma FlagStep(cfg: Config, s: State, step: Step, key: string)
    requires Enabled(cfg, s, step) && ChannelInv(s) && FlagKept(s, key) && Silent(s, step, key)
    ensures FlagKept(Apply(cfg, s, step), key)
  {
    var after := Apply(cfg, s, step);
    forall t | At(after, t, Clearing) ensures after.tokens[t].key != key {
      assert !At(s, t, Clearing) || s.tokens[t].key != key;
    }
  }

  lemma {:induction false} FlagStays(cfg: Config, run: seq<State>, steps: seq<Step>, key: string, i: nat, j: nat)
    requires |run| == |steps| + 1 && i <= j <= |steps| && IsRun(cfg, run, steps)
    requires FlagKept(run[i], key) && forall k :: i <= k < j ==> Silent(run[k], steps[k], key)
    ensures FlagKept(run[j], key)
    decreases j
  {
    if i < j {
      FlagStays(cfg, run, steps, key, i, j - 1);
      InvRun(cfg, run, steps, j - 1);
      FlagStep(cfg, run[j - 1], steps[j - 1], key);
    }
  }

  /** It can be lost for good, so that the scan of a restart does not find it either, exactly if it is pushed before the
      earlier one's request is cleared; later the flag stays. */
  lemma LostForGoodExactly(cfg: Config, run: seq<State>, steps: seq<Step>, id: nat, key: string)
    requires |run| == |steps| + 1 && IsRun(cfg, run, steps)
    requires id !in run[|steps|].tokens && key in run[|steps|].attempts && key in run[|steps|].requested
    ensures
      (exists later: seq<State>, laterSteps: seq<Step> ::
        Loses(cfg, run, steps, id, key, later, laterSteps) && key !in later[|laterSteps|].requested)
      <==> exists t :: At(run[|steps|], t, Clearing) && run[|steps|].tokens[t].key == key
  {
    if t :| At(run[|steps|], t, Clearing) && run[|steps|].tokens[t].key == key {
      var later, laterSteps := DroppedPush(cfg, run, steps, id, key, t);
    } else {
      forall later: seq<State>, laterSteps: seq<Step> | Loses(cfg, run, steps, id, key, later, laterSteps)
        ensures key in later[|laterSteps|].requested
      {
        PushStep(cfg, run, steps, id, key, later, laterSteps);
        InvRun(cfg, run, steps, |steps|);
        FlagStep(cfg, run[|steps|], Push(id, key), key);
        FlagStays(cfg, later, laterSteps, key, |steps| + 1, |laterSteps|);
      }
    }
  }

  /** The request of the key is taken back in this step. */
  predicate TakesBack(s: State, step: Step, key: string) {
    step.ClearRequest? && step.cleared && step.id in s.tokens && s.tokens[step.id].key == key
  }

  ghost predicate AskedSince(run: seq<State>, steps: seq<Step>, key: string, i: nat, j: nat)
    requires |run| == |steps| + 1 && i < j <= |steps|
  {
    steps[i] == Request(key) && forall n :: i < n < j ==> !TakesBack(run[n], steps[n], key)
  }

  /** An action is flagged for the scan of a restart exactly if its abort was asked for and not taken back since. */
  lemma {:induction false} FlaggedExactly(cfg: Config, run: seq<State>, steps: seq<Step>, key: string, j: nat)
    requires |run| == |steps| + 1 && j < |run| && IsRun(cfg, run, steps)
    ensures key in run[j].requested <==> exists i :: 0 <= i < j && AskedSince(run, steps, key, i, j)
  {
    if j > 0 {
      FlaggedExactly(cfg, run, steps, key, j - 1);
      RowsAreThere(cfg, run, steps, j - 1, key);
      assert Enabled(cfg, run[j - 1], steps[j - 1]) && run[j] == Apply(cfg, run[j - 1], steps[j - 1]);
      hide IsRun;
      FlagMoves(cfg, run[j - 1], steps[j - 1], key);
      hide Enabled, Apply, RowsThere;
      LaterAsked(run, steps, key, j, j - 1);
    }
  }

  lemma LaterAsked(run: seq<State>, steps: seq<Step>, key: string, j: nat, last: nat)
    requires |run| == |steps| + 1 && 0 < j <= |steps| && last == j - 1
    ensures
      (exists i :: 0 <= i < j && AskedSince(run, steps, key, i, j)) <==>
      steps[last] == Request(key)
      || ((exists i :: 0 <= i < last && AskedSince(run, steps, key, i, last)) && !TakesBack(run[last], steps[last], key))
  {
    hide TakesBack;
    if steps[last] == Request(key) {
      assert AskedSince(run, steps, key, last, j);
    }
    if i :| 0 <= i < j && AskedSince(run, steps, key, i, j) {
      assert i < last ==> AskedSince(run, steps, key, i, last);
    }
    if i :| 0 <= i < last && AskedSince(run, steps, key, i, last) {
      assert !TakesBack(run[last], steps[last], key) ==> AskedSince(run, steps, key, i, j);
    }
  }

  lemma FlagMoves(cfg: Config, s: State, step: Step, key: string)
    requires Enabled(cfg, s, step) && RowsThere(s)
    ensures
      key in Apply(cfg, s, step).requested <==> step == Request(key) || (key in s.requested && !TakesBack(s, step, key))
  {
  }

  lemma Extend(cfg: Config, run: seq<State>, steps: seq<Step>, step: Step)
      returns (run': seq<State>, steps': seq<Step>)
    requires |run| == |steps| + 1 && IsRun(cfg, run, steps) && Enabled(cfg, run[|steps|], step)
    ensures IsRun(cfg, run', steps') && run' == run + [Apply(cfg, run[|steps|], step)] && steps' == steps + [step]
  {
    run', steps' := run + [Apply(cfg, run[|steps|], step)], steps + [step];
  }

  /** Of one key there is the token t, and others only between a timer's delete and its push. */
  ghost predicate Alone(s: State, t: nat, key: string, left: set<nat>) {
    && Finishing(s, t, key) && key in s.keys
    && (forall x :: x in left ==> At(s, x, Repushing) && s.tokens[x].key == key)
    && forall x | x in s.tokens && s.tokens[x].key == key :: x == t || x in left
  }

  /** Those others may all come while the key is still in the set. */
  lemma {:induction false} DropRepushes(cfg: Config, run: seq<State>, steps: seq<Step>, t: nat, key: string, left: set<nat>)
      returns (run': seq<State>, steps': seq<Step>)
    requires |run| == |steps| + 1 && IsRun(cfg, run, steps) && Alone(run[|steps|], t, key, left)
    ensures |run'| == |steps'| + 1 && IsRun(cfg, run', steps') && run <= run' && steps <= steps'
    ensures forall k :: |steps| <= k < |steps'| ==> steps'[k].Repush?
    ensures Alone(run'[|steps'|], t, key, {}) && run'[|steps'|].tokens[t] == run[|steps|].tokens[t]
    ensures run'[|steps'|].attempts == run[|steps|].attempts && run'[|steps'|].requested == run[|steps|].requested
    decreases |left|
  {
    run', steps' := run, steps;
    if left != {} {
      var x :| x in left;
      assert At(run[|steps|], x, Repushing);
      run', steps' := Extend(cfg, run, steps, Repush(x));
      hide IsRun;
      assert Alone(run'[|steps'|], t, key, left - {x});
      run', steps' := DropRepushes(cfg, run', steps', t, key, left - {x});
    }
  }

  lemma TokensOfKey(s: State, t: nat, key: string) returns (left: set<nat>)
    requires TokenInv(s) && Finishing(s, t, key)
    ensures Alone(s, t, key, left)
  {
    left := set x | x in s.tokens && s.tokens[x].key == key && s.tokens[x].stage == Repushing;
    assert Live(s, t);
    forall x | x in s.tokens && s.tokens[x].key == key ensures x == t || x in left {
      assert Live(s, x) || x in left;
    }
  }

  /** The push is dropped as a duplicate, the others of the key too, and then the earlier one clears and leaves. */
  lemma DroppedPush(cfg: Config, run: seq<State>, steps: seq<Step>, id: nat, key: string, t: nat)
      returns (later: seq<State>, laterSteps: seq<Step>)
    requires |run| == |steps| + 1 && IsRun(cfg, run, steps)
    requires id !in run[|steps|].tokens && key in run[|steps|].attempts && Finishing(run[|steps|], t, key)
    ensures |later| == |laterSteps| + 1 && Loses(cfg, run, steps, id, key, later, laterSteps)
    ensures At(run[|steps|], t, Clearing) ==> key !in later[|laterSteps|].requested
  {
    InvRun(cfg, run, steps, |steps|);
    var left := TokensOfKey(run[|steps|], t, key);
    assert run[|steps|].tokens - {id} == run[|steps|].tokens;
    later, laterSteps := Extend(cfg, run, steps, Push(id, key));
    assert later[|steps| + 1] == run[|steps|];
    later, laterSteps := DropRepushes(cfg, later, laterSteps, t, key, left);
    later, laterSteps := Leave(cfg, later, laterSteps, t, key);
  }

  lemma Leave(cfg: Config, run: seq<State>, steps: seq<Step>, t: nat, key: string)
      returns (run': seq<State>, steps': seq<Step>)
    requires |run| == |steps| + 1 && IsRun(cfg, run, steps) && Alone(run[|steps|], t, key, {})
    requires key in run[|steps|].attempts
    ensures |run'| == |steps'| + 1 && IsRun(cfg, run', steps') && run <= run' && steps <= steps'
    ensures forall k :: |steps| <= k < |steps'| ==> steps'[k].ClearRequest? || steps'[k].Remove?
    ensures NoTokens(run'[|steps'|], key)
    ensures At(run[|steps|], t, Clearing) ==> key !in run'[|steps'|].requested
  {
    run', steps' := run, steps;
    if At(run[|steps|], t, Clearing) {
      run', steps' := Extend(cfg, run, steps, ClearRequest(t, true));
    }
    run', steps' := Extend(cfg, run', steps', Remove(t));
  }

  /** An abort is asked for and queued, and a worker takes it up. */
  lemma Ask(cfg: Config, key: string) returns (run: seq<State>, steps: seq<Step>)
    requires cfg.queueSize > 0
    ensures |run| == |steps| + 1 && IsRun(cfg, run, steps)
    ensures steps == [NewAction(key), Request(key), Push(0, key), Send(0), Pop]
    ensures run[|steps|] == State({key}, [], map[0 := Token(key, Processing)], map[key := 0], {key})
  {
    run, steps := [Init()], [];
    assert IsRun(cfg, run, steps);
    hide IsRun;
    run, steps := Extend(cfg, run, steps, NewAction(key));
    run, steps := Extend(cfg, run, steps, Request(key));
    assert run[|steps|] == State({}, [], map[], map[key := 0], {key});
    run, steps := Extend(cfg, run, steps, Push(0, key));
    run, steps := Extend(cfg, run, steps, Send(0));
    assert run[|steps|] == State({key}, [0], map[0 := Token(key, Queued)], map[key := 0], {key});
    run, steps := Extend(cfg, run, steps, Pop);
  }

  /** The reconciler gives up after its one attempt. */
  lemma GiveUp(key: string) returns (run: seq<State>, steps: seq<Step>)
    ensures |run| == |steps| + 1 && IsRun(Config(1, 1), run, steps)
    ensures steps == [NewAction(key), Request(key), Push(0, key), Send(0), Pop, Mark(0), AbortFails(0)]
    ensures run[|steps|] == State({key}, [], map[0 := Token(key, Clearing)], map[key := 1], {key})
  {
    var cfg := Config(1, 1);
    run, steps := Ask(cfg, key);
    hide IsRun;
    run, steps := Extend(cfg, run, steps, Mark(0));
    run, steps := Extend(cfg, run, steps, AbortFails(0));
  }

  /** How many abort attempts of the key are counted between states i and j. */
  ghost function Counts(run: seq<State>, steps: seq<Step>, key: string, i: nat, j: nat): nat
    requires i <= j <= |steps| && |run| == |steps| + 1
    decreases j
  {
    if i == j then 0
    else Counts(run, steps, key, i, j - 1) + (if IsMark(run[j - 1], steps[j - 1], key) then 1 else 0)
  }

  predicate IsMark(s: State, step: Step, key: string) {
    step.Mark? && step.id in s.tokens && s.tokens[step.id].key == key
  }

  /** An attempt's number is how many were counted since the counter was set back, or since the action began. */
  lemma {:induction false} AttemptsAreCounted(cfg: Config, run: seq<State>, steps: seq<Step>, key: string, i: nat, j: nat)
    requires |run| == |steps| + 1 && i < j <= |steps| && IsRun(cfg, run, steps)
    requires Resets(run[i], steps[i], key) || steps[i] == NewAction(key)
    requires forall n :: i < n < j ==> !Resets(run[n], steps[n], key)
    ensures key in run[j].attempts && run[j].attempts[key] == Counts(run, steps, key, i + 1, j)
    ensures IsMark(run[j - 1], steps[j - 1], key) ==>
      var id := steps[j - 1].id;
      id in run[j].tokens && run[j].tokens[id].stage == Aborting(Counts(run, steps, key, i + 1, j))
    decreases j
  {
    assert Enabled(cfg, run[j - 1], steps[j - 1]) && run[j] == Apply(cfg, run[j - 1], steps[j - 1]);
    hide IsRun, Enabled, Apply, Resets, IsMark;
    if i < j - 1 {
      AttemptsAreCounted(cfg, run, steps, key, i, j - 1);
      CounterStep(cfg, run[j - 1], steps[j - 1], key);
    } else {
      RowsAreThere(cfg, run, steps, i, key);
      ResetStep(cfg, run[i], steps[i], key);
    }
  }

  lemma CounterStep(cfg: Config, s: State, step: Step, key: string)
    requires Enabled(cfg, s, step) && !Resets(s, step, key) && key in s.attempts
    ensures
      var after := Apply(cfg, s, step);
      && key in after.attempts && after.attempts[key] == s.attempts[key] + (if IsMark(s, step, key) then 1 else 0)
      && (IsMark(s, step, key) ==>
            step.id in after.tokens && after.tokens[step.id].stage == Aborting(after.attempts[key]))
  {
  }

  lemma ResetStep(cfg: Config, s: State, step: Step, key: string)
    requires Enabled(cfg, s, step) && RowsThere(s) && (Resets(s, step, key) || step == NewAction(key))
    ensures !IsMark(s, step, key)
    ensures key in Apply(cfg, s, step).attempts && Apply(cfg, s, step).attempts[key] == 0
  {
  }

  /** Only actions with a row are aborted. */
  ghost predicate RowsThere(s: State) {
    && s.requested <= s.attempts.Keys
    && forall id | id in s.tokens && (s.tokens[id].stage == Clearing || s.tokens[id].stage.Aborting?) ::
         s.tokens[id].key in s.attempts
  }

  lemma {:induction false} RowsAreThere(cfg: Config, run: seq<State>, steps: seq<Step>, i: nat, key: string)
    requires |run| == |steps| + 1 && i < |run| && IsRun(cfg, run, steps)
    ensures RowsThere(run[i])
  {
    if i > 0 {
      RowsAreThere(cfg, run, steps, i - 1, key);
      assert Enabled(cfg, run[i - 1], steps[i - 1]) && run[i] == Apply(cfg, run[i - 1], steps[i - 1]);
      hide IsRun;
      RowsStay(cfg, run[i - 1], steps[i - 1]);
    }
  }

  lemma RowsStay(cfg: Config, s: State, step: Step)
    requires Enabled(cfg, s, step) && RowsThere(s)
    ensures RowsThere(Apply(cfg, s, step))
  {
  }

  /** A counter set back under the attempt in flight lets the reconciler retry as often as MaxAttempts, here twice. */
  lemma ResetAddsRetry(key: string) returns (run: seq<State>, steps: seq<Step>)
    ensures |run| == |steps| + 1 && IsRun(Config(2, 1), run, steps) && |steps| == 14
    ensures steps[5] == Mark(0) && steps[6] == Request(key)
    ensures steps[7..] == [AbortFails(0), Fire(0), Repush(0), Send(0), Pop, Mark(0), AbortFails(0)]
    ensures RetryCount(Config(2, 1), run, steps, key, 7, 14) == 2
  {
    hide *;
    run, steps := ResetInFlight(key);
    assert run[7] == State({key}, [], map[0 := Token(key, Aborting(1))], map[key := 0], {key});
    run, steps := RetryOnce(run, steps, key);
    run, steps := FailAgain(run, steps, key);
    assert steps[7..] == [AbortFails(0), Fire(0), Repush(0), Send(0), Pop, Mark(0), AbortFails(0)];
    FirstAttemptRetries(run[7], key);
    CountTwice(run, steps, key);
  }

  /** The request is made anew during the first attempt. */
  lemma ResetInFlight(key: string) returns (run: seq<State>, steps: seq<Step>)
    ensures |run| == |steps| + 1 && IsRun(Config(2, 1), run, steps)
    ensures steps == [NewAction(key), Request(key), Push(0, key), Send(0), Pop, Mark(0), Request(key)]
    ensures run[|steps|] == State({key}, [], map[0 := Token(key, Aborting(1))], map[key := 0], {key})
  {
    run, steps := Ask(Config(2, 1), key);
    hide IsRun;
    run, steps := Extend(Config(2, 1), run, steps, Mark(0));
    run, steps := Extend(Config(2, 1), run, steps, Request(key));
  }

  lemma FailAgain(run: seq<State>, steps: seq<Step>, key: string) returns (run': seq<State>, steps': seq<Step>)
    requires |run| == |steps| + 1 && IsRun(Config(2, 1), run, steps)
    requires run[|steps|] == State({key}, [], map[0 := Token(key, Processing)], map[key := 0], {key})
    ensures |run'| == |steps'| + 1 && IsRun(Config(2, 1), run', steps') && run <= run'
    ensures steps' == steps + [Mark(0), AbortFails(0)] && Retries(Config(2, 1), run'[|steps| + 1], AbortFails(0), key)
  {
    hide IsRun;
    run', steps' := Extend(Config(2, 1), run, steps, Mark(0));
    run', steps' := Extend(Config(2, 1), run', steps', AbortFails(0));
  }

  lemma FirstAttemptRetries(s: State, key: string)
    requires s == State({key}, [], map[0 := Token(key, Aborting(1))], map[key := 0], {key})
    ensures Retries(Config(2, 1), s, AbortFails(0), key)
  {
  }

  /** A failed attempt waits, comes again and is taken up. */
  lemma RetryOnce(run: seq<State>, steps: seq<Step>, key: string) returns (run': seq<State>, steps': seq<Step>)
    requires |run| == |steps| + 1 && IsRun(Config(2, 1), run, steps)
    requires run[|steps|] == State({key}, [], map[0 := Token(key, Aborting(1))], map[key := 0], {key})
    ensures |run'| == |steps'| + 1 && IsRun(Config(2, 1), run', steps') && run <= run'
    ensures steps' == steps + [AbortFails(0), Fire(0), Repush(0), Send(0), Pop]
    ensures run'[|steps'|] == State({key}, [], map[0 := Token(key, Processing)], map[key := 0], {key})
  {
    hide *;
    run', steps' := FailAndWait(run, steps, key);
    run', steps' := ComeAgain(run', steps', key);
  }

  lemma FailAndWait(run: seq<State>, steps: seq<Step>, key: string) returns (run': seq<State>, steps': seq<Step>)
    requires |run| == |steps| + 1 && IsRun(Config(2, 1), run, steps)
    requires run[|steps|] == State({key}, [], map[0 := Token(key, Aborting(1))], map[key := 0], {key})
    ensures |run'| == |steps'| + 1 && IsRun(Config(2, 1), run', steps') && run <= run'
    ensures steps' == steps + [AbortFails(0), Fire(0)]
    ensures run'[|steps'|] == State({}, [], map[0 := Token(key, Repushing)], map[key := 0], {key})
  {
    hide IsRun;
    run', steps' := Extend(Config(2, 1), run, steps, AbortFails(0));
    run', steps' := Extend(Config(2, 1), run', steps', Fire(0));
  }

  lemma ComeAgain(run: seq<State>, steps: seq<Step>, key: string) returns (run': seq<State>, steps': seq<Step>)
    requires |run| == |steps| + 1 && IsRun(Config(2, 1), run, steps)
    requires run[|steps|] == State({}, [], map[0 := Token(key, Repushing)], map[key := 0], {key})
    ensures |run'| == |steps'| + 1 && IsRun(Config(2, 1), run', steps') && run <= run'
    ensures steps' == steps + [Repush(0), Send(0), Pop]
    ensures run'[|steps'|] == State({key}, [], map[0 := Token(key, Processing)], map[key := 0], {key})
  {
    hide IsRun;
    run', steps' := Extend(Config(2, 1), run, steps, Repush(0));
    run', steps' := Extend(Config(2, 1), run', steps', Send(0));
    assert run'[|steps'|] == State({key}, [0], map[0 := Token(key, Queued)], map[key := 0], {key});
    run', steps' := Extend(Config(2, 1), run', steps', Pop);
  }

  lemma CountTwice(run: seq<State>, steps: seq<Step>, key: string)
    requires |run| == |steps| + 1 && |steps| == 14
    requires steps[7..] == [AbortFails(0), Fire(0), Repush(0), Send(0), Pop, Mark(0), AbortFails(0)]
    requires Retries(Config(2, 1), run[7], AbortFails(0), key) && Retries(Config(2, 1), run[13], AbortFails(0), key)
    ensures RetryCount(Config(2, 1), run, steps, key, 7, 14) == 2
  {
    assert forall n :: 7 <= n < 14 ==> steps[n] == steps[7..][n - 7];
    hide Retries;
    assert RetryCount(Config(2, 1), run, steps, key, 7, 8) == 1;
    forall n | 8 <= n < 13 ensures !Retries(Config(2, 1), run[n], steps[n], key) {
      NoFailure(run[n], steps[n], key);
    }
    assert RetryCount(Config(2, 1), run, steps, key, 7, 10) == 1;
    assert RetryCount(Config(2, 1), run, steps, key, 7, 12) == 1;
    assert RetryCount(Config(2, 1), run, steps, key, 7, 13) == 1;
  }

  lemma NoFailure(s: State, step: Step, key: string)
    requires !step.AbortFails?
    ensures !Retries(Config(2, 1), s, step, key)
  {
  }

  /** The user asks again before the request is cleared, and nobody will ever call Abort for that. */
  lemma GivenUpRequestIsLost(key: string)
      returns (run: seq<State>, steps: seq<Step>, later: seq<State>, laterSteps: seq<Step>)
    ensures |run| == |steps| + 1 && IsRun(Config(1, 1), run, steps)
    ensures steps == [NewAction(key), Request(key), Push(0, key), Send(0), Pop, Mark(0), AbortFails(0), Request(key)]
    ensures |later| == |laterSteps| + 1 && Loses(Config(1, 1), run, steps, 1, key, later, laterSteps)
    ensures key !in later[|laterSteps|].requested
  {
    run, steps := GiveUp(key);
    hide IsRun, Loses;
    run, steps := Extend(Config(1, 1), run, steps, Request(key));
    assert At(run[|steps|], 0, Clearing);
    later, laterSteps := DroppedPush(Config(1, 1), run, steps, 1, key, 0);
  }
}
