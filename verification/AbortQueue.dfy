/** The abort reconciler: a key-deduplicated queue, workers, timers and the attempt counter kept in the database. */
module AbortQueue {

  /** A token is one accepted push of a key on its way through the reconciler. */
  datatype Stage =
    | Sending
    | Queued
    | Processing
    | Aborting(attempt: nat)
    | Clearing
    | Removing
    | Waiting
    | Repushing

  datatype Token = Token(key: string, stage: Stage)

  datatype State = State(
    keys: set<string>,
    ch: seq<nat>,
    tokens: map<nat, Token>,
    attempts: map<string, nat>,
    requested: set<string>)

  datatype Config = Config(maxAttempts: nat, queueSize: nat)

  datatype Step =
    | Push(id: nat, key: string)
    | Send(id: nat)
    | Cancel(id: nat)
    | Pop
    | MarkNoRow(id: nat)
    | MarkFails(id: nat)
    | Mark(id: nat)
    | AbortSucceeds(id: nat)
    | AbortFails(id: nat)
    | ClearRequest(id: nat, cleared: bool)
    | Remove(id: nat)
    | Fire(id: nat)
    | Repush(id: nat)
    | NewAction(key: string)
    | Request(key: string)

  function Init(): State {
    State({}, [], map[], map[], {})
  }

  predicate At(s: State, id: nat, stage: Stage) {
    id in s.tokens && s.tokens[id].stage == stage
  }

  /** A token stands for its key from its entry into the key set until it leaves it. */
  predicate Live(s: State, id: nat) {
    id in s.tokens && s.tokens[id].stage != Repushing
  }

  predicate AtAbort(s: State, id: nat) {
    id in s.tokens && s.tokens[id].stage.Aborting? && s.tokens[id].key in s.attempts
  }

  predicate Enabled(cfg: Config, s: State, step: Step) {
    match step
    case Push(id, _) => id !in s.tokens
    case Send(id) => At(s, id, Sending) && |s.ch| < cfg.queueSize
    case Cancel(id) => At(s, id, Sending)
    case Pop => |s.ch| > 0 && s.ch[0] in s.tokens
    case MarkNoRow(id) => At(s, id, Processing) && s.tokens[id].key !in s.attempts
    case MarkFails(id) => At(s, id, Processing)
    case Mark(id) => At(s, id, Processing) && s.tokens[id].key in s.attempts
    case AbortSucceeds(id) => AtAbort(s, id)
    case AbortFails(id) => AtAbort(s, id)
    case ClearRequest(id, _) => At(s, id, Clearing)
    case Remove(id) => At(s, id, Removing)
    case Fire(id) => At(s, id, Waiting)
    case Repush(id) => At(s, id, Repushing)
    case NewAction(key) => key !in s.attempts
    case Request(key) => key in s.attempts
  }

  /** push's first critical section: a key already present drops the token. */
  function Reserve(s: State, id: nat, key: string): State {
    if key in s.keys then s.(tokens := s.tokens - {id})
    else s.(keys := s.keys + {key}, tokens := s.tokens[id := Token(key, Sending)])
  }

  function Move(s: State, id: nat, stage: Stage): State
    requires id in s.tokens
  {
    s.(tokens := s.tokens[id := s.tokens[id].(stage := stage)])
  }

  /** remove: the token and its key leave together. */
  function Retire(s: State, id: nat): State
    requires id in s.tokens
  {
    s.(keys := s.keys - {s.tokens[id].key}, tokens := s.tokens - {id})
  }

  /** ClearAbortRequest resets the counter and takes the flag back, unless the statement fails. */
  function Clear(s: State, key: string, cleared: bool): State {
    if cleared && key in s.attempts then s.(attempts := s.attempts[key := 0], requested := s.requested - {key}) else s
  }

  predicate GivesUp(cfg: Config, attempt: nat) {
    attempt >= cfg.maxAttempts
  }

  function Apply(cfg: Config, s: State, step: Step): State
    requires Enabled(cfg, s, step)
  {
    match step
    case Push(id, key) => Reserve(s, id, key)
    case Send(id) => Move(s, id, Queued).(ch := s.ch + [id])
    case Cancel(id) => Retire(s, id)
    case Pop => Move(s, s.ch[0], Processing).(ch := s.ch[1..])
    case MarkNoRow(id) => Retire(s, id)
    case MarkFails(id) => Move(s, id, Waiting)
    case Mark(id) =>
      var n := s.attempts[s.tokens[id].key] + 1;
      Move(s, id, Aborting(n)).(attempts := s.attempts[s.tokens[id].key := n])
    case AbortSucceeds(id) => Move(s, id, Clearing)
    case AbortFails(id) => Move(s, id, if GivesUp(cfg, s.tokens[id].stage.attempt) then Clearing else Waiting)
    case ClearRequest(id, cleared) => Move(Clear(s, s.tokens[id].key, cleared), id, Removing)
    case Remove(id) => Retire(s, id)
    case Fire(id) => Move(s, id, Repushing).(keys := s.keys - {s.tokens[id].key})
    case Repush(id) => Reserve(s, id, s.tokens[id].key)
    case NewAction(key) => s.(attempts := s.attempts[key := 0])
    case Request(key) => s.(attempts := s.attempts[key := 0], requested := s.requested + {key})
  }

  ghost predicate IsRun(cfg: Config, run: seq<State>, steps: seq<Step>) {
    && |run| == |steps| + 1
    && run[0] == Init()
    && forall n :: 0 <= n < |steps| ==> Enabled(cfg, run[n], steps[n]) && run[n + 1] == Apply(cfg, run[n], steps[n])
  }

  lemma StepAt(cfg: Config, run: seq<State>, steps: seq<Step>, n: nat)
    requires n < |steps| && IsRun(cfg, run, steps)
    ensures |run| == |steps| + 1 && Enabled(cfg, run[n], steps[n]) && run[n + 1] == Apply(cfg, run[n], steps[n])
  {
  }

  /** The channel holds exactly the queued tokens, each once. */
  ghost predicate ChannelInv(s: State) {
    && (forall i :: 0 <= i < |s.ch| ==> At(s, s.ch[i], Queued))
    && (forall i, j :: 0 <= i < j < |s.ch| ==> s.ch[i] != s.ch[j])
    && (forall id :: At(s, id, Queued) ==> id in s.ch)
  }

  /** One live token per key in the set, and none for any other key. */
  ghost predicate TokenInv(s: State) {
    && (forall id :: Live(s, id) ==> s.tokens[id].key in s.keys)
    && (forall key :: key in s.keys ==> exists id :: Live(s, id) && s.tokens[id].key == key)
    && (forall id, id' | Live(s, id) && Live(s, id') && id != id' :: s.tokens[id].key != s.tokens[id'].key)
  }

  ghost predicate AttemptInv(s: State) {
    forall id :: id in s.tokens && s.tokens[id].stage.Aborting? ==>
      s.tokens[id].key in s.attempts && 0 < s.tokens[id].stage.attempt
  }

  ghost predicate Inv(s: State) {
    ChannelInv(s) && TokenInv(s) && AttemptInv(s)
  }

  lemma ChannelStep(cfg: Config, s: State, step: Step)
    requires Enabled(cfg, s, step) && ChannelInv(s)
    ensures ChannelInv(Apply(cfg, s, step))
  {
    hide ChannelInv;
    match step
    case Push(id, key) =>
      PushedIsNotQueued(s, id);
      ReserveKeepsChannel(s, id, key);
    case Repush(id) => ReserveKeepsChannel(s, id, s.tokens[id].key);
    case Send(id) => SendKeepsChannel(s, id);
    case Pop => PopKeepsChannel(s);
    case Cancel(id) => RetireKeepsChannel(s, id);
    case MarkNoRow(id) => RetireKeepsChannel(s, id);
    case AbortSucceeds(id) => MoveKeepsChannel(s, id, Clearing);
    case AbortFails(id) =>
      MoveKeepsChannel(s, id, if GivesUp(cfg, s.tokens[id].stage.attempt) then Clearing else Waiting);
    case ClearRequest(id, cleared) =>
      MoveKeepsChannel(s, id, Removing);
      SameChannel(Move(s, id, Removing), Apply(cfg, s, step));
    case Remove(id) => RetireKeepsChannel(s, id);
    case MarkFails(id) => MoveKeepsChannel(s, id, Waiting);
    case Mark(id) =>
      var stage := Aborting(s.attempts[s.tokens[id].key] + 1);
      MoveKeepsChannel(s, id, stage);
      SameChannel(Move(s, id, stage), Apply(cfg, s, step));
    case Fire(id) =>
      MoveKeepsChannel(s, id, Repushing);
      SameChannel(Move(s, id, Repushing), Apply(cfg, s, step));
    case NewAction(_) => SameChannel(s, Apply(cfg, s, step));
    case Request(_) => SameChannel(s, Apply(cfg, s, step));
  }

  lemma PushedIsNotQueued(s: State, id: nat)
    requires id !in s.tokens
    ensures !At(s, id, Queued)
  {}

  lemma SameChannel(s: State, s': State)
    requires ChannelInv(s) && s.ch == s'.ch && s.tokens == s'.tokens
    ensures ChannelInv(s')
  {
    assert forall id :: At(s, id, Queued) == At(s', id, Queued);
  }

  lemma SendKeepsChannel(s: State, id: nat)
    requires ChannelInv(s) && At(s, id, Sending)
    ensures ChannelInv(Move(s, id, Queued).(ch := s.ch + [id]))
  {}

  lemma PopKeepsChannel(s: State)
    requires ChannelInv(s) && |s.ch| > 0 && s.ch[0] in s.tokens
    ensures ChannelInv(Move(s, s.ch[0], Processing).(ch := s.ch[1..]))
  {
    var after := Move(s, s.ch[0], Processing).(ch := s.ch[1..]);
    forall id | At(after, id, Queued) ensures id in after.ch {
      assert At(s, id, Queued) && id != s.ch[0];
    }
  }

  lemma MoveKeepsChannel(s: State, id: nat, stage: Stage)
    requires ChannelInv(s) && id in s.tokens && !At(s, id, Queued) && stage != Queued
    ensures ChannelInv(Move(s, id, stage))
  {}

  lemma ReserveKeepsChannel(s: State, id: nat, key: string)
    requires ChannelInv(s) && !At(s, id, Queued)
    ensures ChannelInv(Reserve(s, id, key))
  {}

  lemma RetireKeepsChannel(s: State, id: nat)
    requires ChannelInv(s) && id in s.tokens && !At(s, id, Queued)
    ensures ChannelInv(Retire(s, id))
  {}

  lemma TokenStep(cfg: Config, s: State, step: Step)
    requires Enabled(cfg, s, step) && ChannelInv(s) && TokenInv(s)
    ensures TokenInv(Apply(cfg, s, step))
  {
    hide TokenInv;
    match step
    case Push(id, key) => ReserveKeepsTokens(s, id, key);
    case Repush(id) => ReserveKeepsTokens(s, id, s.tokens[id].key);
    case Send(id) =>
      MoveKeepsTokens(s, id, Queued);
      SameTokens(Move(s, id, Queued), Apply(cfg, s, step));
    case Pop =>
      assert At(s, s.ch[0], Queued);
      MoveKeepsTokens(s, s.ch[0], Processing);
      SameTokens(Move(s, s.ch[0], Processing), Apply(cfg, s, step));
    case Cancel(id) => RetireKeepsTokens(s, id);
    case MarkNoRow(id) => RetireKeepsTokens(s, id);
    case MarkFails(id) => MoveKeepsTokens(s, id, Waiting);
    case Mark(id) =>
      var stage := Aborting(s.attempts[s.tokens[id].key] + 1);
      MoveKeepsTokens(s, id, stage);
      SameTokens(Move(s, id, stage), Apply(cfg, s, step));
    case AbortSucceeds(id) => MoveKeepsTokens(s, id, Clearing);
    case AbortFails(id) =>
      MoveKeepsTokens(s, id, if GivesUp(cfg, s.tokens[id].stage.attempt) then Clearing else Waiting);
    case ClearRequest(id, cleared) =>
      MoveKeepsTokens(s, id, Removing);
      SameTokens(Move(s, id, Removing), Apply(cfg, s, step));
    case Remove(id) => RetireKeepsTokens(s, id);
    case Fire(id) => FireKeepsTokens(s, id);
    case NewAction(_) => SameTokens(s, Apply(cfg, s, step));
    case Request(_) => SameTokens(s, Apply(cfg, s, step));
  }

  lemma SameTokens(s: State, s': State)
    requires TokenInv(s) && s.keys == s'.keys && s.tokens == s'.tokens
    ensures TokenInv(s')
  {
    assert forall id :: Live(s, id) == Live(s', id);
  }

  lemma ReserveKeepsTokens(s: State, id: nat, key: string)
    requires TokenInv(s) && !Live(s, id)
    ensures TokenInv(Reserve(s, id, key))
  {
    var after := Reserve(s, id, key);
    forall t ensures Live(after, t) == (Live(s, t) || (t == id && key !in s.keys)) {}
    forall k | k in after.keys
      ensures exists t :: Live(after, t) && after.tokens[t].key == k
    {
      var t: nat := id;
      if k in s.keys {
        t :| Live(s, t) && s.tokens[t].key == k;
      }
      assert Live(after, t) && after.tokens[t].key == k;
    }
  }

  lemma MoveKeepsTokens(s: State, id: nat, stage: Stage)
    requires TokenInv(s) && Live(s, id) && stage != Repushing
    ensures TokenInv(Move(s, id, stage))
  {
    var after := Move(s, id, stage);
    forall k | k in after.keys
      ensures exists t :: Live(after, t) && after.tokens[t].key == k
    {
      var t :| Live(s, t) && s.tokens[t].key == k;
      assert Live(after, t) && after.tokens[t].key == k;
    }
  }

  lemma RetireKeepsTokens(s: State, id: nat)
    requires TokenInv(s) && Live(s, id)
    ensures TokenInv(Retire(s, id))
  {
    var after := Retire(s, id);
    forall k | k in after.keys
      ensures exists t :: Live(after, t) && after.tokens[t].key == k
    {
      var t :| Live(s, t) && s.tokens[t].key == k;
      assert Live(after, t) && after.tokens[t].key == k;
    }
  }

  lemma FireKeepsTokens(s: State, id: nat)
    requires TokenInv(s) && Live(s, id)
    ensures TokenInv(Move(s, id, Repushing).(keys := s.keys - {s.tokens[id].key}))
  {
    var after := Move(s, id, Repushing).(keys := s.keys - {s.tokens[id].key});
    forall k | k in after.keys
      ensures exists t :: Live(after, t) && after.tokens[t].key == k
    {
      var t :| Live(s, t) && s.tokens[t].key == k;
      assert Live(after, t) && after.tokens[t].key == k;
    }
  }

  lemma AttemptStep(cfg: Config, s: State, step: Step)
    requires Enabled(cfg, s, step) && Inv(s)
    ensures AttemptInv(Apply(cfg, s, step))
  {}

  lemma {:induction false} InvRun(cfg: Config, run: seq<State>, steps: seq<Step>, n: nat)
    requires IsRun(cfg, run, steps) && n < |run|
    ensures Inv(run[n])
  {
    if n > 0 {
      InvRun(cfg, run, steps, n - 1);
      ChannelStep(cfg, run[n - 1], steps[n - 1]);
      TokenStep(cfg, run[n - 1], steps[n - 1]);
      AttemptStep(cfg, run[n - 1], steps[n - 1]);
    }
  }

  /** A key is in the dedup set exactly when one token for it is sending, queued, being processed or waiting. */
  lemma OneLiveToken(cfg: Config, run: seq<State>, steps: seq<Step>, n: nat, key: string)
    requires IsRun(cfg, run, steps) && n < |run|
    ensures
      var s := run[n];
      key in s.keys <==>
      exists id :: Live(s, id) && s.tokens[id].key == key
                   && forall id' :: Live(s, id') && s.tokens[id'].key == key ==> id' == id
  {
    InvRun(cfg, run, steps, n);
    var s := run[n];
    if key in s.keys {
      var id :| Live(s, id) && s.tokens[id].key == key;
      assert forall id' :: Live(s, id') && s.tokens[id'].key == key ==> id' == id;
    }
  }

  predicate Working(s: State, id: nat) {
    id in s.tokens && var stage := s.tokens[id].stage;
    stage == Processing || stage.Aborting? || stage == Clearing || stage == Removing
  }

  /** Two workers never process the same action at once. */
  lemma NeverProcessedTwice(cfg: Config, run: seq<State>, steps: seq<Step>, n: nat, id: nat, id': nat)
    requires IsRun(cfg, run, steps) && n < |run|
    requires Working(run[n], id) && Working(run[n], id') && id != id'
    ensures run[n].tokens[id].key != run[n].tokens[id'].key
  {
    InvRun(cfg, run, steps, n);
  }

  /** The step is a failed Abort of the key that will be retried. */
  predicate Retries(cfg: Config, s: State, step: Step, key: string) {
    && step.AbortFails? && AtAbort(s, step.id) && s.tokens[step.id].key == key
    && !GivesUp(cfg, s.tokens[step.id].stage.attempt)
  }

  /** The step sets the counter back: a ClearAbortRequest of the key that goes through, or a new request. */
  predicate Resets(s: State, step: Step, key: string) {
    || (step.ClearRequest? && At(s, step.id, Clearing) && s.tokens[step.id].key == key && step.cleared)
    || step == Request(key)
  }

  /** How many Abort calls for the key fail and are retried between states i and j. */
  ghost function RetryCount(cfg: Config, run: seq<State>, steps: seq<Step>, key: string, i: nat, j: nat): nat
    requires i <= j <= |steps| && |run| == |steps| + 1
    decreases j
  {
    if i == j then 0
    else RetryCount(cfg, run, steps, key, i, j - 1) + (if Retries(cfg, run[j - 1], steps[j - 1], key) then 1 else 0)
  }

  /** The attempt number of the last of them. */
  ghost function LastRetry(cfg: Config, run: seq<State>, steps: seq<Step>, key: string, i: nat, j: nat): nat
    requires i <= j <= |steps| && |run| == |steps| + 1
    decreases j
  {
    if i == j then 0
    else if Retries(cfg, run[j - 1], steps[j - 1], key) then run[j - 1].tokens[steps[j - 1].id].stage.attempt
    else LastRetry(cfg, run, steps, key, i, j - 1)
  }

  /** The attempt counter stands at last or above, and an Abort in flight carries a number above it, up to the counter. */
  ghost predicate Above(s: State, key: string, last: nat) {
    && (last > 0 ==> key in s.attempts && s.attempts[key] >= last)
    && CountedSince(s, key, last)
  }

  ghost predicate CountedSince(s: State, key: string, last: nat) {
    forall id :: id in s.tokens && s.tokens[id].key == key && s.tokens[id].stage.Aborting? ==>
      key in s.attempts && last < s.tokens[id].stage.attempt <= s.attempts[key]
  }

  /** No attempt in flight was counted before the counter was last set back. */
  ghost predicate Counted(s: State, key: string) {
    CountedSince(s, key, 0)
  }

  lemma AboveStep(cfg: Config, s: State, step: Step, key: string, last: nat)
    requires Enabled(cfg, s, step) && Inv(s) && Above(s, key, last) && !Resets(s, step, key)
    ensures
      var n := if Retries(cfg, s, step, key) then s.tokens[step.id].stage.attempt else last;
      Above(Apply(cfg, s, step), key, n) && if Retries(cfg, s, step, key) then last < n < cfg.maxAttempts else n == last
  {
    if Retries(cfg, s, step, key) {
      NoneAborts(cfg, s, step, key);
    } else if step.Mark? && s.tokens[step.id].key == key {
      MarkKeepsAbove(cfg, s, step.id, key, last);
    } else {
      OthersKeepAbove(cfg, s, step, key, last);
    }
  }

  lemma MarkKeepsAbove(cfg: Config, s: State, id: nat, key: string, last: nat)
    requires Enabled(cfg, s, Mark(id)) && TokenInv(s) && s.tokens[id].key == key && Above(s, key, last)
    ensures Above(Apply(cfg, s, Mark(id)), key, last)
  {
    var after := Apply(cfg, s, Mark(id));
    forall t | t in after.tokens && after.tokens[t].key == key && after.tokens[t].stage.Aborting? ensures t == id {
      assert Live(s, t) && Live(s, id);
    }
  }

  lemma OthersKeepAbove(cfg: Config, s: State, step: Step, key: string, last: nat)
    requires Enabled(cfg, s, step) && ChannelInv(s) && Above(s, key, last) && !Resets(s, step, key)
    requires step.Mark? ==> s.tokens[step.id].key != key
    ensures Above(Apply(cfg, s, step), key, last)
  {
  }

  lemma NoneAborts(cfg: Config, s: State, step: Step, key: string)
    requires Enabled(cfg, s, step) && Inv(s) && Retries(cfg, s, step, key)
    ensures
      var after := Apply(cfg, s, step);
      forall id :: id in after.tokens && after.tokens[id].key == key ==> !after.tokens[id].stage.Aborting?
  {
    var after := Apply(cfg, s, step);
    forall id | id in after.tokens && after.tokens[id].key == key
      ensures !after.tokens[id].stage.Aborting?
    {
      assert id == step.id || !Live(s, id);
    }
  }

  /** As long as the counter of a key is not set back, each retried Abort call counted by it has a higher attempt
      number than the one before, so at most MaxAttempts - 1 calls are retried. */
  lemma {:induction false} RetriesAreBounded(cfg: Config, run: seq<State>, steps: seq<Step>, key: string, i: nat, j: nat)
    requires |run| == |steps| + 1 && i <= j <= |steps| && IsRun(cfg, run, steps)
    requires (forall n :: i <= n < j ==> !Resets(run[n], steps[n], key)) && Counted(run[i], key)
    ensures RetryCount(cfg, run, steps, key, i, j) <= LastRetry(cfg, run, steps, key, i, j)
    ensures LastRetry(cfg, run, steps, key, i, j) < cfg.maxAttempts || LastRetry(cfg, run, steps, key, i, j) == 0
    ensures RetryCount(cfg, run, steps, key, i, j) == 0 || RetryCount(cfg, run, steps, key, i, j) < cfg.maxAttempts
    ensures Above(run[j], key, LastRetry(cfg, run, steps, key, i, j))
    decreases j
  {
    hide Enabled, Apply, IsRun, Retries, Resets;
    if i < j {
      hide Above, Counted;
      StepAt(cfg, run, steps, j - 1);
      InvRun(cfg, run, steps, j - 1);
      RetriesAreBounded(cfg, run, steps, key, i, j - 1);
      AboveStep(cfg, run[j - 1], steps[j - 1], key, LastRetry(cfg, run, steps, key, i, j - 1));
    }
  }

  /** An attempt that was already in flight when the counter was set back may add one more. */
  lemma {:induction false} RetriesAfterReset(cfg: Config, run: seq<State>, steps: seq<Step>, key: string, i: nat, j: nat)
    requires |run| == |steps| + 1 && i <= j <= |steps| && IsRun(cfg, run, steps)
    requires forall n :: i <= n < j ==> !Resets(run[n], steps[n], key)
    ensures RetryCount(cfg, run, steps, key, i, j) <= cfg.maxAttempts
    decreases j - i
  {
    if i < j {
      FirstCounts(cfg, run, steps, key, i, j);
      if Retries(cfg, run[i], steps[i], key) {
        InvRun(cfg, run, steps, i);
        assert Enabled(cfg, run[i], steps[i]) && run[i + 1] == Apply(cfg, run[i], steps[i]);
        NoneAborts(cfg, run[i], steps[i], key);
        RetriesAreBounded(cfg, run, steps, key, i + 1, j);
      } else {
        RetriesAfterReset(cfg, run, steps, key, i + 1, j);
      }
    }
  }

  lemma {:induction false} FirstCounts(cfg: Config, run: seq<State>, steps: seq<Step>, key: string, i: nat, j: nat)
    requires |run| == |steps| + 1 && i < j <= |steps|
    ensures
      RetryCount(cfg, run, steps, key, i, j) ==
      (if Retries(cfg, run[i], steps[i], key) then 1 else 0) + RetryCount(cfg, run, steps, key, i + 1, j)
    decreases j
  {
    if i + 1 < j {
      FirstCounts(cfg, run, steps, key, i, j - 1);
    }
  }
}
