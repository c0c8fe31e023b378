/** TaskAction events from the API server to the run service and the watch streams, one atomic step at a time. */
module WatchPipeline {
  import opened Base
  import opened Phases

  type Name = string

  /** One version of a custom resource; the last one of a deleted resource is not live. */
  datatype Object = Object(phase: Phase, labelled: bool, live: bool)

  /** Where the labels of a new resource come from: the run spec, the parent, or nowhere. */
  datatype Origin = RootTask(keyInRunSpec: bool) | ChildTask(parent: Name, inherited: bool) | Condition

  /** A run and a parent action: what a watch stream is about. */
  datatype Scope = Scope(run: string, parent: string)

  datatype Action = Action(action: string, scope: Scope, origin: Origin, versions: seq<Object>)

  datatype Kind = Added | Modified | Deleted

  /** An informer event with the version of the object it carries. */
  datatype Event = Event(name: Name, kind: Kind, version: nat)

  /** What a worker hands on: the version read, and the version it stands for (for a delete, the final one). */
  datatype Update = Update(name: Name, kind: Kind, version: nat, rev: nat)

  datatype Stage =
    | Idle
    | Popped(event: Event)
    | Unmarked(event: Event)
    | Ready(update: Update)
    | Notified(update: Update)
    | Noted(update: Update)
    | Patching(update: Update)

  datatype Message = Message(name: Name, rev: nat, phase: Phase)

  /** A watch stream: its channel, what it has sent, and whether a full channel ever lost a message. */
  datatype Stream = Stream(scope: Scope, listed: bool, queue: seq<Message>, sent: seq<Message>, lossy: bool)

  /** What the run service answered: actions recorded, the filter's slots, and the last final phase accepted. */
  datatype Service = Service(recorded: set<Name>, filter: map<nat, Name>, accepted: map<Name, Phase>)

  /** `cache`, `handled` and `notified` count the versions of an action seen so far by the informer, read by its
      worker and sent to the streams; `finished` holds the actions whose deletion was handled, or that were gone
      before the informer first saw them. */
  datatype State = State(
    actions: map<Name, Action>,
    cache: map<Name, nat>,
    handlers: seq<Event>,
    sending: Option<Event>,
    marks: set<Name>,
    channels: seq<seq<Event>>,
    workers: seq<Stage>,
    handled: map<Name, nat>,
    finished: set<Name>,
    notified: map<Name, nat>,
    service: Service,
    streams: map<nat, Stream>)

  /** FNV hashes are arbitrary; `slot` is the filter slot of an action. */
  datatype Config = Config(numWorkers: nat, bufferSize: nat, hash: Name -> nat, slot: Name -> nat)

  predicate Valid(c: Config) {
    c.numWorkers > 0
  }

  function Shard(c: Config, n: Name): nat
    requires Valid(c)
  {
    c.hash(n) % c.numWorkers
  }

  function Count(m: map<Name, nat>, n: Name): nat {
    if n in m then m[n] else 0
  }

  function Versions(s: State, n: Name): seq<Object> {
    if n in s.actions then s.actions[n].versions else []
  }

  predicate HasVersion(s: State, n: Name, r: nat) {
    0 < r <= |Versions(s, n)|
  }

  /** The r-th version of an action, counting from one. */
  function Version(s: State, n: Name, r: nat): Object
    requires HasVersion(s, n, r)
  {
    Versions(s, n)[r - 1]
  }

  function Latest(s: State, n: Name): nat {
    |Versions(s, n)|
  }

  predicate Exists(s: State, n: Name) {
    Latest(s, n) > 0 && Version(s, n, Latest(s, n)).live
  }

  /** buildActionUpdate: the deletion of an action that had not finished is an abort. */
  function UpdatePhase(s: State, u: Update): Phase
    requires HasVersion(s, u.name, u.version)
  {
    var phase := Version(s, u.name, u.version).phase;
    if u.kind.Deleted? && !Terminal(phase) then Aborted else phase
  }

  function SubscriberKey(scope: Scope): string {
    scope.run + "/" + scope.parent
  }

  /** Writers of custom resources, other than this client's label patch. */
  datatype ApiStep =
    | Create(name: Name, action: string, scope: Scope, origin: Origin)
    | Write(name: Name, phase: Phase)
    | Remove(name: Name)

  datatype InformerStep = Inform(name: Name, rev: nat, version: nat) | Dispatch | Send

  datatype WorkerStep = Pop | Unmark | Read | Notify | Record(ok: bool) | UpdateStatus(ok: bool) | Patch(ok: bool)

  datatype WatchStep = Subscribe(scope: Scope) | List(snapshot: seq<Message>) | Deliver | Unsubscribe

  datatype Step =
    | Api(api: ApiStep)
    | Informer(informer: InformerStep)
    | Worker(shard: nat, worker: WorkerStep)
    | Watch(id: nat, watch: WatchStep)

  function Init(c: Config): State {
    State(map[], map[], [], None, {}, seq(c.numWorkers, _ => []), seq(c.numWorkers, _ => Idle),
          map[], {}, map[], Service({}, map[], map[]), map[])
  }

  /** A child task copies the labels its parent has; only labels present at the time can be copied. */
  predicate CanHaveOrigin(s: State, origin: Origin) {
    origin.ChildTask? ==>
      && Latest(s, origin.parent) > 0
      && (origin.inherited ==> Version(s, origin.parent, Latest(s, origin.parent)).labelled)
  }

  predicate BornLabelled(origin: Origin) {
    match origin
    case RootTask(key) => key
    case ChildTask(_, inherited) => inherited
    case Condition => false
  }

  predicate AtStage(s: State, shard: nat) {
    shard < |s.workers| && shard < |s.channels|
  }

  predicate StageVersions(s: State, shard: nat) {
    AtStage(s, shard) &&
    match s.workers[shard]
    case Ready(u) => HasVersion(s, u.name, u.version)
    case Notified(u) => HasVersion(s, u.name, u.version)
    case Noted(u) => HasVersion(s, u.name, u.version)
    case Patching(u) => HasVersion(s, u.name, u.version)
    case _ => false
  }

  /** ListChildActions: every live child at its latest version, in any order, and maybe the parent itself. */
  ghost predicate IsSnapshot(s: State, scope: Scope, snapshot: seq<Message>) {
    && (forall i :: 0 <= i < |snapshot| ==> IsListed(s, scope, snapshot[i]))
    && forall n | n in s.actions && s.actions[n].scope == scope && Exists(s, n) ::
         Message(n, Latest(s, n), Version(s, n, Latest(s, n)).phase) in snapshot
  }

  predicate IsListed(s: State, scope: Scope, m: Message) {
    && m.name in s.actions && Exists(s, m.name)
    && m.rev == Latest(s, m.name) && m.phase == Version(s, m.name, m.rev).phase
    && (s.actions[m.name].scope == scope
        || (s.actions[m.name].scope.run == scope.run && s.actions[m.name].action == scope.parent))
  }

  predicate ApiEnabled(s: State, step: ApiStep) {
    match step
    case Create(n, _, _, origin) => n !in s.actions && CanHaveOrigin(s, origin)
    case Write(n, phase) =>
      Exists(s, n) && (Terminal(Version(s, n, Latest(s, n)).phase) ==> phase == Version(s, n, Latest(s, n)).phase)
    case Remove(n) => Exists(s, n)
  }

  predicate InformerEnabled(c: Config, s: State, step: InformerStep) {
    match step
    case Inform(n, rev, version) =>
      && Count(s.cache, n) < rev && HasVersion(s, n, rev)
      && (if Version(s, n, rev).live then version == rev
          else Count(s.cache, n) <= version < rev && (Count(s.cache, n) > 0 ==> version > 0))
    case Dispatch => |s.handlers| > 0 && s.sending.None? && HasVersion(s, s.handlers[0].name, s.handlers[0].version)
    case Send =>
      Valid(c) && s.sending.Some? && Shard(c, s.sending.value.name) < |s.channels|
      && |s.channels[Shard(c, s.sending.value.name)]| < c.bufferSize
  }

  predicate WorkerEnabled(s: State, k: nat, step: WorkerStep) {
    AtStage(s, k) &&
    match step
    case Pop => s.workers[k].Idle? && |s.channels[k]| > 0
    case Unmark => s.workers[k].Popped?
    case Read =>
      s.workers[k].Unmarked? && HasVersion(s, s.workers[k].event.name, Count(s.cache, s.workers[k].event.name))
    case Notify => StageVersions(s, k) && s.workers[k].Ready?
    case Record(_) => s.workers[k].Notified?
    case UpdateStatus(_) => StageVersions(s, k) && s.workers[k].Noted?
    case Patch(_) => s.workers[k].Patching?
  }

  ghost predicate WatchEnabled(s: State, id: nat, step: WatchStep) {
    match step
    case Subscribe(_) => id !in s.streams
    case List(snapshot) => id in s.streams && !s.streams[id].listed && IsSnapshot(s, s.streams[id].scope, snapshot)
    case Deliver => id in s.streams && s.streams[id].listed && |s.streams[id].queue| > 0
    case Unsubscribe => id in s.streams
  }

  ghost predicate Enabled(c: Config, s: State, step: Step) {
    match step
    case Api(a) => ApiEnabled(s, a)
    case Informer(i) => InformerEnabled(c, s, i)
    case Worker(k, w) => WorkerEnabled(s, k, w)
    case Watch(id, w) => WatchEnabled(s, id, w)
  }

  /** The API server stores a new version. */
  function Store(s: State, n: Name, o: Object): State
    requires n in s.actions
  {
    s.(actions := s.actions[n := s.actions[n].(versions := s.actions[n].versions + [o])])
  }

  /** The informer writes its cache, then queues the handler call; it may skip versions. */
  function Informed(s: State, n: Name, rev: nat, version: nat): State
    requires HasVersion(s, n, rev)
  {
    var seen := Count(s.cache, n);
    var t := s.(cache := s.cache[n := rev]);
    if Version(s, n, rev).live then
      t.(handlers := s.handlers + [Event(n, if seen == 0 then Added else Modified, version)])
    else if seen == 0 then t.(finished := s.finished + {n})
    else t.(handlers := s.handlers + [Event(n, Deleted, version)])
  }

  /** dispatchEvent up to the channel send: a labelled object is skipped, a marked action is coalesced. */
  function Dispatched(s: State): State
    requires |s.handlers| > 0 && HasVersion(s, s.handlers[0].name, s.handlers[0].version)
  {
    var e := s.handlers[0];
    var t := s.(handlers := s.handlers[1..]);
    if Version(s, e.name, e.version).labelled then t
    else if e.kind.Deleted? then t.(sending := Some(e))
    else if e.name in s.marks then t
    else t.(marks := s.marks + {e.name}, sending := Some(e))
  }

  function SetWorker(s: State, k: nat, stage: Stage): State
    requires k < |s.workers|
  {
    s.(workers := s.workers[k := stage])
  }

  /** A delete is processed with the object it carries; anything else goes on to read the cache. */
  function UnmarkedBy(s: State, k: nat): State
    requires AtStage(s, k) && s.workers[k].Popped?
  {
    var e := s.workers[k].event;
    if e.kind.Deleted? then
      s.(marks := s.marks - {e.name},
         workers := s.workers[k := Ready(Update(e.name, Deleted, e.version, Latest(s, e.name)))],
         finished := s.finished + {e.name})
    else s.(marks := s.marks - {e.name}, workers := s.workers[k := Unmarked(e)])
  }

  function ReadBy(s: State, k: nat): State
    requires AtStage(s, k) && s.workers[k].Unmarked?
    requires HasVersion(s, s.workers[k].event.name, Count(s.cache, s.workers[k].event.name))
  {
    var e := s.workers[k].event;
    var seen := Count(s.cache, e.name);
    var o := Version(s, e.name, seen);
    if !o.live || o.labelled then SetWorker(s, k, Idle)
    else
      s.(workers := s.workers[k := Ready(Update(e.name, e.kind, seen, seen))],
         handled := s.handled[e.name := seen])
  }

  /** notifySubscribers on one stream: a non-blocking send to every channel under the key. */
  function Offer(c: Config, stream: Stream, scope: Scope, m: Message): Stream {
    if SubscriberKey(stream.scope) != SubscriberKey(scope) then stream
    else if |stream.queue| < c.bufferSize then stream.(queue := stream.queue + [m])
    else stream.(lossy := true)
  }

  function NotifiedBy(c: Config, s: State, k: nat): State
    requires StageVersions(s, k) && s.workers[k].Ready?
  {
    var u := s.workers[k].update;
    var m := Message(u.name, u.rev, UpdatePhase(s, u));
    s.(workers := s.workers[k := Notified(u)],
       streams := map id | id in s.streams :: Offer(c, s.streams[id], s.actions[u.name].scope, m),
       notified := s.notified[u.name := u.rev])
  }

  predicate InFilter(c: Config, service: Service, n: Name) {
    c.slot(n) in service.filter && service.filter[c.slot(n)] == n
  }

  /** RecordAction, unless the filter says it was done. */
  function RecordedBy(c: Config, s: State, k: nat, ok: bool): State
    requires AtStage(s, k) && s.workers[k].Notified?
  {
    var u := s.workers[k].update;
    if InFilter(c, s.service, u.name) || !ok then SetWorker(s, k, Noted(u))
    else
      s.(workers := s.workers[k := Noted(u)],
         service := s.service.(recorded := s.service.recorded + {u.name},
                               filter := s.service.filter[c.slot(u.name) := u.name]))
  }

  function UpdatedBy(s: State, k: nat, ok: bool): State
    requires StageVersions(s, k) && s.workers[k].Noted?
  {
    var u := s.workers[k].update;
    var phase := UpdatePhase(s, u);
    if phase.Unspecified? || !ok || !Terminal(phase) then SetWorker(s, k, Idle)
    else
      s.(workers := s.workers[k := if u.kind.Deleted? then Idle else Patching(u)],
         service := s.service.(accepted := s.service.accepted[u.name := phase]))
  }

  /** markTerminalStatusRecorded: a merge patch of the labels on whatever version is current. */
  function PatchedBy(s: State, k: nat, ok: bool): State
    requires AtStage(s, k) && s.workers[k].Patching?
  {
    var n := s.workers[k].update.name;
    var t := SetWorker(s, k, Idle);
    if ok && Exists(s, n) then Store(t, n, Version(s, n, Latest(s, n)).(labelled := true)) else t
  }

  function ApplyApi(s: State, step: ApiStep): State
    requires ApiEnabled(s, step)
  {
    match step
    case Create(n, action, scope, origin) =>
      s.(actions := s.actions[n := Action(action, scope, origin, [Object(Unspecified, BornLabelled(origin), true)])])
    case Write(n, phase) => Store(s, n, Version(s, n, Latest(s, n)).(phase := phase))
    case Remove(n) => Store(s, n, Version(s, n, Latest(s, n)).(live := false))
  }

  function ApplyInformer(c: Config, s: State, step: InformerStep): State
    requires InformerEnabled(c, s, step)
  {
    match step
    case Inform(n, rev, version) => Informed(s, n, rev, version)
    case Dispatch => Dispatched(s)
    case Send =>
      var e := s.sending.value;
      var k := Shard(c, e.name);
      s.(sending := None, channels := s.channels[k := s.channels[k] + [e]])
  }

  function ApplyWorker(c: Config, s: State, k: nat, step: WorkerStep): State
    requires WorkerEnabled(s, k, step)
  {
    match step
    case Pop => SetWorker(s, k, Popped(s.channels[k][0])).(channels := s.channels[k := s.channels[k][1..]])
    case Unmark => UnmarkedBy(s, k)
    case Read => ReadBy(s, k)
    case Notify => NotifiedBy(c, s, k)
    case Record(ok) => RecordedBy(c, s, k, ok)
    case UpdateStatus(ok) => UpdatedBy(s, k, ok)
    case Patch(ok) => PatchedBy(s, k, ok)
  }

  ghost function ApplyWatch(s: State, id: nat, step: WatchStep): State
    requires WatchEnabled(s, id, step)
  {
    match step
    case Subscribe(scope) => s.(streams := s.streams[id := Stream(scope, false, [], [], false)])
    case List(snapshot) => s.(streams := s.streams[id := s.streams[id].(listed := true, sent := snapshot)])
    case Deliver =>
      var stream := s.streams[id];
      s.(streams := s.streams[id := stream.(queue := stream.queue[1..], sent := stream.sent + [stream.queue[0]])])
    case Unsubscribe => s.(streams := s.streams - {id})
  }

  ghost function Apply(c: Config, s: State, step: Step): State
    requires Enabled(c, s, step)
  {
    match step
    case Api(a) => ApplyApi(s, a)
    case Informer(i) => ApplyInformer(c, s, i)
    case Worker(k, w) => ApplyWorker(c, s, k, w)
    case Watch(id, w) => ApplyWatch(s, id, w)
  }

  ghost predicate IsRun(c: Config, run: seq<State>, steps: seq<Step>) {
    && |run| == |steps| + 1 && run[0] == Init(c)
    && forall i :: 0 <= i < |steps| ==> Enabled(c, run[i], steps[i]) && run[i + 1] == Apply(c, run[i], steps[i])
  }

  lemma StepAt(c: Config, run: seq<State>, steps: seq<Step>, i: nat)
    requires IsRun(c, run, steps) && i < |steps|
    ensures Enabled(c, run[i], steps[i]) && run[i + 1] == Apply(c, run[i], steps[i])
  {
  }
}
