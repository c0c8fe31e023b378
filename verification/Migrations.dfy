/** Applying and rolling back migrations, with a crash or a failure at any statement. */
module Migrator {
  import opened Base
  import opened Like
  import opened MigrationNames
  import opened StringOrder

  /** A committed script, and the service whose files it came from. */
  datatype Entry = Entry(prefix: string, name: string, up: bool)

  /** How a transaction ends: committed, not committed, or committed with the caller lost before it knew. */
  datatype Fate = Commits | Fails | CommitsThenStops

  /** The up scripts a service's schema is made of, each once; None if a down script undid anything but the last. */
  function Effect(log: seq<Entry>, p: string): Option<seq<string>> {
    if log == [] then Some([])
    else
      var before := Effect(log[..|log| - 1], p);
      var last := log[|log| - 1];
      if last.prefix != p || before.None? then before
      else if last.up then Some(before.value + [last.name])
      else
        var names := before.value;
        if names != [] && names[|names| - 1] == last.name then Some(names[..|names| - 1]) else None
  }

  function Key(p: string): string {
    p + "/"
  }

  /** v is a version recorded under p. */
  predicate Owns(p: string, v: string) {
    Key(p) <= v
  }

  function Paths(names: seq<string>): seq<string> {
    seq(|names|, i requires 0 <= i < |names| => Path(names[i]))
  }

  /** Flat up migrations in the order they are applied. */
  predicate FlatFiles(names: seq<string>) {
    Increasing(Paths(names)) && forall i :: 0 <= i < |names| ==> '/' !in names[i]
  }

  predicate NoClash(names: seq<string>) {
    forall i, j :: 0 <= i < |names| && 0 <= j < |names| ==> !Clash(names[i], names[j])
  }

  predicate GoodFiles(names: seq<string>) {
    FlatFiles(names) && NoClash(names)
  }

  function VersionsOf(p: string, names: seq<string>): set<string> {
    set i | 0 <= i < |names| :: Version(p, names[i])
  }

  /** At every stage the largest version is that of the file applied last, which Rollback takes it for, exactly if
      no two names clash. */
  lemma LargestIsLastExactly(p: string, names: seq<string>)
    requires FlatFiles(names)
    ensures NoClash(names) <==>
      forall k :: 0 < k <= |names| ==> IsLargest(Version(p, names[k - 1]), VersionsOf(p, names[..k]))
  {
    if NoClash(names) {
      forall k | 0 < k <= |names| ensures IsLargest(Version(p, names[k - 1]), VersionsOf(p, names[..k])) {
        LastIsLargest(p, names, k);
      }
    } else {
      var i, j :| 0 <= i < |names| && 0 <= j < |names| && Clash(names[i], names[j]);
      LargerThanLast(p, names, i, j);
    }
  }

  lemma LastIsLargest(p: string, names: seq<string>, k: nat)
    requires GoodFiles(names) && 0 < k <= |names|
    ensures IsLargest(Version(p, names[k - 1]), VersionsOf(p, names[..k]))
  {
    assert names[..k][k - 1] == names[k - 1];
    forall v | v in VersionsOf(p, names[..k]) ensures v == Version(p, names[k - 1]) || Less(v, Version(p, names[k - 1])) {
      var i :| 0 <= i < k && v == Version(p, names[..k][i]);
      if i < k - 1 {
        assert Less(Paths(names)[i], Paths(names)[k - 1]);
        OrdersAgree(p, names[i], names[k - 1]);
      }
    }
  }

  /** After the stem of a clash is applied, the version of the longer name is larger. */
  lemma LargerThanLast(p: string, names: seq<string>, i: nat, j: nat)
    requires FlatFiles(names) && i < |names| && j < |names| && Clash(names[i], names[j])
    ensures !IsLargest(Version(p, names[i]), VersionsOf(p, names[..i + 1]))
  {
    var stem, name := names[i], names[j];
    var rest := name[|stem|..];
    assert name == stem + rest && rest != "";
    assert i < j ==> Less(Paths(names)[i], Paths(names)[j]);
    LessAfterPrefix("sql/" + stem, rest + ".sql", ".sql");
    assert Path(name) == ("sql/" + stem) + (rest + ".sql") && Path(stem) == ("sql/" + stem) + ".sql";
    LessIsTotal(Path(name), Path(stem));
    LessAfterPrefix(p + "/" + stem, "", rest);
    assert Version(p, stem) == (p + "/" + stem) + "" && Version(p, name) == (p + "/" + stem) + rest;
    LessIsTotal(Version(p, stem), Version(p, name));
    assert names[..i + 1][j] == name;
    assert Version(p, names[..i + 1][j]) in VersionsOf(p, names[..i + 1]);
  }

  /** Versions of p in the table are those of the first k files, and so is the schema. */
  ghost predicate InStep(versions: set<string>, log: seq<Entry>, p: string, names: seq<string>, k: nat) {
    && k <= |names| && Effect(log, p) == Some(names[..k])
    && forall v :: (v in versions && Owns(p, v)) <==> IsOneOf(v, p, names[..k])
  }

  predicate IsOneOf(v: string, p: string, names: seq<string>) {
    exists i :: 0 <= i < |names| && IsAt(v, p, names, i)
  }

  predicate IsAt(v: string, p: string, names: seq<string>, i: nat)
    requires i < |names|
  {
    v == Version(p, names[i])
  }

  /** Nothing of any other service changed. */
  ghost predicate OthersKept(versions: set<string>, log: seq<Entry>, versions': set<string>, log': seq<Entry>, p: string) {
    && (forall v :: !(Owns(p, v)) ==> (v in versions' <==> v in versions))
    && forall q :: q != p ==> Effect(log', q) == Effect(log, q)
  }

  lemma EffectOfOneMore(log: seq<Entry>, e: Entry, q: string)
    ensures
      var before := Effect(log, q);
      Effect(log + [e], q) ==
        if e.prefix != q || before.None? then before
        else if e.up then Some(before.value + [e.name])
        else if before.value != [] && before.value[|before.value| - 1] == e.name
          then Some(before.value[..|before.value| - 1]) else None
  {
    assert (log + [e])[..|log|] == log;
  }

  lemma KeyOfVersion(p: string, name: string)
    ensures Owns(p, Version(p, name))
  {
  }

  lemma PathsAreDistinct(names: seq<string>, i: nat, j: nat)
    requires GoodFiles(names) && i < j < |names|
    ensures names[i] != names[j]
  {
    assert Less(Paths(names)[i], Paths(names)[j]);
    LessIsTotal(Path(names[i]), Path(names[j]));
  }

  lemma VersionIsInjective(p: string, a: string, b: string)
    ensures Version(p, a) == Version(p, b) <==> a == b
  {
    assert Version(p, a)[|p| + 1..] == a && Version(p, b)[|p| + 1..] == b;
  }

  /** Applying file k brings the first k + 1 into step. */
  lemma Advance(versions: set<string>, log: seq<Entry>, p: string, names: seq<string>, k: nat)
    requires InStep(versions, log, p, names, k) && k < |names|
    ensures
      var e := Entry(p, names[k], true);
      && InStep(versions + {Version(p, names[k])}, log + [e], p, names, k + 1)
      && OthersKept(versions, log, versions + {Version(p, names[k])}, log + [e], p)
  {
    var e, version := Entry(p, names[k], true), Version(p, names[k]);
    EffectOfOneMore(log, e, p);
    assert names[..k] + [names[k]] == names[..k + 1];
    KeyOfVersion(p, names[k]);
    forall v ensures (v in versions + {version} && Owns(p, v)) <==> IsOneOf(v, p, names[..k + 1]) {
      OneMoreVersion(v, p, names, k);
    }
    forall q | q != p ensures Effect(log + [e], q) == Effect(log, q) {
      EffectOfOneMore(log, e, q);
    }
  }

  lemma OneMoreVersion(v: string, p: string, names: seq<string>, k: nat)
    requires k < |names|
    ensures IsOneOf(v, p, names[..k + 1]) <==> IsOneOf(v, p, names[..k]) || v == Version(p, names[k])
  {
    var shorter, longer := names[..k], names[..k + 1];
    if i :| 0 <= i < |longer| && IsAt(v, p, longer, i) {
      assert i < k ==> IsAt(v, p, shorter, i);
    }
    if i :| 0 <= i < |shorter| && IsAt(v, p, shorter, i) {
      assert IsAt(v, p, longer, i);
    }
    if v == Version(p, names[k]) {
      assert IsAt(v, p, longer, k);
    }
  }

  /** Rolling back file k - 1 brings the first k - 1 into step. */
  lemma Retreat(versions: set<string>, log: seq<Entry>, p: string, names: seq<string>, k: nat)
    requires GoodFiles(names) && InStep(versions, log, p, names, k) && k > 0
    ensures
      var e := Entry(p, names[k - 1], false);
      && InStep(versions - {Version(p, names[k - 1])}, log + [e], p, names, k - 1)
      && OthersKept(versions, log, versions - {Version(p, names[k - 1])}, log + [e], p)
  {
    var e, version := Entry(p, names[k - 1], false), Version(p, names[k - 1]);
    EffectOfOneMore(log, e, p);
    assert names[..k][..k - 1] == names[..k - 1];
    KeyOfVersion(p, names[k - 1]);
    forall v ensures (v in versions - {version} && Owns(p, v)) <==> IsOneOf(v, p, names[..k - 1]) {
      OneMoreVersion(v, p, names, k - 1);
      var shorter := names[..k - 1];
      if i :| 0 <= i < |shorter| && IsAt(v, p, shorter, i) {
        PathsAreDistinct(names, i, k - 1);
        VersionIsInjective(p, names[i], names[k - 1]);
      }
    }
    forall q | q != p ensures Effect(log + [e], q) == Effect(log, q) {
      EffectOfOneMore(log, e, q);
    }
  }

  function Ups(walk: seq<string>): seq<string> {
    if walk == [] then []
    else
      var rest := Ups(walk[..|walk| - 1]);
      if IsUp(walk[|walk| - 1]) then rest + [walk[|walk| - 1]] else rest
  }

  /** Walking the migration directory meets the files of `names`, each once, among down scripts and other files. */
  ghost predicate Ships(walk: seq<string>, names: seq<string>) {
    && GoodFiles(names)
    && Distinct(walk)
    && forall path :: path in walk && HasSuffix(path, ".sql") && !HasSuffix(path, "_down.sql") <==> path in Paths(names)
  }

  lemma {:induction false} UpsOfWalk(walk: seq<string>)
    ensures forall path :: path in Ups(walk) <==> path in walk && IsUp(path)
    ensures Distinct(walk) ==> Distinct(Ups(walk))
  {
    if walk != [] {
      var front := walk[..|walk| - 1];
      UpsOfWalk(front);
      assert walk == front + [walk[|walk| - 1]];
    }
  }

  lemma CollectedAreTheFiles(walk: seq<string>, names: seq<string>)
    requires Ships(walk, names)
    ensures Sort(Ups(walk)) == Paths(names)
  {
    UpsOfWalk(walk);
    SortOfDistinct(Ups(walk));
    IncreasingIsUnique(Sort(Ups(walk)), Paths(names));
  }

  /** The last version of p in the table is the version of the last applied file. */
  lemma LatestIsLast(versions: set<string>, log: seq<Entry>, p: string, names: seq<string>, k: nat, v: string)
    requires GoodFiles(names) && InStep(versions, log, p, names, k)
    requires v in versions && Owns(p, v)
    ensures k > 0 && (v == Version(p, names[k - 1]) || Less(v, Version(p, names[k - 1])))
  {
    assert IsOneOf(v, p, names[..k]);
    var i :| 0 <= i < |names[..k]| && IsAt(v, p, names[..k], i);
    if i < k - 1 {
      assert Less(Paths(names)[i], Paths(names)[k - 1]);
      OrdersAgree(p, names[i], names[k - 1]);
    }
  }

  /** Up to a file, each is looked up in the table, and each that is missing commits. */
  predicate AllCommit(looked: string -> bool, fate: string -> Fate, names: seq<string>, from: nat, to: nat)
    requires to <= |names|
  {
    forall i :: 0 <= i < to ==> looked(Path(names[i])) && (from <= i ==> fate(Path(names[i])) == Commits)
  }

  lemma CommitsOneMore(looked: string -> bool, fate: string -> Fate, names: seq<string>, from: nat, i: nat)
    requires i < |names|
    ensures AllCommit(looked, fate, names, from, i + 1) <==>
      AllCommit(looked, fate, names, from, i) && looked(Path(names[i])) && (from <= i ==> fate(Path(names[i])) == Commits)
    ensures !looked(Path(names[i])) || (from <= i && fate(Path(names[i])) != Commits) ==>
      !AllCommit(looked, fate, names, from, |names|)
  {
  }

  class Database {
    var versions: set<string>
    var log: seq<Entry>

    constructor ()
      ensures versions == {} && log == []
    {
      versions, log := {}, [];
    }

    method CollectUpMigrations(walk: seq<string>) returns (files: seq<string>)
      ensures files == Sort(Ups(walk))
    {
      files := [];
      var i := 0;
      while i < |walk|
        invariant i <= |walk| && files == Ups(walk[..i])
      {
        assert walk[..i + 1][..i] == walk[..i];
        if IsUp(walk[i]) {
          files := files + [walk[i]];
        }
        i := i + 1;
      }
      assert walk[..i] == walk;
      files := Sort(files);
    }

    /** Applies what is missing, one transaction a file. The call ends with the first failure: of the lock or the table
        statement, of a look-up in the table, or of a transaction. */
    method Migrate(prefix: string, walk: seq<string>, locked: bool, looked: string -> bool, fate: string -> Fate,
                   ghost names: seq<string>, ghost k: nat)
      returns (ok: bool, ghost m: nat)
      requires '/' !in prefix && Ships(walk, names) && GoodFiles(names) && InStep(versions, log, prefix, names, k)
      modifies this
      ensures InStep(versions, log, prefix, names, m) && k <= m
      ensures OthersKept(old(versions), old(log), versions, log, prefix)
      ensures ok ==> m == |names|
      ensures ok <==> locked && AllCommit(looked, fate, names, k, |names|)
    {
      NothingChanged(versions, log, prefix);
      if !locked {
        return false, k;
      }
      var files := CollectUpMigrations(walk);
      CollectedAreTheFiles(walk, names);
      assert k <= |names| && AllCommit(looked, fate, names, k, 0);
      hide InStep, OthersKept, Ships, Ups, Sort, MigrationVersion, Path, AllCommit, GoodFiles;
      m := k;
      var i := 0;
      while i < |files|
        invariant i <= |files| && files == Paths(names)
        invariant InStep(versions, log, prefix, names, m) && m == (if i > k then i else k)
        invariant OthersKept(old(versions), old(log), versions, log, prefix)
        invariant AllCommit(looked, fate, names, k, i)
      {
        VersionOfFlat(names[i]);
        assert files[i] == Path(names[i]);
        CommitsOneMore(looked, fate, names, k, i);
        if !looked(files[i]) {
          return false, m;
        }
        Recorded(versions, log, prefix, names, m, i);
        var version := prefix + "/" + MigrationVersion(files[i]);
        if version !in versions {
          var f := fate(files[i]);
          ghost var versions0, log0 := versions, log;
          RunFile(prefix, MigrationVersion(files[i]), f, names, m);
          StillKept(old(versions), old(log), versions0, log0, versions, log, prefix);
          m := if f.Fails? then m else m + 1;
          if !f.Commits? {
            return false, m;
          }
        }
        i := i + 1;
      }
      ok := true;
    }

    /** One transaction: the script and its record. */
    method RunFile(prefix: string, name: string, f: Fate, ghost names: seq<string>, ghost k: nat)
      requires InStep(versions, log, prefix, names, k) && k < |names| && name == names[k]
      modifies this
      ensures InStep(versions, log, prefix, names, if f.Fails? then k else k + 1)
      ensures OthersKept(old(versions), old(log), versions, log, prefix)
    {
      NothingChanged(versions, log, prefix);
      if !f.Fails? {
        Advance(versions, log, prefix, names, k);
        hide InStep, OthersKept;
        versions := versions + {prefix + "/" + name};
        log := log + [Entry(prefix, name, true)];
      }
    }

    /** Undoes the largest version the LIKE pattern finds, whosever it is. If it finds the service's own versions only,
        that is the version of the last applied file. */
    method Rollback(prefix: string, files: set<string>, fate: Fate, ghost names: seq<string>, ghost k: nat)
      returns (ok: bool, ghost m: nat)
      modifies this
      ensures RolledBack(old(versions), old(log), prefix, files, fate, versions, log, ok)
      ensures FindsOwn(old(versions), old(log), prefix, names, k) ==>
        && InStep(versions, log, prefix, names, m)
        && OthersKept(old(versions), old(log), versions, log, prefix)
        && m == (if k > 0 && "sql/" + names[k - 1] + "_down.sql" in files && !fate.Fails? then k - 1 else k)
        && (ok <==> m < k && fate.Commits?)
    {
      ghost var before, history := versions, log;
      var found := Found(versions, prefix);
      m := k;
      ok := false;
      if found != {} {
        ghost var largest := LargestExists(found);
        var version :| IsLargest(version, found);
        OnlyOneLargest(version, found);
        var bare := Bare(version);
        if DownPath(bare) in files && !fate.Fails? {
          versions := versions - {version};
          log := log + [Entry(prefix, bare, false)];
          ok := fate.Commits?;
        }
      }
      if FindsOwn(before, history, prefix, names, k) {
        OwnRollback(before, history, prefix, files, fate, versions, log, ok, names, k);
        m := if k > 0 && DownPath(names[k - 1]) in files && !fate.Fails? then k - 1 else k;
      }
    }
  }

  function Found(versions: set<string>, prefix: string): set<string> {
    set v | v in versions && Matches(prefix + "/%", v)
  }

  /** What a call of Rollback leaves. */
  ghost predicate RolledBack(versions: set<string>, log: seq<Entry>, prefix: string, files: set<string>, fate: Fate,
                             versions': set<string>, log': seq<Entry>, ok: bool) {
    var found := Found(versions, prefix);
    if found == {} then !ok && versions' == versions && log' == log
    else
      exists v ::
        && IsLargest(v, found)
        && if DownPath(Bare(v)) !in files || fate.Fails? then !ok && versions' == versions && log' == log
           else versions' == versions - {v} && log' == log + [Entry(prefix, Bare(v), false)] && (ok <==> fate.Commits?)
  }

  lemma OnlyOneLargest(v: string, c: set<string>)
    requires IsLargest(v, c)
    ensures forall u | IsLargest(u, c) :: u == v
  {
    forall u | IsLargest(u, c) ensures u == v {
      LessIsTotal(u, v);
    }
  }

  lemma RolledBackExactly(v: string, versions: set<string>, log: seq<Entry>, prefix: string, files: set<string>,
                          fate: Fate, versions': set<string>, log': seq<Entry>, ok: bool)
    requires IsLargest(v, Found(versions, prefix)) && DownPath(Bare(v)) in files && !fate.Fails?
    ensures RolledBack(versions, log, prefix, files, fate, versions', log', ok) <==>
      versions' == versions - {v} && log' == log + [Entry(prefix, Bare(v), false)] && (ok <==> fate.Commits?)
  {
    OnlyOneLargest(v, Found(versions, prefix));
  }

  /** The service is in step and its pattern finds its own versions. */
  ghost predicate FindsOwn(versions: set<string>, log: seq<Entry>, prefix: string, names: seq<string>, k: nat) {
    && '/' !in prefix && GoodFiles(names) && InStep(versions, log, prefix, names, k)
    && forall v | v in versions :: Matches(prefix + "/%", v) <==> Owns(prefix, v)
  }

  lemma OwnRollback(versions: set<string>, log: seq<Entry>, prefix: string, files: set<string>, fate: Fate,
                    versions': set<string>, log': seq<Entry>, ok: bool, names: seq<string>, k: nat)
    requires FindsOwn(versions, log, prefix, names, k)
    requires RolledBack(versions, log, prefix, files, fate, versions', log', ok)
    ensures
      var m := if k > 0 && DownPath(names[k - 1]) in files && !fate.Fails? then k - 1 else k;
      && InStep(versions', log', prefix, names, m) && OthersKept(versions, log, versions', log', prefix)
      && (ok <==> m < k && fate.Commits?)
  {
    var found := Found(versions, prefix);
    NothingChanged(versions, log, prefix);
    if k > 0 {
      Recorded(versions, log, prefix, names, k, k - 1);
      KeyOfVersion(prefix, names[k - 1]);
      assert Version(prefix, names[k - 1]) in found;
    }
    if found != {} {
      var v := LargestExists(found);
      OnlyOneLargest(v, found);
      FoundIsLast(versions, log, prefix, names, k, found, v);
      BareOfVersion(prefix, names[k - 1]);
      Retreat(versions, log, prefix, names, k);
    }
  }

  lemma FoundIsLast(versions: set<string>, log: seq<Entry>, p: string, names: seq<string>, k: nat, found: set<string>, v: string)
    requires GoodFiles(names) && InStep(versions, log, p, names, k)
    requires forall u :: u in found <==> u in versions && Owns(p, u)
    requires IsLargest(v, found)
    ensures k > 0 && v == Version(p, names[k - 1])
  {
    LatestIsLast(versions, log, p, names, k, v);
    var last := Version(p, names[k - 1]);
    assert IsAt(last, p, names[..k], k - 1);
    assert IsOneOf(last, p, names[..k]);
    LessIsTotal(v, last);
  }

  /** A file's version is in the table exactly if the file is among the applied ones. */
  lemma Recorded(versions: set<string>, log: seq<Entry>, p: string, names: seq<string>, k: nat, i: nat)
    requires GoodFiles(names) && InStep(versions, log, p, names, k) && i < |names|
    ensures Version(p, names[i]) in versions <==> i < k
  {
    var version := Version(p, names[i]);
    KeyOfVersion(p, names[i]);
    if i < k {
      assert IsAt(version, p, names[..k], i);
      assert IsOneOf(version, p, names[..k]);
    } else if j :| 0 <= j < |names[..k]| && IsAt(version, p, names[..k], j) {
      VersionIsInjective(p, names[i], names[j]);
      PathsAreDistinct(names, j, i);
    }
  }

  lemma NothingChanged(versions: set<string>, log: seq<Entry>, p: string)
    ensures OthersKept(versions, log, versions, log, p)
  {
  }

  lemma StillKept(versions: set<string>, log: seq<Entry>, versions1: set<string>, log1: seq<Entry>,
                  versions2: set<string>, log2: seq<Entry>, p: string)
    requires OthersKept(versions, log, versions1, log1, p) && OthersKept(versions1, log1, versions2, log2, p)
    ensures OthersKept(versions, log, versions2, log2, p)
  {
  }

  /** One call on a shared database: which service, and how its transactions end. */
  datatype Call =
    | MigrateCall(prefix: string, walk: seq<string>, locked: bool, looked: string -> bool, fate: string -> Fate)
    | RollbackCall(prefix: string, files: set<string>, outcome: Fate)

  /** The services that share the database, and their files in order. */
  type Services = map<string, seq<string>>

  /** No prefix, read as a pattern, matches another, and each matches itself. */
  predicate Separate(services: Services) {
    forall p, q | p in services && q in services :: Matches(Core(p), q) <==> p == q
  }

  /** That is so exactly if each service's pattern finds its own versions of flat files and no other's. */
  lemma SeparateExactly(services: Services)
    requires forall p | p in services :: '/' !in p
    ensures Separate(services) <==>
      forall p, q, name: string | p in services && q in services && '/' !in name ::
        Matches(p + "/%", Version(q, name)) <==> p == q
  {
    forall p, q, name: string | p in services && q in services && '/' !in name
      ensures Matches(p + "/%", Version(q, name)) <==> Matches(Core(p), q)
    {
      PatternFindsExactly(p, q, name);
    }
    forall p, q | p in services && q in services ensures Matches(Core(p), q) <==> Matches(p + "/%", Version(q, "")) {
      PatternFindsExactly(p, q, "");
    }
  }

  /** Services that keep to flat names, whatever their prefixes match. */
  ghost predicate FlatServices(services: Services) {
    forall p | p in services :: '/' !in p && GoodFiles(services[p])
  }

  /** No prefix, read as a pattern, matches a different one. */
  predicate NoneReaches(services: Services) {
    forall p, q | p in services && q in services && p != q :: !Matches(Core(p), q)
  }

  /** Whatever happens to them, Rollback keeps within the service it is called for. */
  ghost predicate GoodServices(services: Services) {
    FlatServices(services) && NoneReaches(services)
  }

  ghost predicate GoodCall(call: Call, services: Services) {
    call.prefix in services && (call.MigrateCall? ==> Ships(call.walk, services[call.prefix]))
  }

  /** Every service is in step, and every version in the table is some service's. */
  ghost predicate AllInStep(versions: set<string>, log: seq<Entry>, services: Services, counts: map<string, nat>) {
    && counts.Keys == services.Keys
    && (forall p | p in services :: InStep(versions, log, p, services[p], counts[p]))
    && forall v | v in versions :: exists p :: p in services && Owns(p, v)
  }

  lemma OwnedBy(p: string, q: string, v: string)
    requires '/' !in p && '/' !in q && Owns(p, v) && Owns(q, v)
    ensures p == q
  {
    FirstSlash(p, v);
    FirstSlash(q, v);
  }

  lemma FirstSlash(p: string, v: string)
    requires '/' !in p && Owns(p, v)
    ensures |p| < |v| && v[|p|] == '/' && p == v[..|p|] && forall i :: 0 <= i < |p| ==> v[i] != '/'
  {
    assert Key(p)[|p|] == '/';
    forall i | 0 <= i < |p| ensures v[i] != '/' {
      assert v[i] == p[i] && p[i] in p;
    }
  }

  lemma FindsOwnOrNothing(versions: set<string>, log: seq<Entry>, services: Services, counts: map<string, nat>, p: string)
    requires GoodServices(services)
    requires AllInStep(versions, log, services, counts) && p in services
    ensures forall v | v in versions :: Matches(p + "/%", v) <==> Owns(p, v) && Matches(Core(p), p)
  {
    forall v | v in versions ensures Matches(p + "/%", v) <==> Owns(p, v) && Matches(Core(p), p) {
      var q, name := VersionOfSome(versions, log, services, counts, v);
      PatternFindsExactly(p, q, name);
      if Owns(p, v) {
        OwnedBy(p, q, v);
      }
    }
  }

  /** Every version in the table is that of some service's flat file. */
  lemma VersionOfSome(versions: set<string>, log: seq<Entry>, services: Services, counts: map<string, nat>, v: string)
    returns (q: string, name: string)
    requires FlatServices(services) && AllInStep(versions, log, services, counts) && v in versions
    ensures q in services && Owns(q, v) && v == q + "/" + name && '/' !in name
  {
    q :| q in services && Owns(q, v);
    assert InStep(versions, log, q, services[q], counts[q]);
    assert IsOneOf(v, q, services[q][..counts[q]]);
    var i :| 0 <= i < |services[q][..counts[q]]| && IsAt(v, q, services[q][..counts[q]], i);
    name := services[q][i];
  }

  /** Under separate prefixes the pattern finds exactly the versions of the service that calls Rollback. */
  lemma PatternFindsOwn(versions: set<string>, log: seq<Entry>, services: Services, counts: map<string, nat>, p: string)
    requires FlatServices(services) && Separate(services) && AllInStep(versions, log, services, counts) && p in services
    ensures forall v | v in versions :: Matches(p + "/%", v) <==> Owns(p, v)
  {
    FindsOwnOrNothing(versions, log, services, counts, p);
  }

  lemma OthersStayInStep(versions: set<string>, log: seq<Entry>, versions1: set<string>, log1: seq<Entry>,
                         services: Services, counts: map<string, nat>, p: string, m: nat)
    requires FlatServices(services) && AllInStep(versions, log, services, counts) && p in services
    requires OthersKept(versions, log, versions1, log1, p) && InStep(versions1, log1, p, services[p], m)
    ensures AllInStep(versions1, log1, services, counts[p := m])
  {
    forall q | q in services && q != p ensures InStep(versions1, log1, q, services[q], counts[q]) {
      forall v ensures (v in versions1 && Owns(q, v)) <==> (v in versions && Owns(q, v)) {
        if Owns(q, v) && Owns(p, v) {
          OwnedBy(p, q, v);
        }
      }
      assert Effect(log1, q) == Effect(log, q);
    }
    forall v | v in versions1 ensures exists q :: q in services && Owns(q, v) {
      if Owns(p, v) {
      } else {
        assert v in versions;
      }
    }
  }

  /** After any history of calls, with any failures and crashes, every service is in step. */
  method Replay(calls: seq<Call>, ghost services: Services) returns (db: Database, ghost counts: map<string, nat>)
    requires GoodServices(services) && forall i :: 0 <= i < |calls| ==> GoodCall(calls[i], services)
    ensures fresh(db) && AllInStep(db.versions, db.log, services, counts)
  {
    db := new Database();
    counts := map p | p in services :: 0;
    EmptyIsInStep(services, counts);
    for i := 0 to |calls|
      invariant fresh(db) && AllInStep(db.versions, db.log, services, counts)
    {
      ghost var versions, log, p := db.versions, db.log, calls[i].prefix;
      assert GoodCall(calls[i], services);
      match calls[i] {
        case MigrateCall(prefix, walk, locked, looked, fate) =>
          var ok, m := db.Migrate(prefix, walk, locked, looked, fate, services[prefix], counts[prefix]);
          OthersStayInStep(versions, log, db.versions, db.log, services, counts, p, m);
          counts := counts[p := m];
        case RollbackCall(prefix, files, fate) =>
          var ok, m := db.Rollback(prefix, files, fate, services[prefix], counts[prefix]);
          RollbackAgrees(versions, log, services, counts, p, files, fate, db.versions, db.log, ok);
          counts :| AllInStep(db.versions, db.log, services, counts);
      }
    }
  }

  lemma EmptyIsInStep(services: Services, counts: map<string, nat>)
    requires counts == map p | p in services :: 0
    ensures AllInStep({}, [], services, counts)
  {
    forall p | p in services ensures InStep({}, [], p, services[p], 0) {
      assert services[p][..0] == [];
    }
  }

  /** Prefixes without wildcards are separate. */
  lemma PlainPrefixesAreSeparate(services: Services)
    requires forall p | p in services :: NoWildcards(p)
    ensures Separate(services)
  {
    forall p, q | p in services && q in services ensures Matches(Core(p), q) <==> p == q {
      PlainMatchesItself(p, q);
    }
  }

  /** The two prefixes in use are separate, although one of them holds a wildcard. */
  lemma UsedPrefixesAreSeparate(services: Services)
    requires services.Keys == {"runs", "cache_service"}
    ensures Separate(services)
  {
    forall p, q | p in services && q in services ensures Matches(Core(p), q) <==> p == q {
      MatchesItself(p);
      if p != q {
        assert p[0] != q[0];
      }
    }
  }

  /** No Rollback, however it ends, leaves a service out of step. */
  ghost predicate Harmless(services: Services) {
    forall versions, log, counts, p, files, fate, versions', log', ok
      | AllInStep(versions, log, services, counts) && p in services
        && RolledBack(versions, log, p, files, fate, versions', log', ok) :: Agrees(versions', log', services)
  }

  ghost predicate Agrees(versions: set<string>, log: seq<Entry>, services: Services) {
    exists counts :: AllInStep(versions, log, services, counts)
  }

  /** Rollback never harms a service exactly if no prefix matches a different one. */
  lemma HarmlessExactly(services: Services)
    requires FlatServices(services) && forall p | p in services :: services[p] != []
    ensures Harmless(services) <==> NoneReaches(services)
  {
    if NoneReaches(services) {
      forall versions, log, counts, p, files, fate, versions', log', ok
        | AllInStep(versions, log, services, counts) && p in services
          && RolledBack(versions, log, p, files, fate, versions', log', ok) ensures Agrees(versions', log', services)
      {
        RollbackAgrees(versions, log, services, counts, p, files, fate, versions', log', ok);
      }
    } else {
      var p, q :| p in services && q in services && p != q && Matches(Core(p), q);
      RollbackHarms(services, p, q);
    }
  }

  /** The first file of q is applied, and p rolls back. */
  lemma RollbackHarms(services: Services, p: string, q: string)
    requires FlatServices(services) && p in services && q in services && services[q] != []
    requires p != q && Matches(Core(p), q)
    ensures !Harmless(services)
  {
    var name := services[q][0];
    var before := [Entry(q, name, true)];
    var after := before + [Entry(p, name, false)];
    var counts := OneApplied(services, q);
    UnseparateRollback(p, q, name);
    NobodyAgrees(after, services, p);
    hide AllInStep, RolledBack, Agrees, FlatServices, Matches, Effect;
    assert RolledBack({Version(q, name)}, before, p, {DownPath(name)}, Commits, {}, after, true);
  }

  lemma NobodyAgrees(log: seq<Entry>, services: Services, p: string)
    requires p in services && Effect(log, p) == None
    ensures !Agrees({}, log, services)
  {
    forall counts ensures !AllInStep({}, log, services, counts) {
      if counts.Keys == services.Keys {
        assert !InStep({}, log, p, services[p], counts[p]);
      }
    }
  }

  lemma RollbackAgrees(versions: set<string>, log: seq<Entry>, services: Services, counts: map<string, nat>, p: string,
                       files: set<string>, fate: Fate, versions': set<string>, log': seq<Entry>, ok: bool)
    requires GoodServices(services)
    requires AllInStep(versions, log, services, counts) && p in services
    requires RolledBack(versions, log, p, files, fate, versions', log', ok)
    ensures Agrees(versions', log', services)
  {
    var names, k := services[p], counts[p];
    FindsOwnOrNothing(versions, log, services, counts, p);
    if Matches(Core(p), p) {
      assert InStep(versions, log, p, names, k);
      OwnRollback(versions, log, p, files, fate, versions', log', ok, names, k);
      var m := if k > 0 && DownPath(names[k - 1]) in files && !fate.Fails? then k - 1 else k;
      OthersStayInStep(versions, log, versions', log', services, counts, p, m);
    } else {
      assert Found(versions, p) == {};
    }
  }

  /** The first file of one service is applied and nothing else. */
  lemma OneApplied(services: Services, q: string) returns (counts: map<string, nat>)
    requires FlatServices(services) && q in services && services[q] != []
    ensures AllInStep({Version(q, services[q][0])}, [Entry(q, services[q][0], true)], services, counts)
  {
    var none := map p | p in services :: 0;
    var version, e := Version(q, services[q][0]), Entry(q, services[q][0], true);
    EmptyIsInStep(services, none);
    Advance({}, [], q, services[q], 0);
    assert {} + {version} == {version} && [] + [e] == [e];
    OthersStayInStep({}, [], {version}, [e], services, none, q, 1);
    counts := none[q := 1];
  }

  /** If the pattern of p matches another prefix q, Rollback of p, which has nothing applied, may delete the record of
      q's only migration and run a down script of its own. */
  lemma UnseparateRollback(p: string, q: string, name: string)
    requires '/' !in q && '/' !in name && p != q && Matches(Core(p), q)
    ensures
      var before := [Entry(q, name, true)];
      var after := before + [Entry(p, name, false)];
      && RolledBack({Version(q, name)}, before, p, {DownPath(name)}, Commits, {}, after, true)
      && Effect(after, q) == Some([name]) && Effect(after, p) == None
  {
    var e, down := Entry(q, name, true), Entry(p, name, false);
    PatternFindsExactly(p, q, name);
    BareOfVersion(q, name);
    assert Found({Version(q, name)}, p) == {Version(q, name)};
    assert {Version(q, name)} - {Version(q, name)} == {} && [e] + [down] == [e, down];
    assert IsLargest(Version(q, name), {Version(q, name)});
    RolledBackExactly(Version(q, name), {Version(q, name)}, [e], p, {DownPath(name)}, Commits, {}, [e, down], true);
    EffectOfOneMore([e], down, q);
    EffectOfOneMore([e], down, p);
    EffectOfOneMore([], e, q);
    EffectOfOneMore([], e, p);
    assert [] + [e] == [e];
    assert Effect([], p) == Some([]) && Effect([], q) == Some([]) && [] + [name] == [name];
    assert Effect([] + [e], q) == Some([name]) && Effect([] + [e], p) == Some([]);
    assert Effect([e] + [down], q) == Some([name]);
    assert Effect([e] + [down], p) == None;
  }

  /** With the same file of both services applied, it may be the larger version of q that goes, while the script that
      runs is the caller's. */
  lemma LargerVersionGoes(p: string, q: string, name: string, versions': set<string>, log': seq<Entry>, ok: bool)
    requires '/' !in p && '/' !in q && '/' !in name && Matches(Core(p), p) && Matches(Core(p), q) && Less(p, q)
    requires !(p <= q) && RolledBack({Version(p, name), Version(q, name)}, [Entry(p, name, true), Entry(q, name, true)], p,
                                     {DownPath(name)}, Commits, versions', log', ok)
    ensures ok && versions' == {Version(p, name)}
    ensures log' == [Entry(p, name, true), Entry(q, name, true), Entry(p, name, false)]
  {
    var own, other := Version(p, name), Version(q, name);
    var table: set<string> := {own, other};
    BothFound(p, q, name);
    assert Bare(other) == name by {
      BareOfVersion(q, name);
    }
    assert own != other by {
      LessIsTotal(own, other);
    }
    hide *;
    RolledBackExactly(other, table, [Entry(p, name, true), Entry(q, name, true)], p, {DownPath(name)}, Commits,
                      versions', log', ok);
  }

  lemma BothFound(p: string, q: string, name: string)
    requires '/' !in p && '/' !in q && '/' !in name && Matches(Core(p), p) && Matches(Core(p), q) && Less(p, q) && !(p <= q)
    ensures
      var table: set<string> := {Version(p, name), Version(q, name)};
      && Found(table, p) == table && IsLargest(Version(q, name), table)
      && Less(Version(p, name), Version(q, name))
  {
    var own, other := Version(p, name), Version(q, name);
    PatternFindsExactly(p, p, name);
    PatternFindsExactly(p, q, name);
    LessGoesOn(p, q, "/" + name);
    assert p + ("/" + name) == own && q + ("/" + name) == other;
  }

  lemma {:induction false} LessGoesOn(p: string, q: string, rest: string)
    requires Less(p, q) && !(p <= q)
    ensures Less(p + rest, q + rest)
  {
    if p[0] == q[0] {
      assert p == [p[0]] + p[1..] && q == [q[0]] + q[1..];
      assert (p + rest)[1..] == p[1..] + rest && (q + rest)[1..] == q[1..] + rest;
      LessGoesOn(p[1..], q[1..], rest);
    }
  }

  /** So it is with an underscore for another letter. */
  lemma UnderscoreReaches()
    ensures Matches(Core("a_b"), "a_b") && Matches(Core("a_b"), "axb") && Less("a_b", "axb") && !("a_b" <= "axb")
  {
    assert "a_b"[1..] == "_b" && "_b"[1..] == "b" && "b"[1..] == "";
    assert "axb"[1..] == "xb" && "xb"[1..] == "b";
    MatchesItself("a_b");
    assert Matches("_b", "xb");
    assert "a_b"[1] != "axb"[1];
  }
}
