/** Migration files and the versions they are recorded under. */
module MigrationNames {
  import opened StringOrder

  predicate HasSuffix(s: string, suffix: string) {
    |suffix| <= |s| && s[|s| - |suffix|..] == suffix
  }

  predicate IsUp(path: string) {
    HasSuffix(path, ".sql") && !HasSuffix(path, "_down.sql")
  }

  /** What follows the last slash. */
  function Base(path: string): string {
    if path == "" then ""
    else if path[|path| - 1] == '/' then ""
    else Base(path[..|path| - 1]) + [path[|path| - 1]]
  }

  function TrimSuffix(s: string, suffix: string): string {
    if HasSuffix(s, suffix) then s[..|s| - |suffix|] else s
  }

  function MigrationVersion(path: string): string {
    TrimSuffix(Base(path), ".sql")
  }

  /** What follows the first slash; a string without one is left alone. */
  function Bare(version: string): string {
    if '/' !in version then version
    else if version[0] == '/' then version[1..]
    else Bare(version[1..])
  }

  function Path(name: string): string {
    "sql/" + name + ".sql"
  }

  function DownPath(name: string): string {
    "sql/" + name + "_down.sql"
  }

  function Version(prefix: string, name: string): string {
    prefix + "/" + name
  }

  /** One name goes on from the other with something that sorts before the suffix its stem has there. */
  predicate Clash(stem: string, name: string) {
    stem < name && Less(name[|stem|..] + ".sql", ".sql")
  }

  lemma SuffixExactly(s: string, suffix: string)
    ensures HasSuffix(s, suffix) <==> exists stem :: s == stem + suffix
  {
    if HasSuffix(s, suffix) {
      assert s == s[..|s| - |suffix|] + suffix;
    }
  }

  /** Only up scripts are applied: the script that undoes a migration is none, and the migration's own is one, unless
      its name ends like that of an undoing script. */
  lemma ScriptsAreTold(name: string)
    ensures IsUp("sql/" + name + ".sql") <==> !exists stem :: name == stem + "_down"
    ensures !IsUp("sql/" + name + "_down.sql") && DownPath(name) == "sql/" + (name + "_down") + ".sql"
  {
    var flat := "sql/" + name;
    DownScript(flat);
    DownScript(flat + "_down");
    DownOfFlat(name);
    SuffixExactly(name, "_down");
    assert flat + "_down" + ".sql" == "sql/" + name + "_down.sql" == "sql/" + (name + "_down") + ".sql" by {
      assert "_down" + ".sql" == "_down.sql";
    }
    assert HasSuffix(flat + "_down", "_down");
    hide HasSuffix;
  }

  lemma DownScript(flat: string)
    ensures HasSuffix(flat + ".sql", ".sql")
    ensures HasSuffix(flat + ".sql", "_down.sql") <==> HasSuffix(flat, "_down")
  {
    assert "_down.sql" == "_down" + ".sql";
    EndsAlike(flat, "_down", ".sql");
    assert (flat + ".sql")[|flat|..] == ".sql";
  }

  lemma EndsAlike(s: string, suffix: string, rest: string)
    ensures HasSuffix(s + rest, suffix + rest) <==> HasSuffix(s, suffix)
  {
    if |suffix| <= |s| {
      var n := |s| - |suffix|;
      assert (s + rest)[n..] == s[n..] + rest;
      assert (s[n..] + rest)[..|suffix|] == s[n..] && (suffix + rest)[..|suffix|] == suffix;
    }
  }

  lemma DownOfFlat(name: string)
    ensures HasSuffix("sql/" + name, "_down") <==> HasSuffix(name, "_down")
  {
    var flat := "sql/" + name;
    if |name| >= 5 {
      assert flat[|flat| - 5..] == name[|name| - 5..];
    } else if |name| >= 1 {
      assert flat[|flat| - 5..][0] == "sql/"[|name| - 1];
    }
  }

  lemma {:induction false} BaseOfFlat(dir: string, file: string)
    requires '/' !in file && (dir == "" || dir[|dir| - 1] == '/')
    ensures Base(dir + file) == file
  {
    var path := dir + file;
    if file == "" {
      assert path == dir;
    } else {
      var front := file[..|file| - 1];
      assert file[|file| - 1] in file;
      assert path[..|path| - 1] == dir + front;
      assert forall c :: c in front ==> c in file;
      BaseOfFlat(dir, front);
      assert file == front + [file[|file| - 1]];
    }
  }

  /** A flat migration file is recorded under its own name. */
  lemma VersionOfFlat(name: string)
    requires '/' !in name
    ensures MigrationVersion(Path(name)) == name
  {
    var file := name + ".sql";
    assert '/' !in ".sql";
    assert Path(name) == "sql/" + file;
    BaseOfFlat("sql/", file);
    assert file[|name|..] == ".sql" && file[..|name|] == name;
  }

  lemma {:induction false} BareOfVersion(prefix: string, name: string)
    requires '/' !in prefix
    ensures Bare(Version(prefix, name)) == name
  {
    var v := Version(prefix, name);
    assert v[|prefix|] == '/';
    if prefix == "" {
      assert v == "/" + name;
    } else {
      assert prefix[0] in prefix;
      assert v[0] == prefix[0] && v[1..] == Version(prefix[1..], name);
      assert forall c :: c in prefix[1..] ==> c in prefix;
      BareOfVersion(prefix[1..], name);
    }
  }

  lemma {:induction false} LessAfterPrefix(x: string, a: string, b: string)
    ensures Less(x + a, x + b) <==> Less(a, b)
  {
    if x == "" {
      assert x + a == a && x + b == b;
    } else {
      assert (x + a)[1..] == x[1..] + a && (x + b)[1..] == x[1..] + b;
      LessAfterPrefix(x[1..], a, b);
    }
  }

  lemma {:induction false} LessBeforeSuffix(a: string, b: string)
    ensures (Less(a + ".sql", b + ".sql") <==> Less(a, b)) <==> !Clash(a, b) && !Clash(b, a)
    decreases |a|
  {
    var p, q := a + ".sql", b + ".sql";
    if a == "" || b == "" {
      assert a == "" ==> p == ".sql" && b[|a|..] == b;
      assert b == "" ==> q == ".sql" && a[|b|..] == a;
      LessIsTotal(p, q);
      assert a != b ==> |p| != |q|;
    } else {
      assert p[0] == a[0] && q[0] == b[0];
      assert p[1..] == a[1..] + ".sql" && q[1..] == b[1..] + ".sql";
      if a[0] == b[0] {
        LessBeforeSuffix(a[1..], b[1..]);
        ClashOfTails(a, b);
        ClashOfTails(b, a);
      }
    }
  }

  lemma ClashOfTails(a: string, b: string)
    requires a != "" && b != "" && a[0] == b[0]
    ensures Clash(a, b) <==> Clash(a[1..], b[1..])
  {
    if |a| < |b| {
      assert b[1..][|a[1..]|..] == b[|a|..];
      assert a == [a[0]] + a[1..] && b == [b[0]] + b[1..];
      assert b[..|a|] == [b[0]] + b[1..][..|a| - 1];
    }
  }

  /** The order in which two files are applied is the order in which their versions are compared exactly if the
      names do not clash. */
  lemma OrdersAgree(prefix: string, a: string, b: string)
    ensures (Less(Path(a), Path(b)) <==> Less(Version(prefix, a), Version(prefix, b))) <==> !Clash(a, b) && !Clash(b, a)
  {
    assert Path(a) == "sql/" + (a + ".sql") && Path(b) == "sql/" + (b + ".sql");
    LessAfterPrefix("sql/", a + ".sql", b + ".sql");
    LessBeforeSuffix(a, b);
    LessAfterPrefix(prefix + "/", a, b);
  }

  /** Names of characters above the dot, such as letters, digits and underscores, never clash. */
  lemma HighNamesDoNotClash(a: string, b: string)
    requires forall i :: 0 <= i < |b| ==> b[i] > '.'
    ensures !Clash(a, b)
  {
    if a < b {
      assert b[|a|] > '.' && (b[|a|..] + ".sql")[0] == b[|a|];
    }
  }

  /** A name that goes on with a character below the dot is applied before its stem, and compares after it. */
  lemma LowCharactersDisagree(prefix: string, stem: string, rest: string)
    requires rest != "" && rest[0] < '.'
    ensures Clash(stem, stem + rest)
    ensures Less(Path(stem + rest), Path(stem)) && Less(Version(prefix, stem), Version(prefix, stem + rest))
  {
    assert (stem + rest)[|stem|..] == rest && (rest + ".sql")[0] == rest[0];
    Compare("sql/" + stem, rest + ".sql", ".sql");
    assert Path(stem + rest) == ("sql/" + stem) + (rest + ".sql");
    Compare(prefix + "/" + stem, "", rest);
    assert Version(prefix, stem) == (prefix + "/" + stem) + "";
    assert Version(prefix, stem + rest) == (prefix + "/" + stem) + rest;
  }

  /** So does one that goes on with a dot and something before "sql". */
  lemma DotsDisagree(prefix: string, stem: string, rest: string)
    requires rest != "" && rest[0] < 's'
    ensures Clash(stem, stem + "." + rest)
    ensures Less(Path(stem + "." + rest), Path(stem)) && Less(Version(prefix, stem), Version(prefix, stem + "." + rest))
  {
    assert (stem + "." + rest)[|stem|..] + ".sql" == "." + (rest + ".sql") && ".sql" == "." + "sql";
    LessAfterPrefix(".", rest + ".sql", "sql");
    assert stem < stem + "." + rest;
    Compare("sql/" + stem + ".", rest + ".sql", "sql");
    assert Path(stem + "." + rest) == ("sql/" + stem + ".") + (rest + ".sql");
    assert Path(stem) == ("sql/" + stem + ".") + "sql";
    Compare(prefix + "/" + stem, "", "." + rest);
    assert Version(prefix, stem) == (prefix + "/" + stem) + "";
    assert Version(prefix, stem + "." + rest) == (prefix + "/" + stem) + ("." + rest);
  }

  lemma Compare(x: string, a: string, b: string)
    requires b != "" && (a == "" || a[0] < b[0])
    ensures Less(x + a, x + b)
  {
    LessAfterPrefix(x, a, b);
  }
}
