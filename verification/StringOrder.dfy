/** The order of strings, and sorted listings of them. */
module StringOrder {

  predicate Less(a: string, b: string)
    decreases |a|
  {
    b != "" && (a == "" || a[0] < b[0] || (a[0] == b[0] && Less(a[1..], b[1..])))
  }

  lemma {:induction false} LessIsTotal(a: string, b: string)
    ensures Less(a, b) || a == b || Less(b, a)
    ensures !(Less(a, b) && Less(b, a)) && !Less(a, a)
    decreases |a|
  {
    if a != "" && b != "" {
      LessIsTotal(a[1..], b[1..]);
      if a[0] == b[0] && a[1..] == b[1..] {
        assert a == [a[0]] + a[1..] && b == [b[0]] + b[1..];
      }
    }
    if a != "" {
      LessIsTotal(a[1..], a[1..]);
    }
  }

  lemma {:induction false} LessIsTransitive(a: string, b: string, c: string)
    requires Less(a, b) && Less(b, c)
    ensures Less(a, c)
    decreases |a|
  {
    if a != "" && a[0] == b[0] && b[0] == c[0] {
      LessIsTransitive(a[1..], b[1..], c[1..]);
    }
  }

  predicate Ascending(s: seq<string>) {
    forall i, j :: 0 <= i < j < |s| ==> s[i] == s[j] || Less(s[i], s[j])
  }

  predicate Increasing(s: seq<string>) {
    forall i, j :: 0 <= i < j < |s| ==> Less(s[i], s[j])
  }

  function Insert(x: string, s: seq<string>): seq<string> {
    if s == [] then [x]
    else if x == s[0] || Less(x, s[0]) then [x] + s
    else [s[0]] + Insert(x, s[1..])
  }

  /** slices.Sort and sort.Strings */
  function Sort(s: seq<string>): seq<string> {
    if s == [] then [] else Insert(s[0], Sort(s[1..]))
  }

  /** slices.Compact */
  function Compact(s: seq<string>): seq<string> {
    if |s| < 2 then s
    else if s[0] == s[1] then Compact(s[1..])
    else [s[0]] + Compact(s[1..])
  }

  lemma {:induction false} InsertKeeps(x: string, s: seq<string>)
    ensures multiset(Insert(x, s)) == multiset(s) + multiset{x}
    ensures forall y :: y in Insert(x, s) ==> y == x || y in s
  {
    if s != [] {
      InsertKeeps(x, s[1..]);
      assert s == [s[0]] + s[1..];
    }
  }

  lemma {:induction false} InsertSorts(x: string, s: seq<string>)
    requires Ascending(s)
    ensures Ascending(Insert(x, s))
  {
    if s != [] {
      if x == s[0] || Less(x, s[0]) {
        forall j | 0 <= j < |s| ensures x == s[j] || Less(x, s[j]) {
          if Less(x, s[0]) && s[0] != s[j] {
            LessIsTransitive(x, s[0], s[j]);
          }
        }
      } else {
        LessIsTotal(x, s[0]);
        InsertSorts(x, s[1..]);
        InsertKeeps(x, s[1..]);
        var rest := Insert(x, s[1..]);
        forall j | 0 <= j < |rest| ensures rest[j] == s[0] || Less(s[0], rest[j]) {
          assert rest[j] in rest;
          assert rest[j] != x ==> exists k :: 0 <= k < |s[1..]| && s[1..][k] == rest[j];
        }
      }
    }
  }

  lemma {:induction false} SortSorts(s: seq<string>)
    ensures Ascending(Sort(s)) && multiset(Sort(s)) == multiset(s)
  {
    if s != [] {
      SortSorts(s[1..]);
      InsertSorts(s[0], Sort(s[1..]));
      InsertKeeps(s[0], Sort(s[1..]));
      assert s == [s[0]] + s[1..];
    }
  }

  lemma {:induction false} InsertIncreases(x: string, s: seq<string>)
    requires Increasing(s) && x !in s
    ensures Increasing(Insert(x, s))
  {
    if s != [] {
      LessIsTotal(x, s[0]);
      if Less(x, s[0]) {
        forall j | 0 <= j < |s| ensures Less(x, s[j]) {
          if j > 0 {
            LessIsTransitive(x, s[0], s[j]);
          }
        }
      } else {
        InsertIncreases(x, s[1..]);
        InsertKeeps(x, s[1..]);
        var rest := Insert(x, s[1..]);
        forall j | 0 <= j < |rest| ensures Less(s[0], rest[j]) {
          assert rest[j] in rest;
          assert rest[j] != x ==> exists k :: 0 <= k < |s[1..]| && s[1..][k] == rest[j];
        }
      }
    }
  }

  predicate Distinct(s: seq<string>) {
    forall i, j :: 0 <= i < j < |s| ==> s[i] != s[j]
  }

  /** Sorting what has no repetitions. */
  lemma {:induction false} SortOfDistinct(s: seq<string>)
    requires Distinct(s)
    ensures Increasing(Sort(s)) && forall x :: x in Sort(s) <==> x in s
  {
    if s != [] {
      SortOfDistinct(s[1..]);
      InsertIncreases(s[0], Sort(s[1..]));
      SameMembers(s);
    }
  }

  lemma SameMembers(s: seq<string>)
    ensures forall x :: x in Sort(s) <==> x in s
  {
    SortSorts(s);
    forall x ensures x in Sort(s) <==> x in s {
      assert x in Sort(s) <==> x in multiset(Sort(s));
      assert x in s <==> x in multiset(s);
    }
  }

  predicate IsLargest(v: string, c: set<string>) {
    v in c && forall u | u in c :: u == v || Less(u, v)
  }

  lemma {:induction false} LargestExists(c: set<string>) returns (v: string)
    requires c != {}
    ensures IsLargest(v, c)
  {
    var x :| x in c;
    v := x;
    if c - {x} == {} {
      assert c == {x};
    } else {
      var y := LargestExists(c - {x});
      LessIsTotal(x, y);
      if Less(y, x) {
        forall u | u in c ensures u == x || Less(u, x) {
          if u != x && u != y {
            LessIsTransitive(u, y, x);
          }
        }
      } else {
        v := y;
      }
    }
  }

  lemma {:induction false} CompactKeepsSet(s: seq<string>)
    requires Ascending(s)
    ensures Increasing(Compact(s)) && forall x :: x in Compact(s) <==> x in s
    ensures s != [] ==> Compact(s) != [] && Compact(s)[0] == s[0]
  {
    if |s| >= 2 {
      CompactKeepsSet(s[1..]);
      assert s == [s[0]] + s[1..];
      if s[0] != s[1] {
        var rest := Compact(s[1..]);
        forall j | 0 <= j < |rest| ensures Less(s[0], rest[j]) {
          if j > 0 {
            LessIsTransitive(s[0], s[1], rest[j]);
          }
        }
      }
    }
  }

  /** An increasing listing is determined by its members. */
  lemma {:induction false} IncreasingIsUnique(a: seq<string>, b: seq<string>)
    requires Increasing(a) && Increasing(b) && forall x :: x in a <==> x in b
    ensures a == b
  {
    EmptyTogether(a, b);
    if a != [] {
      HeadsAgree(a, b);
      forall x ensures x in a[1..] <==> x in b[1..] {
        TailMembers(a, x);
        TailMembers(b, x);
      }
      IncreasingIsUnique(a[1..], b[1..]);
      assert a == [a[0]] + a[1..] && b == [b[0]] + b[1..];
    }
  }

  lemma EmptyTogether(a: seq<string>, b: seq<string>)
    requires forall x :: x in a <==> x in b
    ensures a == [] <==> b == []
  {
    if a != [] {
      assert a[0] in a;
    }
    if b != [] {
      assert b[0] in b;
    }
  }

  lemma HeadsAgree(a: seq<string>, b: seq<string>)
    requires a != [] && b != [] && Increasing(a) && Increasing(b) && forall x :: x in a <==> x in b
    ensures a[0] == b[0]
  {
    assert a[0] in b && b[0] in a;
    var i :| 0 <= i < |b| && b[i] == a[0];
    var j :| 0 <= j < |a| && a[j] == b[0];
    LessIsTotal(a[0], b[0]);
  }

  lemma TailMembers(s: seq<string>, x: string)
    requires s != [] && Increasing(s)
    ensures x in s[1..] <==> x in s && x != s[0]
  {
    LessIsTotal(s[0], s[0]);
    assert s == [s[0]] + s[1..];
  }
}
