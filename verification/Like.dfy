/** SQL pattern matching, as far as LIKE with a prefix needs it. */
module Like {

  predicate Matches(pattern: string, s: string)
    decreases |pattern| + |s|
  {
    if pattern == "" then s == ""
    else if pattern[0] == '%' then Matches(pattern[1..], s) || (s != "" && Matches(pattern, s[1..]))
    else if pattern[0] == '_' then s != "" && Matches(pattern[1..], s[1..])
    else if pattern[0] == '\\' then
      |pattern| > 1 && s != "" && s[0] == pattern[1] && Matches(pattern[2..], s[1..])
    else s != "" && s[0] == pattern[0] && Matches(pattern[1..], s[1..])
  }

  predicate NoWildcards(p: string) {
    '%' !in p && '_' !in p && '\\' !in p
  }

  lemma {:induction false} PercentMatchesAll(s: string)
    ensures Matches("%", s)
    decreases |s|
  {
    assert "%"[1..] == "";
    if s != "" {
      PercentMatchesAll(s[1..]);
    }
  }

  /** Without wildcards a prefix pattern matches exactly the strings with that prefix. */
  lemma {:induction false} PlainPrefix(p: string, s: string)
    requires NoWildcards(p)
    ensures Matches(p + "%", s) <==> p <= s
  {
    if p == "" {
      assert p + "%" == "%";
      PercentMatchesAll(s);
    } else {
      assert p[0] in p;
      assert (p + "%")[1..] == p[1..] + "%";
      if s != "" {
        PlainPrefix(p[1..], s[1..]);
        assert s == [s[0]] + s[1..] && p == [p[0]] + p[1..];
      }
    }
  }

  /** No escape character is left dangling at the end. */
  predicate Closed(p: string) {
    p == "" || if p[0] == '\\' then |p| > 1 && Closed(p[2..]) else Closed(p[1..])
  }

  /** What a prefix stands for in the pattern that goes on with a slash: a dangling escape only escapes the slash. */
  function Core(p: string): string {
    if Closed(p) then p else p[..|p| - 1]
  }

  lemma {:induction false} DanglingIsLast(p: string)
    requires !Closed(p)
    ensures p[|p| - 1] == '\\' && Closed(p[..|p| - 1])
    decreases |p|
  {
    var front := p[..|p| - 1];
    if p[0] == '\\' {
      if |p| > 1 {
        DanglingIsLast(p[2..]);
        assert front[2..] == p[2..][..|p[2..]| - 1];
      }
    } else {
      DanglingIsLast(p[1..]);
      assert front[1..] == p[1..][..|p[1..]| - 1];
    }
  }

  /** A pattern that matches whatever begins with a slash. */
  predicate SlashTail(tail: string) {
    tail == "/%" || tail == "\\/%"
  }

  lemma TailMatches(tail: string, s: string)
    requires SlashTail(tail)
    ensures Matches(tail, s) <==> s != "" && s[0] == '/'
  {
    assert "/%"[1..] == "%" && "\\/%"[2..] == "%";
    if s != "" {
      PercentMatchesAll(s[1..]);
    }
  }

  lemma {:induction false} TailNeedsSlash(p: string, tail: string, s: string)
    requires Closed(p) && SlashTail(tail) && '/' !in s
    ensures !Matches(p + tail, s)
    decreases |p| + |s|
  {
    if p == "" {
      assert p + tail == tail;
      TailMatches(tail, s);
      assert s != "" ==> s[0] in s;
    } else {
      assert (p + tail)[1..] == p[1..] + tail;
      assert |p| > 1 ==> (p + tail)[2..] == p[2..] + tail;
      assert s != "" ==> forall c :: c in s[1..] ==> c in s;
      if p[0] == '%' {
        TailNeedsSlash(p[1..], tail, s);
      }
      if s != "" {
        if p[0] == '\\' {
          TailNeedsSlash(p[2..], tail, s[1..]);
        } else {
          TailNeedsSlash(p[1..], tail, s[1..]);
          if p[0] == '%' {
            TailNeedsSlash(p, tail, s[1..]);
          }
        }
      }
    }
  }

  /** A pattern that goes on with a slash splits what it matches at the slash. */
  lemma {:induction false} MatchesBeforeSlash(p: string, tail: string, q: string, name: string)
    requires Closed(p) && SlashTail(tail) && '/' !in q && '/' !in name
    ensures Matches(p + tail, q + "/" + name) <==> Matches(p, q)
    decreases |p| + |q|
  {
    var s := q + "/" + name;
    if p == "" {
      assert p + tail == tail;
      TailMatches(tail, s);
      assert q != "" ==> s[0] == q[0] && q[0] in q;
    } else {
      assert (p + tail)[1..] == p[1..] + tail;
      assert |p| > 1 ==> (p + tail)[2..] == p[2..] + tail;
      if q == "" {
        assert s[1..] == name;
        AfterSlash(p, tail, name);
        if p[0] == '%' {
          MatchesBeforeSlash(p[1..], tail, q, name);
        }
      } else {
        assert s[1..] == q[1..] + "/" + name && s[0] == q[0];
        assert forall c :: c in q[1..] ==> c in q;
        if p[0] == '\\' {
          MatchesBeforeSlash(p[2..], tail, q[1..], name);
        } else {
          MatchesBeforeSlash(p[1..], tail, q[1..], name);
          if p[0] == '%' {
            MatchesBeforeSlash(p[1..], tail, q, name);
            MatchesBeforeSlash(p, tail, q[1..], name);
          }
        }
      }
    }
  }

  /** Once the slash is consumed nothing matches the tail any more. */
  lemma AfterSlash(p: string, tail: string, name: string)
    requires Closed(p) && p != "" && SlashTail(tail) && '/' !in name
    ensures !Matches(p + tail, name)
    ensures p[0] == '\\' ==> !Matches(p[2..] + tail, name)
    ensures p[0] != '\\' ==> !Matches(p[1..] + tail, name)
  {
    TailNeedsSlash(p, tail, name);
    if p[0] == '\\' {
      TailNeedsSlash(p[2..], tail, name);
    } else {
      TailNeedsSlash(p[1..], tail, name);
    }
  }

  /** For flat names, the pattern of one prefix finds the versions of another exactly if it matches that prefix. */
  lemma PatternFindsExactly(p: string, q: string, name: string)
    requires '/' !in q && '/' !in name
    ensures Matches(p + "/%", q + "/" + name) <==> Matches(Core(p), q)
  {
    if Closed(p) {
      MatchesBeforeSlash(p, "/%", q, name);
    } else {
      DanglingIsLast(p);
      var front := p[..|p| - 1];
      assert p == front + "\\" && p + "/%" == front + "\\/%";
      MatchesBeforeSlash(front, "\\/%", q, name);
    }
  }

  lemma {:induction false} PlainMatchesItself(p: string, q: string)
    requires NoWildcards(p)
    ensures Closed(p) && (Matches(p, q) <==> p == q)
  {
    if p != "" {
      assert p[0] in p && forall c :: c in p[1..] ==> c in p;
      if q != "" {
        PlainMatchesItself(p[1..], q[1..]);
        assert p == [p[0]] + p[1..] && q == [q[0]] + q[1..];
      } else {
        PlainMatchesItself(p[1..], "");
      }
    }
  }

  /** Without escapes a pattern matches itself. */
  lemma {:induction false} MatchesItself(p: string)
    requires '\\' !in p
    ensures Closed(p) && Matches(p, p)
  {
    if p != "" {
      assert p[0] in p && forall c :: c in p[1..] ==> c in p;
      MatchesItself(p[1..]);
      if p[0] == '%' {
        PercentSkips(p[1..], p);
      }
    }
  }

  /** A leading percent sign may match one character. */
  lemma PercentSkips(rest: string, p: string)
    requires p == "%" + rest && Matches(rest, rest)
    ensures Matches(p, p)
  {
    assert p[1..] == rest;
    assert Matches(p, rest);
  }
}
