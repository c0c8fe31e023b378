/** Listing of Redis keys through an index cursor. */
module RedisListing {
  import opened Base
  import opened Decimals
  import opened StringOrder
  import opened Words

  type Key = string

  datatype Cursor = AtStart | AtEnd | At(position: string)

  /** How a call ends without a page; Panicked is a slice whose end lies before its start. */
  datatype ListError = CursorAtEnd | BadCursor | ScanFailed | Panicked

  /** One SCAN round trip: a batch in any order and with any repetition, and the next scan cursor. */
  datatype Reply = Batch(keys: seq<Key>, next: nat) | Failure

  type Listing = Result<(seq<Key>, Cursor), ListError>

  predicate EndsScan(reply: Reply) {
    reply.Failure? || reply.next == 0
  }

  /** The keys of a whole scan, up to the reply that ends it. */
  function Collected(replies: seq<Reply>): Option<seq<Key>> {
    if replies == [] || replies[0].Failure? then None
    else if replies[0].next == 0 then Some(replies[0].keys)
    else
      var rest := Collected(replies[1..]);
      if rest.Some? then Some(replies[0].keys + rest.value) else None
  }

  /** Sorted, each once. */
  function Listed(keys: seq<Key>): seq<Key> {
    Compact(Sort(keys))
  }

  function Offset(cursor: Cursor): Result<nat, ListError> {
    match cursor
    case AtStart => Ok(0)
    case AtEnd => Err(CursorAtEnd)
    case At(position) =>
      var n := ParseSigned(position, -MAX_INT64 - 1, MAX_INT64 + 1);
      if n.None? || n.value < 0 then Err(BadCursor) else var offset: nat := n.value; Ok(offset)
  }

  function Min(a: int, b: int): int {
    if a < b then a else b
  }

  /** The page of a listing that starts at an offset. A maxItems of zero or less means all. The sum of two Go integers
      may wrap round, and then there is no page. */
  function Page(all: seq<Key>, maxItems: int, offset: nat): Option<(seq<Key>, Cursor)> {
    var from := Min(offset, |all|);
    var end := if maxItems > 0 then Min(Wrap64(from + maxItems), |all|) else |all|;
    if end < from then None else Some((all[from..end], if end >= |all| then AtEnd else At(Itoa(end))))
  }

  /** There is none exactly if offset and page size add up to more than the largest integer. */
  lemma PagePanicsExactly(all: seq<Key>, maxItems: int, offset: nat)
    requires maxItems <= MAX_INT64 && offset <= MAX_INT64
    ensures Page(all, maxItems, offset).None? <==> maxItems > MAX_INT64 - Min(offset, |all|)
  {
    var from := Min(offset, |all|);
    if from + maxItems > MAX_INT64 {
      assert from + maxItems + MAX_INT64 + 1 - TWO_64 < TWO_64;
      assert Wrap64(from + maxItems) == from + maxItems - TWO_64;
    }
  }

  function Prepend(keys: seq<Key>, rest: Option<seq<Key>>): Option<seq<Key>> {
    if rest.Some? then Some(keys + rest.value) else None
  }

  lemma PrependTwice(a: seq<Key>, b: seq<Key>, rest: Option<seq<Key>>)
    ensures Prepend(a, Prepend(b, rest)) == Prepend(a + b, rest)
    ensures Prepend([], rest) == rest
  {
    if rest.Some? {
      assert a + (b + rest.value) == (a + b) + rest.value;
      assert [] + rest.value == rest.value;
    }
  }

  method Scan(replies: seq<Reply>) returns (r: Option<seq<Key>>)
    requires exists i :: 0 <= i < |replies| && EndsScan(replies[i])
    ensures r == Collected(replies)
  {
    ghost var last :| 0 <= last < |replies| && EndsScan(replies[last]);
    var keys: seq<Key> := [];
    var i := 0;
    assert replies[0..] == replies;
    PrependTwice([], [], Collected(replies));
    while true
      invariant i <= last && Collected(replies) == Prepend(keys, Collected(replies[i..]))
      decreases |replies| - i
    {
      var reply := replies[i];
      assert replies[i..][1..] == replies[i + 1..];
      if reply.Failure? {
        return None;
      }
      PrependTwice(keys, reply.keys, Collected(replies[i + 1..]));
      keys := keys + reply.keys;
      if reply.next == 0 {
        return Some(keys);
      }
      i := i + 1;
    }
  }

  method List(replies: seq<Reply>, maxItems: int, cursor: Cursor) returns (r: Listing)
    requires exists i :: 0 <= i < |replies| && EndsScan(replies[i])
    ensures Offset(cursor).Err? ==> r == Err(Offset(cursor).error)
    ensures Offset(cursor).Ok? && Collected(replies).None? ==> r == Err(ScanFailed)
    ensures Offset(cursor).Ok? && Collected(replies).Some? ==>
      var page := Page(Listed(Collected(replies).value), maxItems, Offset(cursor).value);
      r == if page.Some? then Ok(page.value) else Err(Panicked)
  {
    var offset: int := 0;
    match cursor {
      case AtStart =>
      case AtEnd => return Err(CursorAtEnd);
      case At(position) =>
        var n := ParseSigned(position, -MAX_INT64 - 1, MAX_INT64 + 1);
        if n.None? || n.value < 0 {
          return Err(BadCursor);
        }
        offset := n.value;
    }
    var scanned := Scan(replies);
    if scanned.None? {
      return Err(ScanFailed);
    }
    var keys := Listed(scanned.value);
    offset := Min(offset, |keys|);
    var end := |keys|;
    if maxItems > 0 {
      end := Min(Wrap64(offset + maxItems), |keys|);
    }
    if end < offset {
      return Err(Panicked);
    }
    r := Ok((keys[offset..end], if end >= |keys| then AtEnd else At(Itoa(end))));
  }

  /** Reply i is the first that ends the scan. */
  predicate EndsFirst(replies: seq<Reply>, i: nat)
    requires i < |replies|
  {
    EndsScan(replies[i]) && forall j :: 0 <= j < i ==> !EndsScan(replies[j])
  }

  /** A scan collects the keys of every reply up to the first that ends it, none but those, unless that one is a failure
      or none ends it. */
  lemma {:induction false} CollectedExactly(replies: seq<Reply>)
    ensures Collected(replies).Some? <==> exists i :: 0 <= i < |replies| && EndsFirst(replies, i) && !replies[i].Failure?
    ensures Collected(replies).Some? ==> forall i, k | 0 <= i < |replies| && EndsFirst(replies, i) ::
      k in Collected(replies).value <==> exists j :: 0 <= j <= i && Holds(replies[j], k)
  {
    if replies != [] {
      var rest := replies[1..];
      CollectedExactly(rest);
      if EndsScan(replies[0]) {
        assert EndsFirst(replies, 0);
      } else {
        forall i | 0 <= i < |rest| ensures EndsFirst(rest, i) <==> EndsFirst(replies, i + 1) {
          assert forall j :: 0 <= j < i ==> rest[j] == replies[j + 1];
          if EndsFirst(rest, i) {
            forall j | 0 <= j < i + 1 ensures !EndsScan(replies[j]) {
              assert j > 0 ==> replies[j] == rest[j - 1];
            }
          }
        }
        if i :| 0 <= i < |replies| && EndsFirst(replies, i) && !replies[i].Failure? {
          assert i > 0 && EndsFirst(rest, i - 1) && rest[i - 1] == replies[i];
        }
        if i :| 0 <= i < |rest| && EndsFirst(rest, i) && !rest[i].Failure? {
          assert EndsFirst(replies, i + 1);
        }
        OneReplyMore(replies);
      }
    }
  }

  predicate Holds(reply: Reply, k: Key) {
    reply.Batch? && k in reply.keys
  }

  lemma OneReplyMore(replies: seq<Reply>)
    requires replies != [] && !EndsScan(replies[0])
    requires Collected(replies[1..]).Some? ==> forall i, k | 0 <= i < |replies[1..]| && EndsFirst(replies[1..], i) ::
      k in Collected(replies[1..]).value <==> exists j :: 0 <= j <= i && Holds(replies[1..][j], k)
    requires forall i | 0 <= i < |replies[1..]| :: EndsFirst(replies[1..], i) <==> EndsFirst(replies, i + 1)
    ensures Collected(replies).Some? ==> forall i, k | 0 <= i < |replies| && EndsFirst(replies, i) ::
      k in Collected(replies).value <==> exists j :: 0 <= j <= i && Holds(replies[j], k)
  {
    var rest := replies[1..];
    if Collected(replies).Some? {
      forall i, k | 0 <= i < |replies| && EndsFirst(replies, i)
        ensures k in Collected(replies).value <==> exists j :: 0 <= j <= i && Holds(replies[j], k)
      {
        assert i > 0 && EndsFirst(rest, i - 1);
        if j :| 0 <= j <= i - 1 && Holds(rest[j], k) {
          assert Holds(replies[j + 1], k);
        }
        if j :| 0 <= j <= i && Holds(replies[j], k) {
          assert j > 0 ==> Holds(rest[j - 1], k);
        }
      }
    }
  }

  /** A cursor is good exactly if it is the start or the decimal text of an offset that is not negative. */
  lemma CursorsExactly(n: nat)
    ensures Offset(AtStart) == Ok(0) && Offset(AtEnd) == Err(CursorAtEnd)
    ensures Offset(At(Itoa(n))) == if n <= MAX_INT64 then Ok(n) else Err(BadCursor)
    ensures Offset(At("-" + Itoa(n))) == if n == 0 then Ok(0) else Err(BadCursor)
    ensures Offset(At("")) == Err(BadCursor)
  {
    ParseOfSigned(n, -MAX_INT64 - 1, MAX_INT64 + 1);
  }

  /** Without a positive page size the page is all the rest, and the last. */
  lemma AllInOnePage(all: seq<Key>, maxItems: int, offset: nat)
    requires maxItems <= 0
    ensures Page(all, maxItems, offset) == Some((all[Min(offset, |all|)..], AtEnd))
  {
    assert all[Min(offset, |all|)..|all|] == all[Min(offset, |all|)..];
  }

  /** A complete scan of a keyspace whose matching keys are `matching`. */
  ghost predicate Scans(replies: seq<Reply>, matching: set<Key>) {
    && Collected(replies).Some?
    && forall k :: k in Collected(replies).value <==> k in matching
  }

  lemma {:induction false} CollectedEnds(replies: seq<Reply>)
    requires Collected(replies).Some?
    ensures exists i :: 0 <= i < |replies| && EndsScan(replies[i])
  {
    if replies[0].next == 0 {
      assert EndsScan(replies[0]);
    } else {
      CollectedEnds(replies[1..]);
      var i :| 0 <= i < |replies[1..]| && EndsScan(replies[1..][i]);
      assert EndsScan(replies[i + 1]);
    }
  }

  lemma ListedIsSorted(keys: seq<Key>)
    ensures Increasing(Listed(keys)) && forall k :: k in Listed(keys) <==> k in keys
  {
    SortSorts(keys);
    SameMembers(keys);
    CompactKeepsSet(Sort(keys));
  }

  /** Any two scans of the same keys list the same, whatever their batches, order and repetitions. */
  lemma ListingIgnoresScanOrder(a: seq<Reply>, b: seq<Reply>, matching: set<Key>)
    requires Scans(a, matching) && Scans(b, matching)
    ensures Listed(Collected(a).value) == Listed(Collected(b).value)
  {
    ListedIsSorted(Collected(a).value);
    ListedIsSorted(Collected(b).value);
    IncreasingIsUnique(Listed(Collected(a).value), Listed(Collected(b).value));
  }

  /** A page continues where the listing was left, is empty only for an empty listing, and its cursor points past it;
      a page size that reaches beyond the largest integer panics. */
  lemma PageContinues(all: seq<Key>, maxItems: int, offset: nat)
    requires 0 < maxItems <= MAX_INT64 && |all| <= MAX_INT64 && (offset < |all| || (offset == 0 && all == []))
    ensures
      var page := Page(all, maxItems, offset);
      if maxItems > MAX_INT64 - offset then page.None?
      else
        && page.Some?
        && var (items, next) := page.value;
        && offset + |items| <= |all| && |items| <= maxItems && all[..offset] + items == all[..offset + |items|]
        && (items == [] <==> all == [])
        && (if offset + |items| == |all| then next == AtEnd
            else |items| == maxItems && next.At? && Offset(next) == Ok(offset + |items|))
  {
    PagePanicsExactly(all, maxItems, offset);
    var end := Min(offset + maxItems, |all|);
    if maxItems <= MAX_INT64 - offset && end < |all| {
      ParseOfItoa(end, -MAX_INT64 - 1, MAX_INT64 + 1);
    }
  }

  /** The draining loop of a download: follow the cursors until the end; an empty page stops it with nothing. Each
      call of List scans the keyspace anew; `scans` gives the replies of the i-th call. It never panics: after a full
      page the page size is no larger than what was listed, and Go's memory holds far fewer strings than MAX_INT64 / 2. */
  method DrainAll(scans: nat -> seq<Reply>, maxItems: int, ghost matching: set<Key>, ghost all: seq<Key>)
    returns (r: Option<seq<Key>>)
    requires 0 < maxItems <= MAX_INT64 && (forall i: nat :: Scans(scans(i), matching))
    requires Increasing(all) && (forall k :: k in all <==> k in matching) && |all| <= MAX_INT64 / 2
    ensures matching != {} ==> r == Some(all)
    ensures matching == {} ==> r == None
  {
    var cursor := AtStart;
    var paths: seq<Key> := [];
    var calls := 0;
    NoMembers(all, matching);
    assert Offset(cursor) == Ok(0) && all[..0] == [];
    hide *;
    while true
      invariant calls >= 0 && (|paths| < |all| || (paths == [] && all == [])) && paths == all[..|paths|]
      invariant Offset(cursor) == Ok(|paths|) && (paths == [] || maxItems <= |paths|)
      decreases |all| - |paths|
    {
      NextPage(scans(calls), matching, all, maxItems, |paths|);
      var page := List(scans(calls), maxItems, cursor);
      if page.Err? || page.value.0 == [] {
        return None;
      }
      paths := paths + page.value.0;
      cursor := page.value.1;
      calls := calls + 1;
      if cursor.AtEnd? {
        assert all[..|all|] == all;
        return Some(paths);
      }
    }
  }

  lemma NextPage(replies: seq<Reply>, matching: set<Key>, all: seq<Key>, maxItems: int, offset: nat)
    requires Scans(replies, matching) && Increasing(all) && forall k :: k in all <==> k in matching
    requires 0 < maxItems <= MAX_INT64 && |all| <= MAX_INT64 / 2 && (offset < |all| || (offset == 0 && all == []))
    requires offset == 0 || maxItems <= offset
    ensures exists i :: 0 <= i < |replies| && EndsScan(replies[i])
    ensures Collected(replies).Some? && Listed(Collected(replies).value) == all
    ensures
      var page := Page(all, maxItems, offset);
      && page.Some?
      && var (items, next) := page.value;
      && offset + |items| <= |all| && all[..offset] + items == all[..offset + |items|] && (items == [] <==> all == [])
      && (if offset + |items| == |all| then next == AtEnd
          else |items| == maxItems && next.At? && Offset(next) == Ok(offset + |items|))
  {
    CollectedEnds(replies);
    SameListing(replies, matching, all);
    PageContinues(all, maxItems, offset);
  }

  lemma SameListing(replies: seq<Reply>, matching: set<Key>, all: seq<Key>)
    requires Scans(replies, matching) && Increasing(all) && forall k :: k in all <==> k in matching
    ensures Listed(Collected(replies).value) == all
  {
    ListedIsSorted(Collected(replies).value);
    IncreasingIsUnique(Listed(Collected(replies).value), all);
  }

  lemma NoMembers(all: seq<Key>, matching: set<Key>)
    requires forall k :: k in all <==> k in matching
    ensures all == [] <==> matching == {}
  {
    if all != [] {
      assert all[0] in matching;
    }
  }
}
