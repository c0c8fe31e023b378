/** The cache's own maps and queue, one call at a time. */
module AutoRefreshes {
  import opened Base
  import opened RefreshCaches
  import Marks = ProcessingMarks

  predicate CanSync(lruMap: map<Id, Item>, id: Id) {
    id in lruMap && !lruMap[id].terminal
  }

  function MarkOf(processing: map<Id, nat>, id: Id): Option<nat> {
    if id in processing then Some(processing[id]) else None
  }

  /** The ids an enqueue cycle picks. */
  predicate Picked(lruMap: map<Id, Item>, processing: map<Id, nat>, toDelete: set<Id>, now: nat, period: nat, id: Id) {
    CanSync(lruMap, id) && id !in toDelete && !Marks.Believed(now, MarkOf(processing, id), period)
  }

  /** The part of a batch that is handed to the sync callback. */
  function Syncable(lruMap: map<Id, Item>, batch: seq<Id>): (kept: seq<Id>)
    ensures forall id :: id in kept <==> id in batch && id in lruMap && !lruMap[id].terminal
  {
    if batch == [] then []
    else
      var rest := Syncable(lruMap, batch[..|batch| - 1]);
      if CanSync(lruMap, batch[|batch| - 1]) then rest + [batch[|batch| - 1]] else rest
  }

  /** The map after a series of updates. */
  function AfterUpdates(lruMap: map<Id, Item>, updates: seq<(Id, Item)>): map<Id, Item> {
    if updates == [] then lruMap
    else
      var before := AfterUpdates(lruMap, updates[..|updates| - 1]);
      var (id, item) := updates[|updates| - 1];
      if CanSync(before, id) then before[id := item] else before
  }

  /** Updates add nothing, keep every terminal item, and stop at the first terminal one they write. */
  lemma {:induction false} UpdatesKeepTerminalItems(lruMap: map<Id, Item>, updates: seq<(Id, Item)>, id: Id)
    ensures
      var after := AfterUpdates(lruMap, updates);
      && after.Keys == lruMap.Keys
      && (id in lruMap && lruMap[id].terminal ==> after[id] == lruMap[id])
      && (id in lruMap && after[id] != lruMap[id] ==> (id, after[id]) in updates)
  {
    if updates != [] {
      UpdatesKeepTerminalItems(lruMap, updates[..|updates| - 1], id);
      var last := updates[|updates| - 1];
      assert last == (last.0, last.1) && updates == updates[..|updates| - 1] + [last];
    }
  }

  /** Update i settles the item of a live id: it is the first terminal one of it, or, if there is none, the last. */
  predicate Settles(updates: seq<(Id, Item)>, i: nat, id: Id)
    requires i < |updates|
  {
    && updates[i].0 == id
    && (forall j :: 0 <= j < i && updates[j].0 == id ==> !updates[j].1.terminal)
    && (updates[i].1.terminal || forall j :: i < j < |updates| ==> updates[j].0 != id)
  }

  /** A live id has the item of the update that settles it; without any update it keeps its own. */
  ghost predicate Settled(lruMap: map<Id, Item>, updates: seq<(Id, Item)>, id: Id, item: Item)
    requires id in lruMap
  {
    if exists i :: 0 <= i < |updates| && updates[i].0 == id
    then exists i :: 0 <= i < |updates| && Settles(updates, i, id) && item == updates[i].1
    else item == lruMap[id]
  }

  /** The updates bring a terminal item for the id. */
  predicate EndsIn(updates: seq<(Id, Item)>, id: Id) {
    exists i :: 0 <= i < |updates| && updates[i].0 == id && updates[i].1.terminal
  }

  lemma {:induction false} UpdatesSettle(lruMap: map<Id, Item>, updates: seq<(Id, Item)>, id: Id)
    requires CanSync(lruMap, id)
    ensures
      var after := AfterUpdates(lruMap, updates);
      id in after && Settled(lruMap, updates, id, after[id])
    ensures AfterUpdates(lruMap, updates)[id].terminal <==> EndsIn(updates, id)
  {
    UpdatesKeepTerminalItems(lruMap, updates, id);
    if updates != [] {
      var front, last := updates[..|updates| - 1], updates[|updates| - 1];
      UpdatesSettle(lruMap, front, id);
      UpdatesKeepTerminalItems(lruMap, front, id);
      var before := AfterUpdates(lruMap, front)[id];
      assert updates == front + [last];
      var after := AfterUpdates(lruMap, updates)[id];
      assert after == if last.0 == id && !before.terminal then last.1 else before;
      hide AfterUpdates;
      SettledOnce(lruMap, front, last, id, before, after);
    }
  }

  /** One more update settles a live item, and leaves a settled one. */
  lemma SettledOnce(lruMap: map<Id, Item>, front: seq<(Id, Item)>, last: (Id, Item), id: Id, before: Item, after: Item)
    requires id in lruMap && Settled(lruMap, front, id, before) && !lruMap[id].terminal
    requires before.terminal <==> EndsIn(front, id)
    requires after == if last.0 == id && !before.terminal then last.1 else before
    ensures Settled(lruMap, front + [last], id, after) && (after.terminal <==> EndsIn(front + [last], id))
  {
    var updates := front + [last];
    assert forall i :: 0 <= i < |front| ==> updates[i] == front[i];
    assert updates[|front|] == last;
    if i :| 0 <= i < |front| && front[i].0 == id && front[i].1.terminal {
      assert updates[i].0 == id && updates[i].1.terminal;
    }
    if last.0 == id && !before.terminal {
      assert Settles(updates, |front|, id);
    } else if exists i :: 0 <= i < |front| && front[i].0 == id {
      var i :| 0 <= i < |front| && Settles(front, i, id) && before == front[i].1;
      assert Settles(updates, i, id);
    }
  }

  class AutoRefresh {
    var lruMap: map<Id, Item>
    var processing: map<Id, nat>
    var toDelete: set<Id>
    var workqueue: seq<seq<Id>>
    const size: nat
    const syncPeriod: nat

    predicate Valid()
      reads this
    {
      size > 0 && |lruMap| <= size
    }

    constructor (size: nat, syncPeriod: nat)
      requires size > 0
      ensures Valid() && lruMap == map[] && processing == map[] && toDelete == {} && workqueue == []
      ensures this.size == size && this.syncPeriod == syncPeriod
    {
      this.size := size;
      this.syncPeriod := syncPeriod;
      lruMap, processing, toDelete, workqueue := map[], map[], {}, [];
    }

    /** The LRU map's Add: a new id may push out one other. */
    method Add(id: Id, item: Item)
      requires Valid()
      modifies `lruMap
      ensures Valid() && id in lruMap && lruMap[id] == item
      ensures id in old(lruMap) ==> lruMap == old(lruMap)[id := item]
      ensures exists victim :: lruMap == (old(lruMap) - {victim})[id := item]
    {
      if id !in lruMap && |lruMap| == size {
        var victim :| victim in lruMap;
        RemoveOne(lruMap, victim);
        AddOne(lruMap - {victim}, id, item);
        lruMap := (lruMap - {victim})[id := item];
      } else {
        AddOne(lruMap, id, item);
        lruMap := lruMap[id := item];
        assert lruMap == (old(lruMap) - {id})[id := item];
      }
    }

    method Update(id: Id, item: Item) returns (ok: bool)
      requires Valid()
      modifies `lruMap
      ensures Valid() && lruMap == AfterUpdates(old(lruMap), [(id, item)])
      ensures ok <==> id in old(lruMap) && !old(lruMap)[id].terminal
      ensures lruMap == if ok then old(lruMap)[id := item] else old(lruMap)
    {
      assert [(id, item)][..0] == [];
      if id !in lruMap || lruMap[id].terminal {
        return false;
      }
      Add(id, item);
      ok := true;
    }

    method Delete(id: Id)
      requires Valid()
      modifies `lruMap, `toDelete
      ensures Valid() && lruMap == old(lruMap) - {id} && toDelete == old(toDelete) - {id}
    {
      toDelete := toDelete - {id};
      RemoveOne(lruMap, id);
      lruMap := lruMap - {id};
    }

    /** An item is created once: a present id keeps its item, a new one is queued and marked at once. */
    method GetOrCreate(id: Id, item: Item, now: nat) returns (r: Item)
      requires Valid()
      modifies `lruMap, `workqueue, `processing
      ensures Valid() && id in lruMap && lruMap[id] == r
      ensures id in old(lruMap) ==>
        lruMap == old(lruMap) && workqueue == old(workqueue) && processing == old(processing)
      ensures id !in old(lruMap) ==>
        r == item && workqueue == old(workqueue) + [[id]] && processing == old(processing)[id := now]
    {
      if id in lruMap {
        return lruMap[id];
      }
      Add(id, item);
      workqueue := workqueue + [[id]];
      processing := processing[id := now];
      r := item;
    }

    method DeleteDelayed(id: Id)
      modifies `toDelete
      ensures toDelete == old(toDelete) + {id}
    {
      toDelete := toDelete + {id};
    }

    /** A mark that is no longer believed is dropped. */
    method InProcessing(id: Id, now: nat) returns (b: bool)
      modifies `processing
      ensures b == Marks.Believed(now, MarkOf(old(processing), id), syncPeriod)
      ensures b <==> id in old(processing) && now - old(processing)[id] <= 5 * syncPeriod
      ensures processing == if b then old(processing) else old(processing) - {id}
    {
      if id in processing {
        if now - processing[id] > 5 * syncPeriod {
          processing := processing - {id};
          return false;
        }
        return true;
      }
      assert processing - {id} == processing;
      b := false;
    }

    /** One enqueue cycle with single-item batches: it carries out the delayed deletions of cached ids, and queues
        and marks exactly the ids that are live and not believed to be in processing. */
    method EnqueueBatches(now: nat) returns (ghost snapshot: seq<Id>)
      requires Valid()
      modifies `lruMap, `toDelete, `processing, `workqueue
      ensures Valid()
      ensures lruMap == old(lruMap) - old(toDelete) && toDelete == old(toDelete) - old(lruMap).Keys
      ensures IsSnapshot(snapshot, old(lruMap).Keys, old(lruMap), old(processing), old(toDelete), now, syncPeriod)
      ensures workqueue == old(workqueue) + Singles(snapshot)
      ensures forall id :: id in snapshot <==>
        && id in old(lruMap) && !old(lruMap)[id].terminal && id !in old(toDelete)
        && (id in old(processing) ==> now - old(processing)[id] > 5 * syncPeriod)
      ensures forall id :: id in snapshot ==> id in processing && processing[id] == now
    {
      var picked := Snapshot(now);
      Enqueue(picked, now);
      snapshot := picked;
    }

    method Snapshot(now: nat) returns (snapshot: seq<Id>)
      requires Valid()
      modifies `lruMap, `toDelete, `processing
      ensures Valid()
      ensures lruMap == old(lruMap) - old(toDelete) && toDelete == old(toDelete) - old(lruMap).Keys
      ensures IsSnapshot(snapshot, old(lruMap).Keys, old(lruMap), old(processing), old(toDelete), now, syncPeriod)
    {
      var keys := lruMap.Keys;
      snapshot := [];
      var todo := keys;
      ghost var done: set<Id> := {};
      DroppedNothing(lruMap, toDelete);
      NonePicked(lruMap, processing, toDelete, now, syncPeriod);
      hide Picked, IsSnapshot, Dropped, MarkOf, CanSync;
      while todo != {}
        invariant Valid() && done + todo == keys && done !! todo
        invariant lruMap == Dropped(old(lruMap), old(toDelete), done) && toDelete == old(toDelete) - done
        invariant forall id :: id in todo ==> MarkOf(processing, id) == MarkOf(old(processing), id)
        invariant IsSnapshot(snapshot, done, old(lruMap), old(processing), old(toDelete), now, syncPeriod)
        decreases |todo|
      {
        var k :| k in todo;
        SamePick(old(lruMap), old(processing), old(toDelete), processing, done, now, syncPeriod, k);
        DroppedOneMore(old(lruMap), old(toDelete), done, k);
        OneMoreDone(old(toDelete), toDelete, done, k);
        OneMorePicked(snapshot, done, old(lruMap), old(processing), old(toDelete), now, syncPeriod, k);
        var picked := Visit(k, now);
        todo := todo - {k};
        done := done + {k};
        if picked {
          snapshot := snapshot + [k];
        }
      }
      assert done == keys;
      DroppedAll(old(lruMap), old(toDelete), done);
    }

    /** The cycle's turn for one key. */
    method Visit(k: Id, now: nat) returns (picked: bool)
      requires Valid()
      modifies `lruMap, `toDelete, `processing
      ensures Valid() && picked == Picked(old(lruMap), old(processing), old(toDelete), now, syncPeriod, k)
      ensures lruMap == (if k in old(toDelete) then old(lruMap) - {k} else old(lruMap)) && toDelete == old(toDelete) - {k}
      ensures forall id :: id != k ==> MarkOf(processing, id) == MarkOf(old(processing), id)
    {
      if k in toDelete {
        Delete(k);
        return false;
      }
      assert toDelete == toDelete - {k};
      picked := false;
      if k in lruMap && !lruMap[k].terminal {
        var busy := InProcessing(k, now);
        picked := !busy;
      }
    }

    method Enqueue(snapshot: seq<Id>, now: nat)
      requires Valid()
      modifies `processing, `workqueue
      ensures Valid() && workqueue == old(workqueue) + Singles(snapshot)
      ensures forall id :: MarkOf(processing, id) == if id in snapshot then Some(now) else MarkOf(old(processing), id)
      ensures forall id :: id in snapshot ==> id in processing && processing[id] == now
    {
      var i := 0;
      while i < |snapshot|
        invariant i <= |snapshot| && Valid() && workqueue == old(workqueue) + Singles(snapshot[..i])
        invariant forall id ::
          MarkOf(processing, id) == if id in snapshot[..i] then Some(now) else MarkOf(old(processing), id)
      {
        workqueue := workqueue + [[snapshot[i]]];
        processing := processing[snapshot[i] := now];
        assert Singles(snapshot[..i + 1]) == Singles(snapshot[..i]) + [[snapshot[i]]];
        assert snapshot[..i + 1] == snapshot[..i] + [snapshot[i]];
        i := i + 1;
      }
      assert snapshot[..i] == snapshot;
    }

    /** A worker's turn up to the callback: the batch is unmarked, and only live items are handed on. */
    method TakeBatch() returns (batch: seq<Id>, kept: seq<Id>)
      requires workqueue != []
      modifies `workqueue, `processing
      ensures batch == old(workqueue[0]) && workqueue == old(workqueue[1..])
      ensures kept == Syncable(lruMap, batch)
      ensures processing == old(processing) - IdsOf(batch)
    {
      batch := workqueue[0];
      workqueue := workqueue[1..];
      kept := UnmarkAll(batch);
    }

    method UnmarkAll(batch: seq<Id>) returns (kept: seq<Id>)
      modifies `processing
      ensures kept == Syncable(lruMap, batch) && processing == old(processing) - IdsOf(batch)
    {
      kept := [];
      var i := 0;
      MinusNone(processing);
      while i < |batch|
        invariant i <= |batch| && kept == Syncable(lruMap, batch[..i])
        invariant processing == old(processing) - IdsOf(batch[..i])
      {
        IdsOfOneMore(batch, i);
        SyncableOneMore(lruMap, batch, i);
        MinusTwice(old(processing), IdsOf(batch[..i]), {batch[i]});
        processing := processing - {batch[i]};
        if batch[i] in lruMap && !lruMap[batch[i]].terminal {
          kept := kept + [batch[i]];
        }
        i := i + 1;
      }
      assert batch[..i] == batch;
    }

    /** A worker's turn after a callback that succeeded: its updates, then the delayed deletions. */
    method ApplySync(updates: seq<(Id, Item)>)
      requires Valid()
      modifies `lruMap, `toDelete
      ensures Valid() && toDelete == {} && lruMap == AfterUpdates(old(lruMap), updates) - old(toDelete)
      ensures lruMap.Keys == old(lruMap).Keys - old(toDelete)
      ensures forall id | id in lruMap ::
        if old(lruMap)[id].terminal then lruMap[id] == old(lruMap)[id] else Settled(old(lruMap), updates, id, lruMap[id])
    {
      var i := 0;
      while i < |updates|
        invariant i <= |updates| && Valid() && toDelete == old(toDelete)
        invariant lruMap == AfterUpdates(old(lruMap), updates[..i])
      {
        UpdatesOneMore(old(lruMap), updates, i);
        var _ := Update(updates[i].0, updates[i].1);
        i := i + 1;
      }
      assert updates[..i] == updates;
      forall id ensures lruMap.Keys == old(lruMap).Keys
        && (id in lruMap ==> if old(lruMap)[id].terminal then lruMap[id] == old(lruMap)[id]
                             else Settled(old(lruMap), updates, id, lruMap[id]))
      {
        UpdatesKeepTerminalItems(old(lruMap), updates, id);
        if id in old(lruMap) && !old(lruMap)[id].terminal {
          UpdatesSettle(old(lruMap), updates, id);
        }
      }
      DeleteAll();
    }

    method DeleteAll()
      requires Valid()
      modifies `lruMap, `toDelete
      ensures Valid() && toDelete == {} && lruMap == old(lruMap) - old(toDelete)
    {
      ghost var done: set<Id> := {};
      DroppedNothing(lruMap, toDelete);
      while toDelete != {}
        invariant Valid() && toDelete == old(toDelete) - done && lruMap == Dropped(old(lruMap), old(toDelete), done)
        decreases |toDelete|
      {
        var key :| key in toDelete;
        DroppedOneMore(old(lruMap), old(toDelete), done, key);
        OneMoreDone(old(toDelete), toDelete, done, key);
        hide Dropped;
        Delete(key);
        done := done + {key};
      }
      DroppedAll(old(lruMap), old(toDelete), done);
    }
  }

  /** The items left when the doomed ones among `done` are gone. */
  function Dropped(items: map<Id, Item>, doomed: set<Id>, done: set<Id>): map<Id, Item> {
    items - doomed * done
  }

  lemma DroppedNothing(items: map<Id, Item>, doomed: set<Id>)
    ensures Dropped(items, doomed, {}) == items
    ensures doomed - {} == doomed
  {
  }

  lemma DroppedOneMore(items: map<Id, Item>, doomed: set<Id>, done: set<Id>, k: Id)
    ensures Dropped(items, doomed, done + {k}) == if k in doomed then Dropped(items, doomed, done) - {k} else Dropped(items, doomed, done)
  {
    assert k in doomed ==> doomed * (done + {k}) == doomed * done + {k};
    assert k !in doomed ==> doomed * (done + {k}) == doomed * done;
  }

  /** Nothing doomed is left of the items once all of them, or all the doomed ones, are done. */
  lemma DroppedAll(items: map<Id, Item>, doomed: set<Id>, done: set<Id>)
    requires items.Keys <= done || doomed <= done
    ensures Dropped(items, doomed, done) == items - doomed
  {
  }

  /** The ids among `keys` that the cycle picks, each once. */
  ghost predicate IsSnapshot(snapshot: seq<Id>, keys: set<Id>, items: map<Id, Item>, marks: map<Id, nat>, doomed: set<Id>,
                             now: nat, period: nat) {
    && (forall id :: id in snapshot <==> id in keys && Picked(items, marks, doomed, now, period, id))
    && forall i, j :: 0 <= i < j < |snapshot| ==> snapshot[i] != snapshot[j]
  }

  lemma NonePicked(items: map<Id, Item>, marks: map<Id, nat>, doomed: set<Id>, now: nat, period: nat)
    ensures IsSnapshot([], {}, items, marks, doomed, now, period)
  {
  }

  lemma OneMorePicked(snapshot: seq<Id>, done: set<Id>, items: map<Id, Item>, marks: map<Id, nat>, doomed: set<Id>,
                      now: nat, period: nat, k: Id)
    requires IsSnapshot(snapshot, done, items, marks, doomed, now, period) && k !in done
    ensures IsSnapshot(if Picked(items, marks, doomed, now, period, k) then snapshot + [k] else snapshot, done + {k},
                       items, marks, doomed, now, period)
  {
    hide Picked;
  }

  /** The cycle finds a key it has not come to yet as it was at the start. */
  lemma SamePick(items: map<Id, Item>, marks: map<Id, nat>, doomed: set<Id>, marks1: map<Id, nat>,
                 done: set<Id>, now: nat, period: nat, k: Id)
    requires k !in done && MarkOf(marks1, k) == MarkOf(marks, k)
    ensures Picked(Dropped(items, doomed, done), marks1, doomed - done, now, period, k)
         == Picked(items, marks, doomed, now, period, k)
  {
  }

  lemma OneMoreDone(doomed: set<Id>, doomed1: set<Id>, done: set<Id>, k: Id)
    requires doomed1 == doomed - done
    ensures doomed1 - {k} == doomed - (done + {k})
  {
  }

  function IdsOf(batch: seq<Id>): set<Id> {
    set id | id in batch
  }

  lemma IdsOfOneMore(batch: seq<Id>, i: nat)
    requires i < |batch|
    ensures IdsOf(batch[..i + 1]) == IdsOf(batch[..i]) + {batch[i]}
  {
    assert batch[..i + 1] == batch[..i] + [batch[i]];
  }

  lemma SyncableOneMore(lruMap: map<Id, Item>, batch: seq<Id>, i: nat)
    requires i < |batch|
    ensures Syncable(lruMap, batch[..i + 1])
         == if CanSync(lruMap, batch[i]) then Syncable(lruMap, batch[..i]) + [batch[i]] else Syncable(lruMap, batch[..i])
  {
    assert batch[..i + 1][..i] == batch[..i];
  }

  lemma UpdatesOneMore(m: map<Id, Item>, updates: seq<(Id, Item)>, i: nat)
    requires i < |updates|
    ensures AfterUpdates(m, updates[..i + 1]) == AfterUpdates(AfterUpdates(m, updates[..i]), [(updates[i].0, updates[i].1)])
  {
    assert updates[..i + 1][..i] == updates[..i];
    assert [(updates[i].0, updates[i].1)][..0] == [];
  }

  function Singles(ids: seq<Id>): seq<seq<Id>> {
    seq(|ids|, i requires 0 <= i < |ids| => [ids[i]])
  }

  lemma MinusTwice<V>(m: map<Id, V>, a: set<Id>, b: set<Id>)
    ensures (m - a) - b == m - (a + b)
  {
  }

  lemma MinusNone<V>(m: map<Id, V>)
    ensures m - {} == m
  {
  }

  lemma RemoveOne(m: map<Id, Item>, id: Id)
    ensures |m - {id}| == if id in m then |m| - 1 else |m|
  {
    assert (m - {id}).Keys == m.Keys - {id};
    assert |m - {id}| == |(m - {id}).Keys| && |m| == |m.Keys|;
  }

  lemma AddOne(m: map<Id, Item>, id: Id, item: Item)
    ensures |m[id := item]| == if id in m then |m| else |m| + 1
  {
    assert m[id := item].Keys == m.Keys + {id};
    assert |m[id := item]| == |m[id := item].Keys| && |m| == |m.Keys|;
  }
}
