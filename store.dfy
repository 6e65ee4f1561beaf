/**
 * The demonstration target (api/main.py): an in-memory task list `db` and
 * the counter `current_id` from which every created item takes its id.
 * The handlers are methods of one store object; a missing id, which the
 * server answers with 404, is `None` (or `false` for a delete).
 */
module Store {
  import opened Wrappers
  import opened Seqs

  /** The task states and their wire values. */
  datatype TaskStatus = Todo | InProgress | Done

  function StatusValue(s: TaskStatus): string {
    match s
    case Todo => "to-do"
    case InProgress => "in-progress"
    case Done => "done"
  }

  /** The states in declaration order. */
  const AllStatuses: seq<TaskStatus> := [Todo, InProgress, Done]

  /** The state whose wire value is `v`, if any (what request validation accepts). */
  function ParseStatus(v: string): (r: Option<TaskStatus>)
    ensures r.Some? ==> StatusValue(r.value) == v
    ensures r.None? ==> forall s: TaskStatus :: StatusValue(s) != v
  {
    if v == "to-do" then Some(Todo)
    else if v == "in-progress" then Some(InProgress)
    else if v == "done" then Some(Done)
    else None
  }

  /** Every state survives the trip to its wire value and back. */
  lemma StatusRoundTrip(s: TaskStatus)
    ensures ParseStatus(StatusValue(s)) == Some(s)
  {
  }

  /**
   * `get_statuses`: the wire values in declaration order; each state is
   * listed exactly once and the default state comes first.
   */
  function GetStatuses(): (r: seq<string>)
    ensures |r| == |AllStatuses|
    ensures forall s: TaskStatus :: StatusValue(s) in r
    ensures forall i, j :: 0 <= i < j < |r| ==> r[i] != r[j]
    ensures r[0] == StatusValue(Todo)
    ensures forall k :: 0 <= k < |r| ==> r[k] == StatusValue(AllStatuses[k])
  {
    var r := seq(|AllStatuses|, k requires 0 <= k < |AllStatuses| => StatusValue(AllStatuses[k]));
    assert r[0] == "to-do" && r[1] == "in-progress" && r[2] == "done";
    r
  }

  /** A task; `id` is `None` only in a request body. */
  datatype Item = Item(id: Option<int>, title: string, description: Option<string>, status: TaskStatus)

  /** The index of the first item with id `itemId`, the one a scan of `db` stops at. */
  function FirstWithId(db: seq<Item>, itemId: int): (r: Option<nat>)
    ensures r.Some? ==> r.value < |db| && db[r.value].id == Some(itemId)
    ensures r.Some? ==> forall j :: 0 <= j < r.value ==> db[j].id != Some(itemId)
    ensures r.None? <==> forall j :: 0 <= j < |db| ==> db[j].id != Some(itemId)
  {
    if db == [] then None
    else if db[0].id == Some(itemId) then Some(0)
    else
      match FirstWithId(db[1..], itemId)
      case None => None
      case Some(i) => Some(i + 1)
  }

  /**
   * The store's invariant: the counter is not negative, every stored item
   * has an id between 1 and the counter, and no two stored items share an id.
   */
  predicate ValidDb(db: seq<Item>, currentId: int) {
    && 0 <= currentId
    && (forall k :: 0 <= k < |db| ==> db[k].id.Some? && 1 <= db[k].id.value <= currentId)
    && (forall j, k :: 0 <= j < k < |db| ==> db[j].id != db[k].id)
  }

  /** In a valid store the item with a given id is the one found by the scan. */
  lemma IdsUnique(db: seq<Item>, currentId: int, k: nat, itemId: int)
    requires ValidDb(db, currentId) && k < |db| && db[k].id == Some(itemId)
    ensures FirstWithId(db, itemId) == Some(k)
  {
    assert forall j :: 0 <= j < k ==> db[j].id != db[k].id;
  }

  /** A created item takes the next counter value, which no stored item has, and the store stays valid. */
  lemma CreateKeepsValid(db: seq<Item>, currentId: int, item: Item)
    requires ValidDb(db, currentId)
    ensures forall k :: 0 <= k < |db| ==> db[k].id != Some(currentId + 1)
    ensures ValidDb(db + [item.(id := Some(currentId + 1))], currentId + 1)
  {
    var db' := db + [item.(id := Some(currentId + 1))];
    forall k | 0 <= k < |db'| ensures db'[k].id.Some? && 1 <= db'[k].id.value <= currentId + 1 {
      if k < |db| {
        assert db'[k] == db[k];
      }
    }
    forall j, k | 0 <= j < k < |db'| ensures db'[j].id != db'[k].id {
      if k == |db| {
        assert db'[j] == db[j];
      } else {
        assert db'[j] == db[j] && db'[k] == db[k];
      }
    }
  }

  /** The list without its element at `i`, the others in order. */
  function Without<T>(s: seq<T>, i: nat): (r: seq<T>)
    requires i < |s|
    ensures |r| == |s| - 1
    ensures forall k :: 0 <= k < |r| ==> r[k] == if k < i then s[k] else s[k + 1]
  {
    s[..i] + s[i + 1..]
  }

  /** Removing an item keeps the store valid, and its id is then absent. */
  lemma RemoveKeepsValid(db: seq<Item>, currentId: int, i: nat)
    requires ValidDb(db, currentId) && i < |db|
    ensures ValidDb(Without(db, i), currentId)
    ensures forall k :: 0 <= k < |db| - 1 ==> Without(db, i)[k].id != db[i].id
  {
  }

  /** Overwriting an item while keeping its id keeps the store valid. */
  lemma ReplaceKeepsValid(db: seq<Item>, currentId: int, i: nat, item: Item)
    requires ValidDb(db, currentId) && i < |db| && item.id == db[i].id
    ensures ValidDb(db[i := item], currentId)
  {
  }

  /** `list.remove(x)`: drops the first element equal to `x`. */
  function RemoveFirst<T(==)>(s: seq<T>, x: T): (r: seq<T>)
    requires x in s
    ensures |r| == |s| - 1
    ensures multiset(r) == multiset(s) - multiset{x}
  {
    assert s == [s[0]] + s[1..];
    if s[0] == x then s[1..] else [s[0]] + RemoveFirst(s[1..], x)
  }

  lemma RemoveFirstCons<T>(s: seq<T>, x: T)
    requires x in s && s[0] != x
    ensures x in s[1..]
    ensures RemoveFirst(s, x) == [s[0]] + RemoveFirst(s[1..], x)
  {
    assert s == [s[0]] + s[1..];
  }

  lemma WithoutCons<T>(s: seq<T>, i: nat)
    requires 0 < i < |s|
    ensures Without(s, i) == [s[0]] + Without(s[1..], i - 1)
  {
    var t := s[1..];
    assert s[..i] == [s[0]] + t[..i - 1];
    assert s[i + 1..] == t[i..];
    ConcatAssoc([s[0]], t[..i - 1], t[i..]);
  }

  /** When no earlier element equals the one at `i`, removing that value removes exactly position `i`. */
  lemma {:induction false} RemoveFirstAt<T>(s: seq<T>, i: nat)
    requires i < |s|
    requires forall j :: 0 <= j < i ==> s[j] != s[i]
    ensures RemoveFirst(s, s[i]) == Without(s, i)
  {
    if i == 0 {
      assert s[..0] + s[1..] == s[1..];
    } else {
      var t := s[1..];
      assert t[i - 1] == s[i];
      assert forall j :: 0 <= j < i - 1 ==> t[j] != t[i - 1] by {
        forall j | 0 <= j < i - 1 ensures t[j] != t[i - 1] { assert t[j] == s[j + 1]; }
      }
      assert s[0] != s[i];
      RemoveFirstCons(s, s[i]);
      WithoutCons(s, i);
      RemoveFirstAt(t, i - 1);
    }
  }

  /** The server state: the task list and the id counter. */
  class ItemStore {
    var db: seq<Item>
    var currentId: int

    ghost predicate Valid()
      reads this
    {
      ValidDb(db, currentId)
    }

    /** The state at start-up: no items, counter 0. */
    constructor ()
      ensures db == [] && currentId == 0
      ensures Valid()
    {
      db := [];
      currentId := 0;
    }

    /**
     * `create_item`: the counter goes up by one and the item is appended
     * under that id, whatever id the request carried; the id is new.
     */
    method CreateItem(item: Item) returns (newItem: Item)
      requires Valid()
      modifies this
      ensures Valid()
      ensures currentId == old(currentId) + 1
      ensures newItem == Item(Some(currentId), item.title, item.description, item.status)
      ensures db == old(db) + [newItem]
      ensures forall k :: 0 <= k < |old(db)| ==> old(db)[k].id != newItem.id
    {
      CreateKeepsValid(db, currentId, item);
      currentId := currentId + 1;
      newItem := Item(Some(currentId), item.title, item.description, item.status);
      db := db + [newItem];
    }

    /** `get_items`: the whole list, in insertion order. */
    method GetItems() returns (items: seq<Item>)
      ensures items == db
    {
      items := db;
    }

    /** `get_item_by_id`: the first item with the id, `None` for 404. */
    method GetItemById(itemId: int) returns (r: Option<Item>)
      ensures r.Some? <==> FirstWithId(db, itemId).Some?
      ensures r.Some? ==> r.value == db[FirstWithId(db, itemId).value] && r.value.id == Some(itemId)
    {
      var i := 0;
      while i < |db|
        invariant 0 <= i <= |db|
        invariant forall j :: 0 <= j < i ==> db[j].id != Some(itemId)
      {
        if db[i].id == Some(itemId) {
          return Some(db[i]);
        }
        i := i + 1;
      }
      return None;
    }

    /**
     * `delete_item`: removes the item with the id and keeps the others in
     * order; `false` (404) with nothing changed when there is none. The
     * counter is untouched, so the id is never issued again.
     */
    method DeleteItem(itemId: int) returns (deleted: bool)
      requires Valid()
      modifies this
      ensures Valid()
      ensures currentId == old(currentId)
      ensures deleted <==> FirstWithId(old(db), itemId).Some?
      ensures !deleted ==> db == old(db)
      ensures deleted ==> db == Without(old(db), FirstWithId(old(db), itemId).value)
      ensures forall k :: 0 <= k < |db| ==> db[k].id != Some(itemId)
    {
      var i := 0;
      while i < |db|
        invariant 0 <= i <= |db|
        invariant forall j :: 0 <= j < i ==> db[j].id != Some(itemId)
      {
        if db[i].id == Some(itemId) {
          assert forall j :: 0 <= j < i ==> db[j] != db[i];
          RemoveFirstAt(db, i);
          IdsUnique(db, currentId, i, itemId);
          RemoveKeepsValid(db, currentId, i);
          db := RemoveFirst(db, db[i]);
          return true;
        }
        i := i + 1;
      }
      return false;
    }

    /**
     * `update_item`: the item with the id is replaced in place by the
     * request's item carrying that id; `None` (404) with nothing changed
     * when there is none.
     */
    method UpdateItem(itemId: int, updatedItem: Item) returns (r: Option<Item>)
      requires Valid()
      modifies this
      ensures Valid()
      ensures currentId == old(currentId)
      ensures r.Some? <==> FirstWithId(old(db), itemId).Some?
      ensures r.None? ==> db == old(db)
      ensures r.Some? ==>
        && r.value == updatedItem.(id := Some(itemId))
        && db == old(db)[FirstWithId(old(db), itemId).value := r.value]
    {
      var index := 0;
      while index < |db|
        invariant 0 <= index <= |db|
        invariant forall j :: 0 <= j < index ==> db[j].id != Some(itemId)
      {
        if db[index].id == Some(itemId) {
          var stored := updatedItem.(id := Some(itemId));
          ReplaceKeepsValid(db, currentId, index, stored);
          db := db[index := stored];
          return Some(stored);
        }
        index := index + 1;
      }
      return None;
    }

    /**
     * `update_item_status`: only the status of the item with the id
     * changes; `None` (404) with nothing changed when there is none.
     */
    method UpdateItemStatus(itemId: int, newStatus: TaskStatus) returns (r: Option<Item>)
      requires Valid()
      modifies this
      ensures Valid()
      ensures currentId == old(currentId)
      ensures r.Some? <==> FirstWithId(old(db), itemId).Some?
      ensures r.None? ==> db == old(db)
      ensures r.Some? ==>
        var i := FirstWithId(old(db), itemId).value;
        && r.value == old(db)[i].(status := newStatus)
        && db == old(db)[i := r.value]
    {
      var i := 0;
      while i < |db|
        invariant 0 <= i <= |db|
        invariant forall j :: 0 <= j < i ==> db[j].id != Some(itemId)
      {
        if db[i].id == Some(itemId) {
          var changed := db[i].(status := newStatus);
          ReplaceKeepsValid(db, currentId, i, changed);
          db := db[i := changed];
          return Some(changed);
        }
        i := i + 1;
      }
      return None;
    }
  }

  /**
   * Creating, deleting and creating again: the second item gets a new id,
   * and the deleted id can no longer be found.
   */
  method DeletedIdNotReissued(first: Item, second: Item) returns (a: Item, b: Item, lookup: Option<Item>)
    ensures a.id.Some? && b.id.Some? && a.id != b.id
    ensures lookup.None?
  {
    var store := new ItemStore();
    a := store.CreateItem(first);
    var deleted := store.DeleteItem(a.id.value);
    b := store.CreateItem(second);
    lookup := store.GetItemById(a.id.value);
  }
}
