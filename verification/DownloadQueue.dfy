/** The queue of download records: fresh ids, and the states a record may move between. */
module DownloadQueue {
  import opened Bytes
  import opened Wrappers
  import Decimal

  datatype State = Queued | Running | Paused | Completed | Failed | Cancelled | Verifying | Held | Blocked

  datatype Request = Request(url: Text, referrer: Text, suggested: Option<Text>, privateSession: bool, scheduledStart: Option<int>)

  datatype Item = Item(id: Text, request: Request, state: State, segmentLimit: nat, resumable: bool)

  function FindItem(items: seq<Item>, id: Text): (i: nat)
    ensures i <= |items|
    ensures i < |items| ==> items[i].id == id
    ensures forall j | 0 <= j < i :: items[j].id != id
  {
    if items == [] || items[0].id == id then 0 else 1 + FindItem(items[1..], id)
  }

  predicate HasItem(items: seq<Item>, id: Text) {
    FindItem(items, id) < |items|
  }

  function WithState(items: seq<Item>, id: Text, state: State): seq<Item> {
    var i := FindItem(items, id);
    if i < |items| then items[i := items[i].(state := state)] else items
  }

  predicate MayMove(items: seq<Item>, id: Text, allowed: set<State>) {
    var i := FindItem(items, id);
    i < |items| && items[i].state in allowed
  }

  function IdOf(n: nat): Text {
    Ascii("download-") + Decimal.Print(n)
  }

  lemma IdsDiffer(m: nat, n: nat)
    requires m != n
    ensures IdOf(m) != IdOf(n)
  {
    if IdOf(m) == IdOf(n) {
      assert Decimal.Print(m) == IdOf(m)[|Ascii("download-")|..] == Decimal.Print(n);
      Decimal.PrintIsInjective(m, n);
    }
  }

  /** The counter value k steps on, in machine arithmetic. */
  function Later(n: u64, k: nat): u64 {
    (n as int + k) % U64_LIMIT
  }

  lemma LaterSteps(n: u64, k: nat)
    ensures Later(n, 0) == n && Later(Later(n, k), 1) == Later(n, k + 1)
  {
  }

  ghost function Ids(items: seq<Item>): set<Text> {
    set i | 0 <= i < |items| :: items[i].id
  }

  lemma {:induction false} IdsCount(items: seq<Item>)
    ensures |Ids(items)| <= |items|
    ensures forall id :: id in Ids(items) <==> HasItem(items, id)
  {
    if items != [] {
      var rest := items[..|items| - 1];
      IdsCount(rest);
      assert forall i | 0 <= i < |items| - 1 :: items[i] == rest[i];
      assert Ids(items) == Ids(rest) + {items[|items| - 1].id};
    }
    forall id
      ensures id in Ids(items) <==> HasItem(items, id)
    {
    }
  }

  ghost predicate DistinctItems(items: seq<Item>) {
    forall i, j | 0 <= i < j < |items| :: items[i].id != items[j].id
  }

  /** The ids that the counter gave first are all of records, and are as many as were tried. */
  ghost predicate AllTaken(items: seq<Item>, first: u64, skipped: nat, tried: set<Text>) {
    && skipped == |tried|
    && (forall k | 0 <= k < skipped :: HasItem(items, IdOf(Later(first, k))))
    && (forall t | t in tried :: HasItem(items, t) && exists k | 0 <= k < skipped :: t == IdOf(Later(first, k)))
  }

  lemma NoneTried(items: seq<Item>, first: u64)
    ensures AllTaken(items, first, 0, {})
  {
  }

  lemma TakenBefore(items: seq<Item>, first: u64, skipped: nat, tried: set<Text>)
    requires AllTaken(items, first, skipped, tried)
    ensures forall k | 0 <= k < skipped :: HasItem(items, IdOf(Later(first, k)))
  {
    hide HasItem, IdOf, Later;
  }

  /** One more id that is taken is another record's, so there are no more of them than records. */
  lemma OneMoreTaken(items: seq<Item>, first: u64, skipped: nat, tried: set<Text>)
    requires skipped <= |items| < U64_LIMIT - 1 && AllTaken(items, first, skipped, tried) && HasItem(items, IdOf(Later(first, skipped)))
    ensures AllTaken(items, first, skipped + 1, tried + {IdOf(Later(first, skipped))}) && skipped + 1 <= |items|
  {
    hide HasItem, IdOf, Later, Ids;
    IdsCount(items);
    TriedIsNew(first, skipped, tried);
    SubsetCount(tried + {IdOf(Later(first, skipped))}, Ids(items));
  }

  class DownloadManager {
    var items: seq<Item>
    var nextId: u64

    constructor ()
      ensures items == [] && nextId == 1
    {
      items, nextId := [], 1;
    }

    method Contains(id: Text) returns (found: bool)
      ensures found == HasItem(items, id)
    {
      var i := 0;
      while i < |items|
        invariant 0 <= i <= |items|
        invariant forall j | 0 <= j < i :: items[j].id != id
      {
        if items[i].id == id {
          return true;
        }
        i := i + 1;
      }
      return false;
    }

    method NextId() returns (id: Text)
      modifies this`nextId
      ensures id == IdOf(old(nextId)) && nextId == Later(old(nextId), 1)
    {
      id := IdOf(nextId);
      nextId := (nextId as int + 1) % U64_LIMIT;
    }

    /** The id given is the first of the counter's that no record has; the counter is past it afterwards. */
    method Enqueue(request: Request) returns (id: Option<Text>, ghost skipped: nat)
      requires |items| + 1 < U64_LIMIT
      modifies this
      ensures id.Some? <==> request.url != []
      ensures id.None? ==> items == old(items) && nextId == old(nextId)
      ensures id.Some? ==>
                && id.value == IdOf(Later(old(nextId), skipped)) && !HasItem(old(items), id.value)
                && (forall k | 0 <= k < skipped :: HasItem(old(items), IdOf(Later(old(nextId), k))))
                && items == old(items) + [Item(id.value, request, Queued, 16, true)]
                && nextId == Later(old(nextId), skipped + 1)
      ensures DistinctItems(old(items)) ==> DistinctItems(items)
    {
      hide IdOf, FindItem, Later, Ids, DistinctItems, AllTaken, HasItem;
      LaterSteps(nextId, 0);
      NoneTried(items, nextId);
      skipped := 0;
      if request.url == [] {
        return None, 0;
      }
      var text := NextId();
      var taken := Contains(text);
      ghost var tried: set<Text> := {};
      while taken
        invariant items == old(items)
        invariant text == IdOf(Later(old(nextId), skipped)) && nextId == Later(old(nextId), skipped + 1)
        invariant taken == HasItem(items, text) && skipped <= |items|
        invariant AllTaken(items, old(nextId), skipped, tried)
        decreases |items| + 1 - skipped
      {
        LaterSteps(old(nextId), skipped + 1);
        OneMoreTaken(items, old(nextId), skipped, tried);
        tried := tried + {text};
        text := NextId();
        taken := Contains(text);
        skipped := skipped + 1;
      }
      TakenBefore(items, old(nextId), skipped, tried);
      items := items + [Item(text, request, Queued, 16, true)];
      id := Some(text);
      NewIsDistinct(old(items), items[|items| - 1]);
    }

    method Find(id: Text) returns (item: Option<Item>)
      ensures item == if HasItem(items, id) then Some(items[FindItem(items, id)]) else None
    {
      var i := 0;
      while i < |items|
        invariant 0 <= i <= |items|
        invariant forall j | 0 <= j < i :: items[j].id != id
      {
        if items[i].id == id {
          return Some(items[i]);
        }
        i := i + 1;
      }
      return None;
    }

    method SetState(id: Text, state: State) returns (ok: bool)
      modifies this`items
      ensures ok == HasItem(old(items), id) && items == WithState(old(items), id, state)
    {
      var i := 0;
      while i < |items|
        invariant 0 <= i <= |items| && items == old(items)
        invariant forall j | 0 <= j < i :: items[j].id != id
      {
        if items[i].id == id {
          items := items[i := items[i].(state := state)];
          return true;
        }
        i := i + 1;
      }
      return false;
    }

    method Transition(id: Text, allowed: set<State>, next: State) returns (ok: bool)
      modifies this`items
      ensures ok == MayMove(old(items), id, allowed)
      ensures items == if ok then WithState(old(items), id, next) else old(items)
    {
      var i := 0;
      while i < |items|
        invariant 0 <= i <= |items| && items == old(items)
        invariant forall j | 0 <= j < i :: items[j].id != id
      {
        if items[i].id == id {
          if items[i].state in allowed {
            items := items[i := items[i].(state := next)];
            return true;
          }
          return false;
        }
        i := i + 1;
      }
      return false;
    }

    /** A record read back after a restart: what was in flight is queued again. */
    method Restore(item: Item) returns (ok: bool)
      modifies this`items
      ensures ok == CanRestore(old(items), item)
      ensures items == if ok then old(items) + [RestoredItem(item)] else old(items)
      ensures DistinctItems(old(items)) ==> DistinctItems(items)
    {
      if item.id == [] || item.request.url == [] {
        return false;
      }
      var found := Contains(item.id);
      if found {
        return false;
      }
      NewIsDistinct(items, RestoredItem(item));
      items := items + [RestoredItem(item)];
      return true;
    }
  }

  predicate CanRestore(items: seq<Item>, item: Item) {
    item.id != [] && item.request.url != [] && !HasItem(items, item.id)
  }

  function RestoredItem(item: Item): (restored: Item)
    ensures restored.id == item.id && restored.request == item.request
  {
    var limit := if item.segmentLimit > 16 then 16 else if item.segmentLimit < 1 then 1 else item.segmentLimit;
    item.(segmentLimit := limit, state := if item.state == Running || item.state == Verifying then Queued else item.state)
  }

  lemma NewIsDistinct(items: seq<Item>, item: Item)
    requires !HasItem(items, item.id)
    ensures DistinctItems(items) ==> DistinctItems(items + [item])
  {
  }

  lemma AppendedFind(items: seq<Item>, item: Item, id: Text)
    requires !HasItem(items, item.id)
    ensures FindItem(items + [item], id) == if id == item.id then |items| else if HasItem(items, id) then FindItem(items, id) else |items| + 1
  {
    var after := items + [item];
    assert forall j | 0 <= j < |items| :: after[j] == items[j];
    assert after[|items|] == item;
    var i := FindItem(after, id);
    assert i < |items| ==> items[i].id == id;
  }

  lemma TriedIsNew(start: u64, skipped: nat, tried: set<Text>)
    requires skipped < U64_LIMIT
    requires forall t | t in tried :: exists k | 0 <= k < skipped :: t == IdOf(Later(start, k))
    ensures IdOf(Later(start, skipped)) !in tried
  {
    hide IdOf;
    forall k | 0 <= k < skipped
      ensures IdOf(Later(start, k)) != IdOf(Later(start, skipped))
    {
      IdsDiffer(Later(start, k), Later(start, skipped));
    }
  }

  lemma SubsetCount(a: set<Text>, b: set<Text>)
    requires a <= b
    ensures |a| <= |b|
  {
    if a != {} {
      var x :| x in a;
      SubsetCount(a - {x}, b - {x});
    }
  }
}
