/** The capped, ordered queue of a room: every operation edits the item list in place. */
module VideoQueue {
  import opened Util
  import opened Video
  import StableSort

  const MAX_QUEUE_ITEMS := 200

  datatype QueueError = QueueFull | OutOfBounds | VideoNotFound

  type Votes = map<string, set<string>>

  // ---------------------------------------------------------------- list functions

  function RemoveAt(items: seq<Item>, i: nat): seq<Item>
    requires i < |items|
  {
    items[..i] + items[i + 1..]
  }

  function InsertAt(items: seq<Item>, item: Item, i: nat): seq<Item>
    requires i <= |items|
  {
    items[..i] + [item] + items[i..]
  }

  /** The first item of a video, or -1. */
  function FindIndex(items: seq<Item>, video: VideoId): (i: int)
    ensures -1 <= i < |items|
    ensures i >= 0 ==> items[i].video == video && forall k :: 0 <= k < i ==> items[k].video != video
    ensures i == -1 ==> forall k :: 0 <= k < |items| ==> items[k].video != video
    decreases |items|
  {
    if items == [] then -1
    else if items[0].video == video then 0
    else
      var i := FindIndex(items[1..], video);
      if i < 0 then -1 else i + 1
  }

  function VotesFor(votes: Votes, item: Item): nat {
    if item.VoteKey() in votes then |votes[item.VoteKey()]| else 0
  }

  /** Items keyed for a descending order by votes. */
  function ByVotes(items: seq<Item>, votes: Votes): seq<StableSort.Keyed<Item>> {
    seq(|items|, i requires 0 <= i < |items| => StableSort.Keyed(-(VotesFor(votes, items[i]) as real), items[i]))
  }

  function OrderedByVotes(items: seq<Item>, votes: Votes): seq<Item> {
    StableSort.Items(StableSort.Sort(ByVotes(items, votes)))
  }

  // ---------------------------------------------------------------- facts about the list functions

  /** Evicting and inserting again at the reported index restores the exact queue. */
  lemma InsertUndoesRemove(items: seq<Item>, i: nat)
    requires i < |items|
    ensures InsertAt(RemoveAt(items, i), items[i], i) == items
  {
  }

  lemma RemoveUndoesInsert(items: seq<Item>, item: Item, i: nat)
    requires i <= |items|
    ensures RemoveAt(InsertAt(items, item, i), i) == items && InsertAt(items, item, i)[i] == item
  {
  }

  ghost function Moved(items: seq<Item>, fromIdx: nat, toIdx: nat): seq<Item>
    requires fromIdx < |items| && toIdx < |items|
  {
    InsertAt(RemoveAt(items, fromIdx), items[fromIdx], toIdx)
  }

  /** A move puts one item where it was asked to go and keeps the order of the others; the opposite move undoes it. */
  lemma MoveIsReversible(items: seq<Item>, fromIdx: nat, toIdx: nat)
    requires fromIdx < |items| && toIdx < |items|
    ensures |Moved(items, fromIdx, toIdx)| == |items| && Moved(items, fromIdx, toIdx)[toIdx] == items[fromIdx]
    ensures RemoveAt(Moved(items, fromIdx, toIdx), toIdx) == RemoveAt(items, fromIdx)
    ensures Moved(Moved(items, fromIdx, toIdx), toIdx, fromIdx) == items
    ensures multiset(Moved(items, fromIdx, toIdx)) == multiset(items)
  {
    var rest := RemoveAt(items, fromIdx);
    RemoveUndoesInsert(rest, items[fromIdx], toIdx);
    InsertUndoesRemove(items, fromIdx);
    var moved := Moved(items, fromIdx, toIdx);
    MultisetSplit(items, fromIdx);
    MultisetSplit(moved, toIdx);
    assert moved[..toIdx] + moved[toIdx + 1..] == rest;
  }

  /** Ordering by votes permutes the queue, most votes first. */
  lemma OrderedByVotesIsOrdered(items: seq<Item>, votes: Votes)
    ensures multiset(OrderedByVotes(items, votes)) == multiset(items)
    ensures forall i, j :: 0 <= i <= j < |items| ==>
              |OrderedByVotes(items, votes)| == |items|
              && VotesFor(votes, OrderedByVotes(items, votes)[i]) >= VotesFor(votes, OrderedByVotes(items, votes)[j])
  {
    KeyedItemsBack(items, votes);
    SortedKeys(items, votes);
    StableSort.SortIsStable(ByVotes(items, votes), 0.0);
    StableSort.SortItems(ByVotes(items, votes));
  }

  /** The items with a given number of votes, in order. */
  ghost function WithVotes(items: seq<Item>, votes: Votes, n: nat): seq<Item> {
    if items == [] then []
    else (if VotesFor(votes, items[0]) == n then [items[0]] else []) + WithVotes(items[1..], votes, n)
  }

  lemma {:induction false} KeyIsVotes(xs: seq<StableSort.Keyed<Item>>, votes: Votes, n: nat)
    requires forall i :: 0 <= i < |xs| ==> xs[i].key == -(VotesFor(votes, xs[i].item) as real)
    ensures StableSort.OfKey(xs, -(n as real)) == WithVotes(StableSort.Items(xs), votes, n)
  {
    if xs != [] {
      KeyIsVotes(xs[1..], votes, n);
      assert StableSort.Items(xs)[1..] == StableSort.Items(xs[1..]);
    }
  }

  lemma KeyedItemsBack(items: seq<Item>, votes: Votes)
    ensures StableSort.Items(ByVotes(items, votes)) == items
    ensures multiset(StableSort.Sort(ByVotes(items, votes))) == multiset(ByVotes(items, votes))
  {
    StableSort.SortIsStable(ByVotes(items, votes), 0.0);
  }

  lemma SortedKeys(items: seq<Item>, votes: Votes)
    ensures var sorted := StableSort.Sort(ByVotes(items, votes));
            forall i :: 0 <= i < |sorted| ==> sorted[i].key == -(VotesFor(votes, sorted[i].item) as real)
  {
    var sorted := StableSort.Sort(ByVotes(items, votes));
    KeyedItemsBack(items, votes);
    forall i | 0 <= i < |sorted|
      ensures sorted[i].key == -(VotesFor(votes, sorted[i].item) as real)
    {
      assert sorted[i] in multiset(ByVotes(items, votes));
    }
  }

  /** Items with equally many votes stay in the order they were queued in. */
  lemma TiesKeepOrder(items: seq<Item>, votes: Votes, n: nat)
    ensures WithVotes(OrderedByVotes(items, votes), votes, n) == WithVotes(items, votes, n)
  {
    KeyedItemsBack(items, votes);
    SortedKeys(items, votes);
    StableSort.SortIsStable(ByVotes(items, votes), -(n as real));
    KeyIsVotes(ByVotes(items, votes), votes, n);
    KeyIsVotes(StableSort.Sort(ByVotes(items, votes)), votes, n);
  }

  /** A queue whose votes are in order already keeps its order. */
  lemma EqualVotesKeepOrder(items: seq<Item>, votes: Votes)
    requires forall i, j :: 0 <= i <= j < |items| ==> VotesFor(votes, items[i]) >= VotesFor(votes, items[j])
    ensures OrderedByVotes(items, votes) == items
  {
    StableSort.SortedStays(ByVotes(items, votes));
  }

  // ---------------------------------------------------------------- the mutable queue

  class VideoQueue {
    var items: seq<Item>
    var dirty: bool

    constructor (items: seq<Item>)
      ensures this.items == items && !dirty
    {
      this.items, dirty := items, false;
    }

    method Enqueue(videos: seq<Item>) returns (r: Result<(), QueueError>)
      modifies this
      ensures r == if videos != [] && |old(items)| + |videos| > MAX_QUEUE_ITEMS then Err(QueueFull) else Ok(())
      ensures items == if r.Ok? then old(items) + videos else old(items)
      ensures dirty == (old(dirty) || (r.Ok? && videos != []))
    {
      if |videos| == 0 {
        return Ok(());
      }
      if |items| + |videos| > MAX_QUEUE_ITEMS {
        return Err(QueueFull);
      }
      items, dirty := items + videos, true;
      return Ok(());
    }

    /** Loop playback re-enqueues without the cap: the next dequeue restores it. */
    method EnqueueOverflow(videos: seq<Item>)
      modifies this
      ensures items == old(items) + videos && dirty == (old(dirty) || videos != [])
    {
      if |videos| != 0 {
        items, dirty := items + videos, true;
      }
    }

    method Dequeue() returns (item: Option<Item>)
      modifies this
      ensures old(items) == [] ==> item == None && items == []
      ensures old(items) != [] ==> item.Some? && old(items) == [item.value] + items
      ensures dirty
    {
      if items == [] {
        item := None;
      } else {
        item := Some(items[0]);
        items := items[1..];
      }
      dirty := true;
    }

    method PushTop(videos: seq<Item>) returns (r: Result<(), QueueError>)
      modifies this
      ensures r == if videos != [] && |old(items)| + |videos| > MAX_QUEUE_ITEMS then Err(QueueFull) else Ok(())
      ensures items == if r.Ok? then videos + old(items) else old(items)
      ensures dirty == (old(dirty) || (r.Ok? && videos != []))
    {
      if |videos| == 0 {
        return Ok(());
      }
      if |items| + |videos| > MAX_QUEUE_ITEMS {
        return Err(QueueFull);
      }
      items, dirty := videos + items, true;
      return Ok(());
    }

    method Insert(video: Item, index: int) returns (r: Result<(), QueueError>)
      modifies this
      ensures r == if index < 0 || index > |old(items)| then Err(OutOfBounds)
                   else if |old(items)| + 1 > MAX_QUEUE_ITEMS then Err(QueueFull) else Ok(())
      ensures items == if r.Ok? then InsertAt(old(items), video, index) else old(items)
      ensures dirty == (old(dirty) || r.Ok?)
    {
      if index < 0 || index > |items| {
        return Err(OutOfBounds);
      }
      if |items| + 1 > MAX_QUEUE_ITEMS {
        return Err(QueueFull);
      }
      var newItems := items[..index];
      items := items[index..];
      newItems := newItems + [video];
      newItems := newItems + items;
      items, dirty := newItems, true;
      return Ok(());
    }

    method Move(fromIdx: int, toIdx: int) returns (r: Result<(), QueueError>)
      modifies this
      ensures r == if fromIdx == toIdx || (0 <= fromIdx < |old(items)| && 0 <= toIdx < |old(items)|)
                   then Ok(()) else Err(OutOfBounds)
      ensures items == if r.Ok? && fromIdx != toIdx then Moved(old(items), fromIdx, toIdx) else old(items)
      ensures dirty == (old(dirty) || (r.Ok? && fromIdx != toIdx))
    {
      if fromIdx == toIdx {
        return Ok(());
      }
      if fromIdx < 0 || fromIdx >= |items| || toIdx < 0 || toIdx >= |items| {
        return Err(OutOfBounds);
      }
      var item := items[fromIdx];
      items := items[..fromIdx] + items[fromIdx + 1..];
      items := items[..toIdx] + [item] + items[toIdx..];
      dirty := true;
      return Ok(());
    }

    predicate Contains(video: VideoId): (contained: bool)
      reads this
      ensures contained <==> exists k :: 0 <= k < |items| && items[k].video == video
    {
      FindIndex(items, video) >= 0
    }

    /** Removes a video and reports where it was, so that an undo can put it back. */
    method Evict(video: VideoId) returns (r: Result<(nat, Item), QueueError>)
      modifies this
      ensures r.Ok? <==> exists k :: 0 <= k < |old(items)| && old(items)[k].video == video
      ensures r.Err? ==> r.error == VideoNotFound && items == old(items) && dirty == old(dirty)
      ensures r.Ok? ==> r.value.1.video == video && dirty
                        && r.value.0 <= |items| && InsertAt(items, r.value.1, r.value.0) == old(items)
                        && forall k :: 0 <= k < r.value.0 ==> items[k].video != video
    {
      var matchIdx := FindIndex(items, video);
      if matchIdx < 0 {
        return Err(VideoNotFound);
      }
      var removed := items[matchIdx];
      InsertUndoesRemove(items, matchIdx);
      items := items[..matchIdx] + items[matchIdx + 1..];
      dirty := true;
      return Ok((matchIdx, removed));
    }

    /** Orders by votes and reports a change only when the order actually changed. */
    method OrderByVotes(votes: Votes)
      modifies this
      ensures items == OrderedByVotes(old(items), votes)
      ensures dirty == (old(dirty) || items != old(items))
    {
      var oldOrder := items;
      items := OrderedByVotes(items, votes);
      if items == [] {
        OrderedByVotesIsOrdered(oldOrder, votes);
        assert |multiset(oldOrder)| == 0;
      }
      if |items| > 0 && items != oldOrder {
        dirty := true;
      }
    }
  }
}
