/** What waits to be told to a conversation, and the order in which it is told (internal/loop/message_queue.go). */
module Queues {
  import opened Lists
  import opened Messages

  /** An automated notice, or a message of the user's. */
  datatype Queued = SystemMessage(m: Message) | UserMessage(m: Message)

  function Systems(items: seq<Queued>): seq<Message> {
    if items == [] then []
    else Systems(items[..|items| - 1]) + if items[|items| - 1].SystemMessage? then [items[|items| - 1].m] else []
  }

  function Users(items: seq<Queued>): seq<Message> {
    if items == [] then []
    else Users(items[..|items| - 1]) + if items[|items| - 1].UserMessage? then [items[|items| - 1].m] else []
  }

  /** The messages themselves, in arrival order. */
  function Bare(items: seq<Queued>): (ms: seq<Message>)
    ensures |ms| == |items|
    ensures forall i :: 0 <= i < |items| ==> ms[i] == items[i].m
  {
    if items == [] then [] else Bare(items[..|items| - 1]) + [items[|items| - 1].m]
  }

  lemma QueuedSnoc(items: seq<Queued>, msg: Queued)
    ensures Systems(items + [msg]) == if msg.SystemMessage? then Systems(items) + [msg.m] else Systems(items)
    ensures Users(items + [msg]) == if msg.UserMessage? then Users(items) + [msg.m] else Users(items)
  {
    assert (items + [msg])[..|items|] == items;
  }

  lemma NoneQueued()
    ensures Systems([]) == [] && Users([]) == []
  {
  }

  /** How a drain delivers: what the system says ahead of what the user says, each in the order it came. */
  function Delivery(items: seq<Queued>): seq<Message> {
    Systems(items) + Users(items)
  }

  /** A delivery is the same messages, each as often as it was queued. */
  lemma {:induction false} DeliveryKeepsAll(items: seq<Queued>)
    ensures multiset(Delivery(items)) == multiset(Bare(items))
    ensures |Delivery(items)| == |items|
  {
    if items != [] {
      var init, last := items[..|items| - 1], items[|items| - 1];
      DeliveryKeepsAll(init);
    }
  }

  /** An order that a delivery follows: where each of its messages stood in the queue. */
  predicate Follows(items: seq<Queued>, order: seq<nat>) {
    && |order| == |items|
    && (forall i :: 0 <= i < |order| ==> order[i] < |items|)
    && (forall i, j :: 0 <= i < j < |order| ==> order[i] != order[j])
    && (forall i, j :: 0 <= i < j < |order| && items[order[i]].SystemMessage? == items[order[j]].SystemMessage? ==> order[i] < order[j])
    && (forall i, j :: 0 <= i < j < |order| && items[order[j]].SystemMessage? ==> items[order[i]].SystemMessage?)
  }

  /** The places of the system messages, or of the others, in order. */
  function Places(items: seq<Queued>, system: bool): (at: seq<nat>)
    ensures forall i :: 0 <= i < |at| ==> at[i] < |items| && items[at[i]].SystemMessage? == system
    ensures forall i, j :: 0 <= i < j < |at| ==> at[i] < at[j]
  {
    if items == [] then []
    else
      Places(items[..|items| - 1], system)
      + if items[|items| - 1].SystemMessage? == system then [|items| - 1] else []
  }

  lemma {:induction false} PlacesSnoc(init: seq<Queued>, last: Queued)
    ensures Places(init + [last], true) == if last.SystemMessage? then Places(init, true) + [|init|] else Places(init, true)
    ensures Places(init + [last], false) == if last.UserMessage? then Places(init, false) + [|init|] else Places(init, false)
  {
    assert (init + [last])[..|init|] == init;
  }

  lemma {:induction false} PlacesSplit(items: seq<Queued>)
    ensures |Places(items, true)| == |Systems(items)|
    ensures forall i :: 0 <= i < |Systems(items)| ==> Systems(items)[i] == items[Places(items, true)[i]].m
    ensures |Places(items, false)| == |Users(items)|
    ensures forall i :: 0 <= i < |Users(items)| ==> Users(items)[i] == items[Places(items, false)[i]].m
  {
    if items == [] {
      NoneQueued();
    } else {
      hide Places, Systems, Users;
      var init, last := items[..|items| - 1], items[|items| - 1];
      assert items == init + [last];
      PlacesSplit(init);
      QueuedSnoc(init, last);
      PlacesSnoc(init, last);
    }
  }

  /** A delivery takes every queued message from its own place: the system's first, each class in arrival order. */
  lemma DeliveryOrder(items: seq<Queued>)
    ensures var order := Places(items, true) + Places(items, false);
            && Follows(items, order)
            && |Delivery(items)| == |order|
            && forall i :: 0 <= i < |order| ==> Delivery(items)[i] == items[order[i]].m
  {
    hide Places, Systems, Users, Follows;
    PlacesSplit(items);
    DeliveryKeepsAll(items);
    PlacesFollow(items, Places(items, true), Places(items, false));
  }

  /** Places of one class each, in order, and as many as there are messages. */
  lemma PlacesFollow(items: seq<Queued>, system: seq<nat>, user: seq<nat>)
    requires |system| + |user| == |items|
    requires forall i :: 0 <= i < |system| ==> system[i] < |items| && items[system[i]].SystemMessage?
    requires forall i :: 0 <= i < |user| ==> user[i] < |items| && !items[user[i]].SystemMessage?
    requires forall i, j :: 0 <= i < j < |system| ==> system[i] < system[j]
    requires forall i, j :: 0 <= i < j < |user| ==> user[i] < user[j]
    ensures Follows(items, system + user)
  {
    var order := system + user;
    forall i, j | 0 <= i < j < |order|
      ensures order[i] < |items| && order[j] < |items| && order[i] != order[j]
      ensures items[order[i]].SystemMessage? == items[order[j]].SystemMessage? ==> order[i] < order[j]
      ensures items[order[j]].SystemMessage? ==> items[order[i]].SystemMessage?
    {
      var a := if i < |system| then system[i] else user[i - |system|];
      var b := if j < |system| then system[j] else user[j - |system|];
      assert order[i] == a && order[j] == b;
    }
  }

  /** A thread-safe first-in first-out queue; each method is one locked section. */
  class MessageQueue {
    var items: seq<Queued>
    var closed: bool
    /** Every message the queue ever took, and every one a drain or the close took out again. */
    ghost var accepted: seq<Queued>
    ghost var taken: seq<Queued>

    ghost predicate Valid()
      reads this
    {
      accepted == taken + items
    }

    constructor ()
      ensures Valid() && items == [] && accepted == [] && !closed
    {
      items, closed, accepted, taken := [], false, [], [];
    }

    method Queue(msg: Queued) returns (ok: bool)
      requires Valid()
      modifies this`items, this`accepted
      ensures Valid() && ok == !closed
      ensures items == old(items) + if ok then [msg] else []
      ensures accepted == old(accepted) + if ok then [msg] else []
    {
      if closed {
        return false;
      }
      items := items + [msg];
      accepted := accepted + [msg];
      return true;
    }

    method Drain() returns (out: seq<Message>)
      requires Valid()
      modifies this`items, this`taken
      ensures Valid() && items == [] && taken == old(accepted)
      ensures out == Delivery(old(items))
    {
      out := TakeAll();
    }

    method Close() returns (out: seq<Message>)
      requires Valid()
      modifies this`items, this`taken, this`closed
      ensures Valid() && closed && items == [] && taken == old(accepted)
      ensures out == Delivery(old(items))
    {
      closed := true;
      out := TakeAll();
    }

    /** Takes every value out and sorts it by class, keeping arrival order within each. */
    method TakeAll() returns (out: seq<Message>)
      requires Valid()
      modifies this`items, this`taken
      ensures Valid() && items == [] && taken == old(accepted)
      ensures out == Delivery(old(items))
    {
      hide Systems, Users;
      if |items| == 0 {
        NoneQueued();
        return [];
      }
      NoneQueued();
      var system: seq<Message>, user: seq<Message> := [], [];
      ghost var n: nat := 0;
      while |items| > 0
        invariant Valid()
        invariant n + |items| == |old(items)| && items == old(items)[n..]
        invariant taken == old(taken) + old(items)[..n]
        invariant system == Systems(old(items)[..n]) && user == Users(old(items)[..n])
        decreases |items|
      {
        var msg := items[0];
        assert old(items)[..n + 1] == old(items)[..n] + [msg];
        QueuedSnoc(old(items)[..n], msg);
        items := items[1..];
        taken := taken + [msg];
        n := n + 1;
        if msg.SystemMessage? {
          system := system + [msg.m];
        } else {
          user := user + [msg.m];
        }
      }
      assert old(items)[..n] == old(items);
      return system + user;
    }

    predicate Pending()
      reads this
    {
      |items| > 0
    }
  }
}
