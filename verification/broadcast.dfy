/** Fan-out of one server message to every player of a list: each player's
    outbound channel receives the message once, in list order. */
module Broadcast {
  import opened Model

  /** The deliveries a broadcast of `m` to `ids` makes, in list order. */
  function Fanout(ids: seq<Id>, m: Message): (ds: seq<Delivery>)
    ensures |ds| == |ids|
    ensures forall i :: 0 <= i < |ids| ==> ds[i] == Delivery(ids[i], m)
  {
    seq(|ids|, i requires 0 <= i < |ids| => Delivery(ids[i], m))
  }

  /** The deliveries of several broadcasts made one after the other. */
  function Deliveries(ids: seq<Id>, events: seq<Message>): seq<Delivery>
  {
    if events == [] then [] else Fanout(ids, events[0]) + Deliveries(ids, events[1..])
  }

  /** Broadcasting two batches one after the other delivers their
      concatenation. */
  lemma {:induction false} DeliveriesAppend(ids: seq<Id>, a: seq<Message>, b: seq<Message>)
    ensures Deliveries(ids, a + b) == Deliveries(ids, a) + Deliveries(ids, b)
  {
    if a == [] {
      assert a + b == b;
    } else {
      assert (a + b)[0] == a[0];
      assert (a + b)[1..] == a[1..] + b;
      DeliveriesAppend(ids, a[1..], b);
    }
  }

  /** One broadcast followed by a batch. */
  lemma DeliveriesCons(ids: seq<Id>, m: Message, rest: seq<Message>)
    ensures Deliveries(ids, [m] + rest) == Fanout(ids, m) + Deliveries(ids, rest)
  {
    assert ([m] + rest)[0] == m;
    assert ([m] + rest)[1..] == rest;
  }

  /** The messages put on the channel of player `p`, in order. */
  function Inbox(ds: seq<Delivery>, p: Id): (ms: seq<Message>)
    ensures |ms| <= |ds|
  {
    if ds == [] then []
    else (if ds[0].to == p then [ds[0].message] else []) + Inbox(ds[1..], p)
  }

  /** Number of times `p` occurs in `ids`. */
  function Occurrences(ids: seq<Id>, p: Id): nat
  {
    if ids == [] then 0 else (if ids[0] == p then 1 else 0) + Occurrences(ids[1..], p)
  }

  lemma {:induction false} InboxAppend(a: seq<Delivery>, b: seq<Delivery>, p: Id)
    ensures Inbox(a + b, p) == Inbox(a, p) + Inbox(b, p)
  {
    if a == [] {
      assert a + b == b;
    } else {
      var head := if a[0].to == p then [a[0].message] else [];
      assert (a + b)[0] == a[0];
      assert (a + b)[1..] == a[1..] + b;
      InboxAppend(a[1..], b, p);
      calc {
        Inbox(a + b, p);
        head + Inbox(a[1..] + b, p);
        head + (Inbox(a[1..], p) + Inbox(b, p));
        (head + Inbox(a[1..], p)) + Inbox(b, p);
        Inbox(a, p) + Inbox(b, p);
      }
    }
  }

  /** A player listed once receives exactly one copy of a broadcast; one not
      listed receives none. */
  lemma {:induction false} FanoutInbox(ids: seq<Id>, m: Message, p: Id)
    requires Occurrences(ids, p) <= 1
    ensures Inbox(Fanout(ids, m), p) == if Occurrences(ids, p) == 1 then [m] else []
  {
    if ids != [] {
      var ds := Fanout(ids, m);
      assert ds[1..] == Fanout(ids[1..], m);
      FanoutInbox(ids[1..], m, p);
    }
  }

  /** A player listed once receives every broadcast message exactly once and
      in the order they were broadcast. */
  lemma {:induction false} DeliveriesInbox(ids: seq<Id>, events: seq<Message>, p: Id)
    requires Occurrences(ids, p) == 1
    ensures Inbox(Deliveries(ids, events), p) == events
  {
    if events != [] {
      InboxAppend(Fanout(ids, events[0]), Deliveries(ids, events[1..]), p);
      FanoutInbox(ids, events[0], p);
      DeliveriesInbox(ids, events[1..], p);
      assert [events[0]] + events[1..] == events;
    }
  }

  /** send_message: the message goes, unchanged, onto the player's channel. */
  method SendMessage(player: Player, msg: Message) returns (d: Delivery)
    ensures d.to == player.id && d.message == msg
  {
    d := Delivery(player.id, msg);
  }

  /** send_to_all_players: one delivery of the same message per player, in
      list order. */
  method SendToAllPlayers(players: seq<Player>, msg: Message) returns (sent: seq<Delivery>)
    ensures |sent| == |players|
    ensures forall i :: 0 <= i < |players| ==> sent[i].to == players[i].id && sent[i].message == msg
    ensures sent == Fanout(Ids(players), msg)
  {
    sent := [];
    for i := 0 to |players|
      invariant |sent| == i
      invariant forall k :: 0 <= k < i ==> sent[k] == Delivery(players[k].id, msg)
    {
      var d := SendMessage(players[i], msg);
      sent := sent + [d];
    }
  }
}
