/** The publisher as the proxy runs it: an object whose loop updates its subscriptions and
    fills the subscribed channels in place. */
module Publisher {
  import PubSub

  class Channel<T> {
    var received: seq<T>

    constructor ()
      ensures received == []
    {
      received := [];
    }
  }

  class Publisher<T> {
    var subscriptions: set<Channel<T>>
    var pub: seq<T>
    var closed: bool
    var running: bool

    /** The publisher together with the channels `all`, as a value. */
    ghost function View(all: set<Channel<T>>): PubSub.State<T, Channel<T>>
      reads this, all
    {
      PubSub.State(pub, subscriptions, map c | c in all :: c.received, closed, running)
    }

    constructor (ghost all: set<Channel<T>>)
      ensures View(all) == PubSub.Fresh(map c | c in all :: c.received)
    {
      subscriptions, pub := {}, [];
      closed, running := false, true;
    }

    method Publish(data: T, ghost all: set<Channel<T>>)
      modifies `pub
      ensures View(all) == PubSub.Step(old(View(all)), PubSub.Publish(data))
    {
      if !closed {
        pub := pub + [data];
      }
    }

    method Subscribe(ch: Channel<T>, ghost all: set<Channel<T>>)
      modifies `subscriptions
      ensures View(all) == PubSub.Step(old(View(all)), PubSub.Subscribe(ch))
    {
      if !closed {
        subscriptions := subscriptions + {ch};
      }
    }

    method Unsubscribe(ch: Channel<T>, ghost all: set<Channel<T>>)
      modifies `subscriptions
      ensures View(all) == PubSub.Step(old(View(all)), PubSub.Unsubscribe(ch))
    {
      if !closed {
        subscriptions := subscriptions - {ch};
      }
    }

    method Close(ghost all: set<Channel<T>>)
      requires !closed
      modifies `closed
      ensures View(all) == PubSub.Step(old(View(all)), PubSub.Close)
    {
      closed := true;
    }

    /** The loop sees the stop and ends. */
    method Exit(ghost all: set<Channel<T>>)
      requires running && closed
      modifies `running
      ensures View(all) == PubSub.Step(old(View(all)), PubSub.Exit)
    {
      running := false;
    }

    /** Sends one item to each subscription, in any order. */
    method Send(data: T)
      modifies subscriptions
      ensures forall c :: c in subscriptions ==> c.received == old(c.received) + [data]
    {
      var rest := subscriptions;
      while rest != {}
        invariant rest <= subscriptions
        invariant forall c :: c in subscriptions ==>
                    c.received == old(c.received) + if c in rest then [] else [data]
        decreases |rest|
      {
        var c :| c in rest;
        c.received := c.received + [data];
        rest := rest - {c};
      }
    }

    /** One turn of the loop that takes an item. */
    method Dequeue(ghost all: set<Channel<T>>)
      requires running && pub != [] && subscriptions <= all
      modifies `pub, subscriptions
      ensures View(all) == PubSub.Step(old(View(all)), PubSub.Dequeue)
    {
      ghost var before := View(all).inbox;
      var data := pub[0];
      pub := pub[1..];
      Send(data);
      DeliveredIs(before, View(all).inbox, subscriptions, data);
    }
  }

  lemma DeliveredIs<T, C>(before: map<C, seq<T>>, after: map<C, seq<T>>, subs: set<C>, item: T)
    requires subs <= before.Keys == after.Keys
    requires forall c :: c in after ==> after[c] == if c in subs then before[c] + [item] else before[c]
    ensures after == PubSub.Delivered(before, subs, item)
  {
    var want := PubSub.Delivered(before, subs, item);
    assert want.Keys == after.Keys;
    forall c | c in after
      ensures after[c] == want[c]
    {
      assert before[c] + [] == before[c];
    }
  }
}
