/** The publisher that links registrar, clients and streams: a queue, a set of subscribed
    channels, and one loop that serves them until it is stopped. */
module PubSub {
  import opened Common

  datatype Event<T, C> =
    | Publish(item: T)
    | Subscribe(ch: C)
    | Unsubscribe(ch: C)
    | Close
    | Dequeue
    | Exit

  /** `inbox` holds everything a channel ever received; `running` is the loop. */
  datatype State<T, C(==)> = State(
    queue: seq<T>, subs: set<C>, inbox: map<C, seq<T>>, closed: bool, running: bool)

  function Received<T, C(==)>(inbox: map<C, seq<T>>, c: C): seq<T> {
    if c in inbox then inbox[c] else []
  }

  function Delivered<T, C(==)>(inbox: map<C, seq<T>>, subs: set<C>, item: T): map<C, seq<T>> {
    map c | c in inbox.Keys + subs :: Received(inbox, c) + if c in subs then [item] else []
  }

  /** A closed publisher ignores new commands, but its loop may go on with what is queued
      until it notices the stop. */
  function Step<T, C(==)>(s: State<T, C>, e: Event<T, C>): State<T, C> {
    match e
    case Publish(item) => if s.closed then s else s.(queue := s.queue + [item])
    case Subscribe(c) => if s.closed then s else s.(subs := s.subs + {c})
    case Unsubscribe(c) => if s.closed then s else s.(subs := s.subs - {c})
    case Close => s.(closed := true)
    case Dequeue =>
      if s.running && s.queue != [] then
        s.(queue := s.queue[1..], inbox := Delivered(s.inbox, s.subs, s.queue[0]))
      else s
    case Exit => if s.closed then s.(running := false) else s
  }

  function Fresh<T, C(==)>(inbox: map<C, seq<T>>): State<T, C> {
    State([], {}, inbox, false, true)
  }

  function Run<T, C(==)>(inbox: map<C, seq<T>>, events: seq<Event<T, C>>): State<T, C> {
    if events == [] then Fresh(inbox) else Step(Run(inbox, events[..|events| - 1]), events[|events| - 1])
  }

  // ----- What should happen, read off the events alone -----

  predicate ClosedBy<T, C(==)>(events: seq<Event<T, C>>) {
    exists i :: 0 <= i < |events| && events[i].Close?
  }

  predicate StoppedBy<T, C(==)>(events: seq<Event<T, C>>) {
    exists i :: 0 <= i < |events| && events[i].Exit? && ClosedBy(events[..i])
  }

  /** All items accepted so far, in the order of publication. */
  function Published<T, C(==)>(events: seq<Event<T, C>>): seq<T> {
    if events == [] then []
    else
      var init, e := events[..|events| - 1], events[|events| - 1];
      Published(init) + if e.Publish? && !ClosedBy(init) then [e.item] else []
  }

  /** How many of them the loop has taken. */
  function Taken<T, C(==)>(events: seq<Event<T, C>>): (n: nat)
    ensures n <= |Published(events)|
  {
    if events == [] then 0
    else
      var init, e := events[..|events| - 1], events[|events| - 1];
      var n := Taken(init);
      if e.Dequeue? && !StoppedBy(init) && n < |Published(init)| then n + 1 else n
  }

  /** The latest accepted command about `c` was to subscribe it. */
  predicate Subscribed<T, C(==)>(events: seq<Event<T, C>>, c: C) {
    events != [] &&
    var init, e := events[..|events| - 1], events[|events| - 1];
    if (e.Subscribe? || e.Unsubscribe?) && e.ch == c && !ClosedBy(init) then e.Subscribe? else Subscribed(init, c)
  }

  /** The items taken while `c` was subscribed. */
  function Heard<T, C(==)>(events: seq<Event<T, C>>, c: C): seq<T> {
    if events == [] then []
    else
      var init := events[..|events| - 1];
      Heard(init, c)
      + if Taken(events) > Taken(init) && Subscribed(init, c) then [Published(init)[Taken(init)]] else []
  }

  lemma ClosedSnoc<T, C>(events: seq<Event<T, C>>)
    requires events != []
    ensures ClosedBy(events) <==> ClosedBy(events[..|events| - 1]) || events[|events| - 1].Close?
  {
  }

  lemma StoppedSnoc<T, C>(events: seq<Event<T, C>>)
    requires events != []
    ensures var init := events[..|events| - 1];
            StoppedBy(events) <==> StoppedBy(init) || (events[|events| - 1].Exit? && ClosedBy(init))
  {
  }

  lemma {:induction false} LoopFlags<T, C>(inbox: map<C, seq<T>>, events: seq<Event<T, C>>)
    ensures Run(inbox, events).closed == ClosedBy(events)
    ensures Run(inbox, events).running == !StoppedBy(events)
  {
    if events != [] {
      LoopFlags(inbox, events[..|events| - 1]);
      ClosedSnoc(events);
      StoppedSnoc(events);
    }
  }

  lemma SliceSnoc<T>(a: seq<T>, n: nat, item: T)
    requires n <= |a|
    ensures (a + [item])[n..] == a[n..] + [item]
    ensures n < |a| ==> a[n..][0] == a[n] && a[n..][1..] == a[n + 1..]
  {
  }

  lemma {:induction false} TakenSnoc<T, C>(events: seq<Event<T, C>>)
    requires events != []
    ensures var init, e := events[..|events| - 1], events[|events| - 1];
            && Published(events) ==
                 (if e.Publish? && !ClosedBy(init) then Published(init) + [e.item] else Published(init))
            && Taken(events) ==
                 (if e.Dequeue? && !StoppedBy(init) && Taken(init) < |Published(init)|
                  then Taken(init) + 1
                  else Taken(init))
  {
    hide ClosedBy, StoppedBy;
    var init := events[..|events| - 1];
    assert Published(init) + [] == Published(init);
  }

  lemma QueueStep<T, C>(s: State<T, C>, e: Event<T, C>, published: seq<T>, taken: nat)
    requires taken <= |published| && s.queue == published[taken..]
    ensures var longer := if e.Publish? && !s.closed then published + [e.item] else published;
            var n := if e.Dequeue? && s.running && taken < |published| then taken + 1 else taken;
            Step(s, e).queue == longer[n..]
  {
    if e.Publish? {
      SliceSnoc(published, taken, e.item);
    }
  }

  /** First in, first out: what was published is what was taken followed by what is queued. */
  lemma {:induction false} QueueIsSuffix<T, C>(inbox: map<C, seq<T>>, events: seq<Event<T, C>>)
    ensures Run(inbox, events).queue == Published(events)[Taken(events)..]
  {
    hide Step, ClosedBy, StoppedBy;
    if events != [] {
      var init := events[..|events| - 1];
      QueueIsSuffix(inbox, init);
      LoopFlags(inbox, init);
      TakenSnoc(events);
      QueueStep(Run(inbox, init), events[|events| - 1], Published(init), Taken(init));
    }
  }

  lemma {:induction false} SubsAreSubscribed<T, C>(inbox: map<C, seq<T>>, events: seq<Event<T, C>>, c: C)
    ensures c in Run(inbox, events).subs <==> Subscribed(events, c)
  {
    if events != [] {
      SubsAreSubscribed(inbox, events[..|events| - 1], c);
      LoopFlags(inbox, events[..|events| - 1]);
    }
  }

  predicate Takes<T, C(==)>(s: State<T, C>, e: Event<T, C>) {
    e.Dequeue? && s.running && s.queue != []
  }

  lemma StepInbox<T, C>(s: State<T, C>, e: Event<T, C>, c: C)
    ensures Received(Step(s, e).inbox, c)
         == Received(s.inbox, c) + if Takes(s, e) && c in s.subs then [s.queue[0]] else []
  {
  }

  lemma TakesSnoc<T, C>(inbox: map<C, seq<T>>, events: seq<Event<T, C>>)
    requires events != []
    ensures var init := events[..|events| - 1];
            && (Taken(events) > Taken(init) <==> Takes(Run(inbox, init), events[|events| - 1]))
            && (Taken(events) > Taken(init) ==> Run(inbox, init).queue[0] == Published(init)[Taken(init)])
  {
    LoopFlags(inbox, events[..|events| - 1]);
    QueueIsSuffix(inbox, events[..|events| - 1]);
  }

  /** Each channel receives exactly the items taken while it was subscribed. */
  lemma {:induction false} DeliveryExact<T, C>(inbox: map<C, seq<T>>, events: seq<Event<T, C>>, c: C)
    ensures Received(Run(inbox, events).inbox, c) == Received(inbox, c) + Heard(events, c)
  {
    if events != [] {
      var init := events[..|events| - 1];
      DeliveryExact(inbox, init, c);
      TakesSnoc(inbox, events);
      SubsAreSubscribed(inbox, init, c);
      var s, e := Run(inbox, init), events[|events| - 1];
      StepInbox(s, e, c);
      Associates(Received(inbox, c), Heard(init, c), if Takes(s, e) && c in s.subs then [s.queue[0]] else []);
    }
  }

  ghost predicate NoCommandAbout<T, C>(events: seq<Event<T, C>>, c: C) {
    forall i :: 0 <= i < |events| ==> !(events[i].Subscribe? || events[i].Unsubscribe?) || events[i].ch != c
  }

  /** What was taken between two moments, for a channel subscribed at the first. */
  function StretchOf<T, C(==)>(events: seq<Event<T, C>>, longer: seq<Event<T, C>>, c: C): seq<T>
    requires Taken(events) <= Taken(longer)
  {
    if Subscribed(events, c) then Published(longer)[Taken(events)..Taken(longer)] else []
  }

  lemma StretchSnoc<T>(a: seq<T>, b: seq<T>, from: nat, mid: nat)
    requires from <= mid <= |a|
    ensures (a + b)[from..mid] == a[from..mid]
    ensures mid < |a| ==> (a + b)[from..mid + 1] == a[from..mid] + [a[mid]]
  {
  }

  lemma {:induction false} HeardSnoc<T, C>(longer: seq<Event<T, C>>, e: Event<T, C>, c: C)
    requires !(e.Subscribe? || e.Unsubscribe?) || e.ch != c
    ensures var all, news := longer + [e], if e.Publish? && !ClosedBy(longer) then [e.item] else [];
            && Published(all) == Published(longer) + news
            && Subscribed(all, c) == Subscribed(longer, c)
            && (Taken(all) == Taken(longer) || (Taken(longer) < |Published(longer)| && Taken(all) == Taken(longer) + 1))
            && Heard(all, c) == Heard(longer, c)
                 + (if Taken(all) > Taken(longer) && Subscribed(longer, c)
                    then [Published(longer)[Taken(longer)]]
                    else [])
  {
    hide ClosedBy, StoppedBy;
    var all := longer + [e];
    assert all[..|all| - 1] == longer;
    assert Published(longer) + [] == Published(longer);
  }

  lemma {:induction false} HearsNext<T, C>(events: seq<Event<T, C>>, longer: seq<Event<T, C>>, e: Event<T, C>, c: C)
    requires Taken(events) <= Taken(longer) && Subscribed(longer, c) == Subscribed(events, c)
    requires Heard(longer, c) == Heard(events, c) + StretchOf(events, longer, c)
    requires !(e.Subscribe? || e.Unsubscribe?) || e.ch != c
    ensures var all := longer + [e];
            && Taken(events) <= Taken(all) && Subscribed(all, c) == Subscribed(events, c)
            && Heard(all, c) == Heard(events, c) + StretchOf(events, all, c)
  {
    hide ClosedBy, Taken, Heard, Subscribed, Published;
    var all := longer + [e];
    HeardSnoc(longer, e, c);
    var news := if e.Publish? && !ClosedBy(longer) then [e.item] else [];
    StretchSnoc(Published(longer), news, Taken(events), Taken(longer));
    var grew := Taken(all) > Taken(longer) && Subscribed(longer, c);
    Associates(Heard(events, c), StretchOf(events, longer, c), if grew then [Published(longer)[Taken(longer)]] else []);
  }

  /** Between two commands about it, a subscribed channel hears one unbroken stretch of the
      published items, without loss, duplicate or reordering; another one hears nothing. */
  lemma {:induction false} HearsStretch<T, C>(events: seq<Event<T, C>>, more: seq<Event<T, C>>, c: C)
    requires NoCommandAbout(more, c)
    ensures Subscribed(events + more, c) == Subscribed(events, c)
    ensures Taken(events) <= Taken(events + more)
    ensures Heard(events + more, c) == Heard(events, c) + StretchOf(events, events + more, c)
  {
    hide Taken, Heard, Subscribed;
    if more == [] {
      assert events + more == events;
      assert StretchOf(events, events, c) == [];
      assert Heard(events, c) + [] == Heard(events, c);
    } else {
      var init, e := more[..|more| - 1], more[|more| - 1];
      assert more == init + [e];
      Associates(events, init, [e]);
      HearsStretch(events, init, c);
      HearsNext(events, events + init, e, c);
    }
  }
}
