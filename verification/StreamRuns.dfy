/** Runs of a stream, compared with what the events alone say should happen. */
module StreamRuns {
  import opened Common
  import opened Streams
  import opened StreamInvariants

  // ----- Which connections are open, read off the events -----

  datatype Opening = Opening(key: Key, user: User)

  function OpenedAs<C(==)>(events: seq<Event<C>>, c: C): Option<Opening> {
    if events == [] then None
    else
      var e := events[|events| - 1];
      if e.Open? && e.conn == c then Some(Opening(e.key, e.user)) else OpenedAs(events[..|events| - 1], c)
  }

  /** A connection is opened once, and closed only after that (with whatever key). */
  ghost predicate Legal<C>(events: seq<Event<C>>) {
    events != [] ==>
      var init, e := events[..|events| - 1], events[|events| - 1];
      && Legal(init)
      && (e.Open? ==> OpenedAs(init, e.conn).None?)
      && (e.Close? ==> OpenedAs(init, e.conn).Some?)
  }

  /** `c` was opened and not closed under its own key since. */
  predicate OpenBy<C(==)>(events: seq<Event<C>>, c: C) {
    events != [] &&
    var init, e := events[..|events| - 1], events[|events| - 1];
    if e.Open? && e.conn == c then true
    else if Closes(init, e, c) then false
    else OpenBy(init, c)
  }

  predicate Closes<C(==)>(init: seq<Event<C>>, e: Event<C>, c: C) {
    e.Close? && e.conn == c && OpenedAs(init, c).Some? && OpenedAs(init, c).value.key == e.key
  }

  /** Close events of a connection that is not open, or under another key than its own. */
  function Spurious<C(==)>(events: seq<Event<C>>): nat {
    if events == [] then 0
    else
      var init, e := events[..|events| - 1], events[|events| - 1];
      Spurious(init) + if e.Close? && !(Closes(init, e, e.conn) && OpenBy(init, e.conn)) then 1 else 0
  }

  ghost predicate SameConn(disc: User -> Disc, conn: Conn, o: Opening) {
    conn.key == o.key && conn.user == o.user && conn.disc == disc(o.user)
  }

  lemma {:induction false} RunRoster<C>(disc: User -> Disc, events: seq<Event<C>>, c: C)
    requires Legal(events)
    ensures c in Run(disc, events).conns <==> OpenedAs(events, c).Some?
    ensures c in Run(disc, events).conns ==> SameConn(disc, Run(disc, events).conns[c], OpenedAs(events, c).value)
  {
    if events != [] {
      RunRoster(disc, events[..|events| - 1], c);
    }
  }

  lemma {:induction false} RunInv<C>(disc: User -> Disc, events: seq<Event<C>>)
    requires Legal(events)
    ensures Inv(disc, Run(disc, events))
  {
    if events != [] {
      var init, e := events[..|events| - 1], events[|events| - 1];
      RunInv(disc, init);
      if e.Open? {
        RunRoster(disc, init, e.conn);
      }
      StepKeepsInv(disc, Run(disc, init), e);
    }
  }

  lemma MembersBelong<C>(disc: User -> Disc, s: State<C>, key: Key, d: Disc, c: C)
    requires TableOk(disc, s) && c in Members(s.channels, key, d)
    ensures c in s.conns && s.conns[c].key == key && s.conns[c].disc == d && Held(s, c)
  {
    assert ChannelOk(disc, s.conns, key, d, s.channels[key][d]);
  }

  lemma OpenHolds<C>(disc: User -> Disc, s: State<C>, c: C, key: Key, user: User, now: Snapshot, x: C)
    requires Inv(disc, s) && c !in s.conns
    ensures Held(AddConnection(disc, s, c, key, user, now), x) <==> x == c || Held(s, x)
  {
    var d, t := disc(user), AddConnection(disc, s, c, key, user, now);
    PutAt(s.channels, key, d, t.channels[key][d], key, d);
    if x in t.conns {
      PutAt(s.channels, key, d, t.channels[key][d], t.conns[x].key, t.conns[x].disc);
    }
  }

  lemma {:induction false} CloseHolds<C>(disc: User -> Disc, s: State<C>, c: C, key: Key, x: C)
    requires Inv(disc, s) && c in s.conns
    ensures Held(RemoveConnection(s, c, key), x) <==> Held(s, x) && !(x == c && key == s.conns[c].key)
  {
    var d, t := s.conns[c].disc, RemoveConnection(s, c, key);
    if HasChannel(s.channels, key, d) && x in s.conns {
      var ch, k, e := s.channels[key][d], s.conns[x].key, s.conns[x].disc;
      var left := Without(ch.members, c);
      assert ChannelOk(disc, s.conns, key, d, ch);
      WithoutIs(ch.members, c);
      if left == [] {
        DropAt(s.channels, key, d, k, e);
      } else {
        PutAt(s.channels, key, d, ch.(members := left), k, e);
      }
    }
  }

  lemma NotifyHolds<C>(s: State<C>, now: Snapshot, x: C)
    ensures Held(NotifyConnections(s, now), x) <==> Held(s, x)
  {
  }

  lemma {:induction false} HeldIsOpen<C>(disc: User -> Disc, events: seq<Event<C>>, c: C)
    requires Legal(events)
    ensures Held(Run(disc, events), c) <==> OpenBy(events, c)
  {
    if events != [] {
      var init := events[..|events| - 1];
      var s := Run(disc, init);
      RunInv(disc, init);
      HeldIsOpen(disc, init, c);
      if !events[|events| - 1].Notify? {
        RunRoster(disc, init, events[|events| - 1].conn);
      }
      match events[|events| - 1]
      case Open(x, key, user, now) => OpenHolds(disc, s, x, key, user, now, c);
      case Close(x, key) => CloseHolds(disc, s, x, key, c);
      case Notify(now) => NotifyHolds(s, now, c);
    }
  }

  /** After any run: no bucket or channel is empty, each open connection sits in exactly one
      channel, once, at its own key and discriminator, no other connection sits anywhere, a
      channel is an all-flags one exactly under the reserved key, and all members of a channel
      last received its last payload. */
  lemma {:induction false} ConnectionTable<C>(disc: User -> Disc, events: seq<Event<C>>)
    requires Legal(events)
    ensures var s := Run(disc, events);
            && NoEmptyBucket(s.channels)
            && (forall key, d :: HasChannel(s.channels, key, d) ==>
                  ChannelOk(disc, s.conns, key, d, s.channels[key][d]))
            && (forall key, d, c :: c in Members(s.channels, key, d) <==>
                  OpenBy(events, c) && OpenedAs(events, c).Some?
                  && key == OpenedAs(events, c).value.key && d == disc(OpenedAs(events, c).value.user))
  {
    var s := Run(disc, events);
    RunInv(disc, events);
    forall key, d, c
      ensures c in Members(s.channels, key, d) <==>
                OpenBy(events, c) && OpenedAs(events, c).Some?
                && key == OpenedAs(events, c).value.key && d == disc(OpenedAs(events, c).value.user)
    {
      HeldIsOpen(disc, events, c);
      RunRoster(disc, events, c);
      if c in Members(s.channels, key, d) {
        MembersBelong(disc, s, key, d, c);
      }
    }
  }

  lemma SomeMember<C>(disc: User -> Disc, s: State<C>, key: Key, d: Disc) returns (c: C)
    requires TableOk(disc, s) && HasChannel(s.channels, key, d)
    ensures Held(s, c) && s.conns[c].key == key && s.conns[c].disc == d
  {
    assert ChannelOk(disc, s.conns, key, d, s.channels[key][d]);
    c := s.channels[key][d].members[0];
    MembersBelong(disc, s, key, d, c);
  }

  lemma SomeChannel<C>(t: Table<C>) returns (key: Key, d: Disc)
    requires NoEmptyBucket(t) && t != map[]
    ensures HasChannel(t, key, d)
  {
    assert t.Keys != {};
    key :| key in t.Keys;
    assert t[key].Keys != {};
    d :| d in t[key].Keys;
  }

  ghost predicate AllClosed<C(!new)>(events: seq<Event<C>>) {
    forall c :: !OpenBy(events, c)
  }

  /** The table is empty if and only if every connection was closed. */
  lemma {:induction false} AllClosedIsEmpty<C(!new)>(disc: User -> Disc, events: seq<Event<C>>)
    requires Legal(events)
    ensures Run(disc, events).channels == map[] <==> AllClosed(events)
  {
    RunInv(disc, events);
    if Run(disc, events).channels != map[] {
      var key, d := SomeChannel(Run(disc, events).channels);
      var c := SomeMember(disc, Run(disc, events), key, d);
      HeldIsOpen(disc, events, c);
    } else {
      forall c
        ensures !OpenBy(events, c)
      {
        HeldIsOpen(disc, events, c);
      }
    }
  }

  // ----- Conservation -----

  ghost function HeldSet<C>(s: State<C>): set<C> {
    set c | c in s.conns && Held(s, c)
  }

  lemma {:induction false} HeldSetStep<C>(disc: User -> Disc, s: State<C>, e: Event<C>)
    requires Inv(disc, s) && (e.Open? ==> e.conn !in s.conns) && (e.Close? ==> e.conn in s.conns)
    ensures HeldSet(Step(disc, s, e)) ==
              if e.Open? then HeldSet(s) + {e.conn}
              else if e.Close? && s.conns[e.conn].key == e.key then HeldSet(s) - {e.conn}
              else HeldSet(s)
  {
    forall c
      ensures Held(Step(disc, s, e), c) <==>
                (Held(s, c) || (e.Open? && c == e.conn)) && !(e.Close? && c == e.conn && e.key == s.conns[c].key)
    {
      match e
      case Open(x, key, user, now) => OpenHolds(disc, s, x, key, user, now, c);
      case Close(x, key) => CloseHolds(disc, s, x, key, c);
      case Notify(now) => NotifyHolds(s, now, c);
    }
  }

  lemma {:induction false} CountStep<C>(disc: User -> Disc, s: State<C>, e: Event<C>)
    requires Inv(disc, s) && (e.Open? ==> e.conn !in s.conns) && (e.Close? ==> e.conn in s.conns)
    ensures var t, spurious := Step(disc, s, e), e.Close? && !(s.conns[e.conn].key == e.key && Held(s, e.conn));
            t.connCount - s.connCount == |HeldSet(t)| - |HeldSet(s)| - if spurious then 1 else 0
  {
    HeldSetStep(disc, s, e);
    match e
    case Open(x, _, _, _) => Sizes(HeldSet(s), x);
    case Close(x, _) => Sizes(HeldSet(s), x);
    case Notify(_) =>
  }

  lemma Sizes<C>(a: set<C>, x: C)
    ensures |a + {x}| == |a| + if x in a then 0 else 1
    ensures |a - {x}| == |a| - if x in a then 1 else 0
  {
  }

  /** The counter is short of the connections held by exactly the spurious closes: it is right
      if and only if every close was of an open connection under its own key. */
  lemma {:induction false} CounterExact<C>(disc: User -> Disc, events: seq<Event<C>>)
    requires Legal(events)
    ensures Run(disc, events).connCount == |HeldSet(Run(disc, events))| - Spurious(events)
    ensures Run(disc, events).connCount == |HeldSet(Run(disc, events))| <==> Spurious(events) == 0
  {
    if events != [] {
      var init, e := events[..|events| - 1], events[|events| - 1];
      CounterExact(disc, init);
      RunInv(disc, init);
      if !e.Notify? {
        RunRoster(disc, init, e.conn);
      }
      CountStep(disc, Run(disc, init), e);
      if e.Close? {
        HeldIsOpen(disc, init, e.conn);
      }
    }
  }

  /** The sent-message reports add up to everything any connection ever received. */
  lemma {:induction false} SentIsReceived<C>(disc: User -> Disc, events: seq<Event<C>>)
    requires Legal(events)
    ensures var s := Run(disc, events);
            s.sent == Total(s.roster, s.conns) && NoDup(s.roster) && Elems(s.roster) == s.conns.Keys
  {
    RunInv(disc, events);
    var s := Run(disc, events);
    assert forall c :: c in Elems(s.roster) <==> c in s.conns.Keys;
  }

  // ----- Send on change -----

  /** `p`, unless it repeats the value of `last`. */
  function Unless(p: Payload, last: Payload): seq<Payload> {
    if p.value != last.value then [p] else []
  }

  /** Removes each payload whose value equals that of its predecessor. */
  function Compress(ps: seq<Payload>): seq<Payload> {
    if |ps| <= 1 then ps
    else
      Compress(ps[..|ps| - 1]) + Unless(ps[|ps| - 1], ps[|ps| - 2])
  }

  /** The value and the variation of a successful evaluation at a notification. */
  function Success<C>(e: Event<C>, key: Key, user: User): seq<Payload> {
    if !e.Notify? || e.snapshot.eval(key, user).error.Some? then []
    else [Payload(e.snapshot.eval(key, user).value, e.snapshot.eval(key, user).variationId)]
  }

  /** All successful evaluations of one flag for one user at the notifications among `events`. */
  function Successes<C>(events: seq<Event<C>>, key: Key, user: User): seq<Payload> {
    if events == [] then []
    else
      Successes(events[..|events| - 1], key, user) + Success(events[|events| - 1], key, user)
  }

  function Singles(ps: seq<Payload>): seq<Message> {
    seq(|ps|, i requires 0 <= i < |ps| => Single(ps[i]))
  }

  lemma {:induction false} CompressEnds(ps: seq<Payload>)
    requires ps != []
    ensures var r := Compress(ps);
            r != [] && r[|r| - 1].value == ps[|ps| - 1].value
  {
    if |ps| > 1 {
      CompressEnds(ps[..|ps| - 1]);
    }
  }

  lemma {:induction false} CompressSnoc(ps: seq<Payload>, p: Payload)
    requires ps != []
    ensures Compress(ps) != []
    ensures Compress(ps + [p]) == Compress(ps) + Unless(p, Compress(ps)[|Compress(ps)| - 1])
  {
    CompressEnds(ps);
    var q := ps + [p];
    assert q[..|q| - 1] == ps && q[|q| - 2] == ps[|ps| - 1];
  }

  /** The places of the payloads that remain. */
  ghost function Kept(ps: seq<Payload>): seq<nat> {
    if ps == [] then []
    else
      var n := |ps| - 1;
      Kept(ps[..n]) + if n == 0 || ps[n].value != ps[n - 1].value then [n] else []
  }

  lemma {:induction false} KeptSorted(ps: seq<Payload>)
    ensures forall j :: 0 <= j < |Kept(ps)| ==> Kept(ps)[j] < |ps|
    ensures forall i, j :: 0 <= i < j < |Kept(ps)| ==> Kept(ps)[i] < Kept(ps)[j]
  {
    if ps != [] {
      KeptSorted(ps[..|ps| - 1]);
    }
  }

  lemma {:induction false} KeptIff(ps: seq<Payload>, i: nat)
    requires i < |ps|
    ensures i in Kept(ps) <==> i == 0 || ps[i].value != ps[i - 1].value
  {
    var init := ps[..|ps| - 1];
    KeptSorted(init);
    if i < |init| {
      KeptIff(init, i);
      assert i in Kept(ps) <==> i in Kept(init);
    } else {
      assert i !in Kept(init);
    }
  }

  lemma {:induction false} KeptRemain(ps: seq<Payload>)
    ensures |Compress(ps)| == |Kept(ps)|
    ensures forall j :: 0 <= j < |Kept(ps)| ==> Kept(ps)[j] < |ps| && Compress(ps)[j] == ps[Kept(ps)[j]]
  {
    KeptSorted(ps);
    if |ps| == 1 {
      assert Kept(ps) == [0];
    } else if |ps| > 1 {
      KeptRemain(ps[..|ps| - 1]);
    }
  }

  /** The payloads that remain, in order, are exactly those whose value differs from that of the
      payload before them. */
  lemma CompressKeeps(ps: seq<Payload>) returns (at: seq<nat>)
    ensures |at| == |Compress(ps)|
    ensures forall i, j :: 0 <= i < j < |at| ==> at[i] < at[j]
    ensures forall j :: 0 <= j < |at| ==> at[j] < |ps| && Compress(ps)[j] == ps[at[j]]
    ensures forall i: nat :: i < |ps| ==> (i in at <==> i == 0 || ps[i].value != ps[i - 1].value)
  {
    at := Kept(ps);
    KeptSorted(ps);
    KeptRemain(ps);
    forall i: nat | i < |ps|
      ensures i in at <==> i == 0 || ps[i].value != ps[i - 1].value
    {
      KeptIff(ps, i);
    }
  }

  /** A client never receives the same value twice in a row. */
  lemma {:induction false} CompressAlternates(ps: seq<Payload>, j: nat)
    requires j + 1 < |Compress(ps)|
    ensures Compress(ps)[j].value != Compress(ps)[j + 1].value
  {
    var init := ps[..|ps| - 1];
    CompressEnds(init);
    if j + 1 < |Compress(init)| {
      CompressAlternates(init, j);
    }
  }

  lemma SinglesConcat(a: seq<Payload>, b: seq<Payload>)
    ensures Singles(a + b) == Singles(a) + Singles(b)
  {
  }

  /** `c` is open in a channel that evaluates for `user`. */
  ghost predicate Served<C>(s: State<C>, c: C, key: Key, user: User) {
    && Held(s, c) && s.conns[c].key == key
    && s.channels[key][s.conns[c].disc].user == user
  }

  predicate Collides(disc: User -> Disc, a: User, b: User) {
    disc(a) == disc(b)
  }

  ghost predicate Uncollided<C>(disc: User -> Disc, events: seq<Event<C>>) {
    forall i, j :: 0 <= i < |events| && 0 <= j < |events| && events[i].Open? && events[j].Open? ==>
      Collides(disc, events[i].user, events[j].user) ==> events[i].user == events[j].user
  }

  lemma ServedOpen<C>(
      disc: User -> Disc, s: State<C>, x: C, k: Key, u: User, now: Snapshot, c: C, key: Key, user: User)
    requires Inv(disc, s) && Served(s, c, key, user) && x !in s.conns
    ensures var t := AddConnection(disc, s, x, k, u, now);
            Served(t, c, key, user) && t.conns[c] == s.conns[c]
  {
    OpenHolds(disc, s, x, k, u, now, c);
    PutAt(s.channels, k, disc(u), AddConnection(disc, s, x, k, u, now).channels[k][disc(u)], key, s.conns[c].disc);
  }

  lemma ServedClose<C>(disc: User -> Disc, s: State<C>, x: C, k: Key, c: C, key: Key, user: User)
    requires Inv(disc, s) && Served(s, c, key, user) && x in s.conns && !(x == c && k == key)
    ensures var t := RemoveConnection(s, x, k);
            Served(t, c, key, user) && t.conns[c] == s.conns[c]
  {
    CloseHolds(disc, s, x, k, c);
    CloseKeepsUser(s, x, k, key, s.conns[c].disc);
  }

  lemma ServedNotify<C>(disc: User -> Disc, s: State<C>, now: Snapshot, c: C, key: Key, user: User)
    requires Inv(disc, s) && Served(s, c, key, user)
    ensures var t, ch := NotifyConnections(s, now), s.channels[key][s.conns[c].disc];
            && Served(t, c, key, user)
            && t.conns[c].received == s.conns[c].received +
                 MessagesOf(ch, key, now)
  {
    NotifyHolds(s, now, c);
    NotifiedAt(s.channels, now, key, s.conns[c].disc);
    MemberNews(disc, s, key, s.conns[c].disc, now, c);
  }

  /** One event that neither opens `c` nor closes it: its channel keeps its user, and it is
      sent what its channel sends. */
  lemma ServedStep<C>(disc: User -> Disc, s: State<C>, e: Event<C>, c: C, key: Key, user: User)
    requires Inv(disc, s) && Served(s, c, key, user)
    requires (e.Open? ==> e.conn !in s.conns) && !(e.Close? && e.conn == c && e.key == key)
    ensures var t, ch := Step(disc, s, e), s.channels[key][s.conns[c].disc];
            && Served(t, c, key, user)
            && t.conns[c].received == s.conns[c].received + Sent(ch, key, e)
  {
    match e
    case Open(x, k, u, now) => ServedOpen(disc, s, x, k, u, now, c, key, user);
    case Close(x, k) =>
      if x in s.conns {
        ServedClose(disc, s, x, k, c, key, user);
      }
    case Notify(now) => ServedNotify(disc, s, now, c, key, user);
  }

  lemma CloseKeepsUser<C>(s: State<C>, x: C, k: Key, key: Key, d: Disc)
    requires x in s.conns && HasChannel(s.channels, key, d)
    ensures var t := RemoveConnection(s, x, k);
            HasChannel(t.channels, key, d) ==> t.channels[key][d].user == s.channels[key][d].user
  {
  }

  ghost predicate Stays<C>(more: seq<Event<C>>, c: C, key: Key) {
    forall i :: 0 <= i < |more| ==> !(more[i].Close? && more[i].conn == c && more[i].key == key)
  }

  /** What a channel sends at one event, or nothing. */
  function Sent<C>(ch: Chan<C>, key: Key, e: Event<C>): seq<Message> {
    if e.Notify? then MessagesOf(ch, key, e.snapshot) else []
  }

  /** What one event adds to the history of a channel's members. */
  lemma {:induction false} SendsNext<C>(received: seq<Message>, ch: Chan<C>, key: Key, e: Event<C>, ps: seq<Payload>)
    requires ps != [] && received == Singles(Compress(ps))
    requires received != [] && received[|received| - 1] == ch.last
    ensures Singles(Compress(ps + Success(e, key, ch.user))) == received + Sent(ch, key, e)
  {
    if e.Notify? {
      SingleStep(received, ps, e.snapshot.eval(key, ch.user), ch.last);
    } else {
      assert ps + [] == ps;
      assert received + [] == received;
    }
  }

  lemma SingleFirst(first: Payload)
    ensures Singles(Compress([first])) == [Single(first)]
  {
  }

  lemma {:induction false} SendOnChangeStep<C>(
      disc: User -> Disc, s: State<C>, e: Event<C>, c: C, key: Key, user: User, ps: seq<Payload>)
    requires Inv(disc, s) && Served(s, c, key, user) && ps != []
    requires (e.Open? ==> e.conn !in s.conns) && !(e.Close? && e.conn == c && e.key == key)
    requires s.conns[c].received == Singles(Compress(ps))
    ensures var t := Step(disc, s, e);
            Served(t, c, key, user) && t.conns[c].received == Singles(Compress(ps + Success(e, key, user)))
  {
    ServedStep(disc, s, e, c, key, user);
    LastReceived(disc, s, c);
    SendsNext(s.conns[c].received, s.channels[key][s.conns[c].disc], key, e, ps);
  }

  lemma {:induction false} SendOnChangeNext<C>(
      disc: User -> Disc, events: seq<Event<C>>, e: Event<C>, c: C, key: Key, user: User, ps: seq<Payload>)
    requires Legal(events) && (e.Open? ==> OpenedAs(events, e.conn).None?)
    requires Served(Run(disc, events), c, key, user) && !(e.Close? && e.conn == c && e.key == key)
    requires ps != [] && Run(disc, events).conns[c].received == Singles(Compress(ps))
    ensures var t := Run(disc, events + [e]);
            Served(t, c, key, user) && t.conns[c].received == Singles(Compress(ps + Success(e, key, user)))
  {
    RunSnoc(disc, events, e);
    RunInv(disc, events);
    if e.Open? {
      RunRoster(disc, events, e.conn);
    }
    SendOnChangeStep(disc, Run(disc, events), e, c, key, user, ps);
  }

  /** While a connection stays open, it receives the successful evaluations for its channel's
      user with repeated values removed, counting from what it received before. */
  lemma {:induction false} SendOnChange<C>(
      disc: User -> Disc, events: seq<Event<C>>, more: seq<Event<C>>, c: C, key: Key, user: User, first: Payload)
    requires Legal(events + more) && Legal(events) && Stays(more, c, key)
    requires Served(Run(disc, events), c, key, user)
    requires Run(disc, events).conns[c].received == [Single(first)]
    ensures var t := Run(disc, events + more);
            && Served(t, c, key, user)
            && t.conns[c].received == Singles(Compress([first] + Successes(more, key, user)))
  {
    if more == [] {
      assert events + more == events && [first] + Successes(more, key, user) == [first];
      SingleFirst(first);
    } else {
      var init, e := more[..|more| - 1], more[|more| - 1];
      LegalPrefix(events, more);
      SendOnChange(disc, events, init, c, key, user, first);
      SendOnChangeNext(disc, events + init, e, c, key, user, [first] + Successes(init, key, user));
      Associates([first], Successes(init, key, user), Success(e, key, user));
    }
  }

  /** What a channel with last payload `last` sends for one evaluation. */
  lemma {:induction false} SinglesStep(ps: seq<Payload>, p: Payload)
    requires ps != []
    ensures Compress(ps) != [] && Singles(Compress(ps)) != []
    ensures Singles(Compress(ps))[|Compress(ps)| - 1] == Single(Compress(ps)[|Compress(ps)| - 1])
    ensures Singles(Compress(ps + [p])) ==
              Singles(Compress(ps)) + if p.value != Compress(ps)[|Compress(ps)| - 1].value then [Single(p)] else []
  {
    CompressSnoc(ps, p);
    SinglesConcat(Compress(ps), Unless(p, Compress(ps)[|Compress(ps)| - 1]));
  }

  lemma LastReceived<C>(disc: User -> Disc, s: State<C>, c: C)
    requires TableOk(disc, s) && Held(s, c)
    ensures var conn := s.conns[c];
            conn.received != [] && conn.received[|conn.received| - 1] == s.channels[conn.key][conn.disc].last
  {
    assert ChannelOk(disc, s.conns, s.conns[c].key, s.conns[c].disc, s.channels[s.conns[c].key][s.conns[c].disc]);
  }

  lemma {:induction false} SingleStep(
      received: seq<Message>, ps: seq<Payload>, e: EvalData, last: Message)
    requires ps != [] && received == Singles(Compress(ps)) && received != [] && received[|received| - 1] == last
    ensures last.Single?
    ensures Singles(Compress(ps + if e.error.None? then [PayloadOf(e)] else [])) == received +
              if e.error.None? && e.value != last.payload.value then [Single(PayloadOf(e))] else []
  {
    SinglesStep(ps, PayloadOf(e));
    assert ps + [] == ps;
  }

  /** The first connection of a flag and user receives, while it stays open, the initial value
      followed by all successful evaluations, without adjacent repetitions. */
  lemma FirstConnection<C>(
      disc: User -> Disc, events: seq<Event<C>>, c: C, key: Key, user: User, now: Snapshot, more: seq<Event<C>>)
    requires Legal(events + [Open(c, key, user, now)]) && Legal(events + [Open(c, key, user, now)] + more)
    requires key != ALL_FLAGS && Stays(more, c, key)
    requires forall x :: OpenBy(events, x) ==>
               !(OpenedAs(events, x).Some? && OpenedAs(events, x).value.key == key
                 && disc(OpenedAs(events, x).value.user) == disc(user))
    ensures var t := Run(disc, events + [Open(c, key, user, now)] + more);
            && c in t.conns
            && var first := Payload(now.eval(key, user).value, now.eval(key, user).variationId);
               t.conns[c].received == Singles(Compress([first] + Successes(more, key, user)))
  {
    FirstOpens(disc, events, c, key, user, now);
    SendOnChange(disc, events + [Open(c, key, user, now)], more, c, key, user, PayloadOf(now.eval(key, user)));
  }

  /** A connection that opens a channel is served for its own user, from its first evaluation. */
  lemma FirstOpens<C>(disc: User -> Disc, events: seq<Event<C>>, c: C, key: Key, user: User, now: Snapshot)
    requires Legal(events + [Open(c, key, user, now)])
    requires forall x :: OpenBy(events, x) ==>
               !(OpenedAs(events, x).Some? && OpenedAs(events, x).value.key == key
                 && disc(OpenedAs(events, x).value.user) == disc(user))
    ensures var t := Run(disc, events + [Open(c, key, user, now)]);
            Served(t, c, key, user) && t.conns[c].received == [NewChannel<C>(key, user, now).last]
  {
    var opening := events + [Open(c, key, user, now)];
    assert opening[..|opening| - 1] == events;
    NoChannelYet(disc, events, key, user);
    RunInv(disc, events);
    RunRoster(disc, events, c);
    var s, t := Run(disc, events), Run(disc, opening);
    OpenHolds(disc, s, c, key, user, now, c);
    PutAt(s.channels, key, disc(user), t.channels[key][disc(user)], key, disc(user));
  }

  lemma NoChannelYet<C>(disc: User -> Disc, events: seq<Event<C>>, key: Key, user: User)
    requires Legal(events)
    requires forall x :: OpenBy(events, x) ==>
               !(OpenedAs(events, x).Some? && OpenedAs(events, x).value.key == key
                 && disc(OpenedAs(events, x).value.user) == disc(user))
    ensures !HasChannel(Run(disc, events).channels, key, disc(user))
  {
    RunInv(disc, events);
    if HasChannel(Run(disc, events).channels, key, disc(user)) {
      var c := SomeMember(disc, Run(disc, events), key, disc(user));
      HeldIsOpen(disc, events, c);
      RunRoster(disc, events, c);
    }
  }

  /** What is sent for all flags of one user at the notifications among `events`. */
  function Broadcasts<C>(events: seq<Event<C>>, user: User): seq<Message> {
    if events == [] then [] else Broadcasts(events[..|events| - 1], user) + Broadcast(events[|events| - 1], user)
  }

  function Broadcast<C>(e: Event<C>, user: User): seq<Message> {
    if e.Notify? && e.snapshot.evalAll(user) != map[] then [All(PayloadsOf(e.snapshot.evalAll(user)))] else []
  }

  lemma BroadcastStep<C>(disc: User -> Disc, s: State<C>, e: Event<C>, c: C, user: User)
    requires Inv(disc, s) && Served(s, c, ALL_FLAGS, user)
    requires (e.Open? ==> e.conn !in s.conns) && !(e.Close? && e.conn == c && e.key == ALL_FLAGS)
    ensures var t := Step(disc, s, e);
            Served(t, c, ALL_FLAGS, user) && t.conns[c].received == s.conns[c].received + Broadcast(e, user)
  {
    ServedStep(disc, s, e, c, ALL_FLAGS, user);
    assert ChannelOk(disc, s.conns, ALL_FLAGS, s.conns[c].disc, s.channels[ALL_FLAGS][s.conns[c].disc]);
  }

  lemma LegalPrefix<C>(events: seq<Event<C>>, more: seq<Event<C>>)
    requires more != [] && Legal(events + more)
    ensures var init, e := events + more[..|more| - 1], more[|more| - 1];
            events + more == init + [e] && Legal(init) && (e.Open? ==> OpenedAs(init, e.conn).None?)
  {
  }

  lemma RunSnoc<C>(disc: User -> Disc, events: seq<Event<C>>, e: Event<C>)
    ensures Run(disc, events + [e]) == Step(disc, Run(disc, events), e)
  {
  }

  lemma {:induction false} BroadcastNext<C>(disc: User -> Disc, events: seq<Event<C>>, e: Event<C>, c: C, user: User)
    requires Legal(events) && (e.Open? ==> OpenedAs(events, e.conn).None?)
    requires Served(Run(disc, events), c, ALL_FLAGS, user) && !(e.Close? && e.conn == c && e.key == ALL_FLAGS)
    ensures var t := Run(disc, events + [e]);
            && Served(t, c, ALL_FLAGS, user)
            && t.conns[c].received == Run(disc, events).conns[c].received + Broadcast(e, user)
  {
    RunSnoc(disc, events, e);
    RunInv(disc, events);
    if e.Open? {
      RunRoster(disc, events, e.conn);
    }
    BroadcastStep(disc, Run(disc, events), e, c, user);
  }

  lemma {:induction false} AllFlagsSent<C>(
      disc: User -> Disc, events: seq<Event<C>>, more: seq<Event<C>>, c: C, user: User)
    requires Legal(events + more) && Legal(events) && Stays(more, c, ALL_FLAGS)
    requires Served(Run(disc, events), c, ALL_FLAGS, user)
    ensures var t := Run(disc, events + more);
            && Served(t, c, ALL_FLAGS, user)
            && t.conns[c].received == Run(disc, events).conns[c].received + Broadcasts(more, user)
  {
    if more == [] {
      assert events + more == events;
    } else {
      var init, e := more[..|more| - 1], more[|more| - 1];
      LegalPrefix(events, more);
      AllFlagsSent(disc, events, init, c, user);
      BroadcastNext(disc, events + init, e, c, user);
      Associates(Run(disc, events).conns[c].received, Broadcasts(init, user), Broadcast(e, user));
    }
  }

  /** The nonempty evaluations of all flags for one user at the notifications among `events`. */
  function Evaluations<C>(events: seq<Event<C>>, user: User): seq<map<Key, EvalData>> {
    if events == [] then []
    else
      var e := events[|events| - 1];
      Evaluations(events[..|events| - 1], user)
      + if e.Notify? && e.snapshot.evalAll(user) != map[] then [e.snapshot.evalAll(user)] else []
  }

  /** The message has one payload for each flag, with that flag's own value and variation. */
  ghost predicate Carries(m: Message, flags: map<Key, EvalData>) {
    && m.All? && m.payloads.Keys == flags.Keys
    && forall k :: k in flags ==>
         m.payloads[k].value == flags[k].value && m.payloads[k].variationId == flags[k].variationId
  }

  ghost predicate CarryAll(ms: seq<Message>, evaluations: seq<map<Key, EvalData>>) {
    |ms| == |evaluations| && forall i :: 0 <= i < |ms| ==> Carries(ms[i], evaluations[i])
  }

  lemma PayloadsCarry(flags: map<Key, EvalData>)
    ensures Carries(All(PayloadsOf(flags)), flags)
  {
  }

  lemma {:induction false} BroadcastsCarry<C>(events: seq<Event<C>>, user: User)
    ensures CarryAll(Broadcasts(events, user), Evaluations(events, user))
  {
    hide PayloadsOf, Carries;
    if events != [] {
      BroadcastsCarry(events[..|events| - 1], user);
      var e := events[|events| - 1];
      if e.Notify? {
        PayloadsCarry(e.snapshot.evalAll(user));
      }
    }
  }

  /** While a connection to all flags stays open, it receives every nonempty evaluation, repeated
      or not: one message each, with all flags and their values and variations. */
  lemma AllFlagsHistory<C>(
      disc: User -> Disc, events: seq<Event<C>>, more: seq<Event<C>>, c: C, user: User)
    requires Legal(events + more) && Legal(events) && Stays(more, c, ALL_FLAGS)
    requires Served(Run(disc, events), c, ALL_FLAGS, user)
    ensures Served(Run(disc, events + more), c, ALL_FLAGS, user)
    ensures var before, after := Run(disc, events).conns[c].received, Run(disc, events + more).conns[c].received;
            before <= after && CarryAll(after[|before|..], Evaluations(more, user))
  {
    AllFlagsSent(disc, events, more, c, user);
    BroadcastsCarry(more, user);
    var before, after := Run(disc, events).conns[c].received, Run(disc, events + more).conns[c].received;
    assert after[|before|..] == Broadcasts(more, user);
  }

  /** The first connection of a user to all flags receives the evaluation at its opening, even an
      empty one, and then every nonempty evaluation. */
  lemma FirstToAllFlags<C>(
      disc: User -> Disc, events: seq<Event<C>>, c: C, user: User, now: Snapshot, more: seq<Event<C>>)
    requires Legal(events + [Open(c, ALL_FLAGS, user, now)]) && Legal(events + [Open(c, ALL_FLAGS, user, now)] + more)
    requires Stays(more, c, ALL_FLAGS)
    requires forall x :: OpenBy(events, x) ==>
               !(OpenedAs(events, x).Some? && OpenedAs(events, x).value.key == ALL_FLAGS
                 && disc(OpenedAs(events, x).value.user) == disc(user))
    ensures var t := Run(disc, events + [Open(c, ALL_FLAGS, user, now)] + more);
            && c in t.conns
            && CarryAll(t.conns[c].received, [now.evalAll(user)] + Evaluations(more, user))
  {
    var opening := events + [Open(c, ALL_FLAGS, user, now)];
    FirstOpens(disc, events, c, ALL_FLAGS, user, now);
    AllFlagsHistory(disc, opening, more, c, user);
    PayloadsCarry(now.evalAll(user));
  }

  /** Unless two users of the run collide, each connection is served for its own user. */
  lemma ServedForOwnUser<C>(disc: User -> Disc, events: seq<Event<C>>, c: C)
    requires Legal(events) && OpenBy(events, c) && Uncollided(disc, events)
    ensures OpenedAs(events, c).Some?
    ensures Served(Run(disc, events), c, OpenedAs(events, c).value.key, OpenedAs(events, c).value.user)
  {
    RunInv(disc, events);
    HeldIsOpen(disc, events, c);
    var x := ChannelUser(disc, Run(disc, events), c);
    RunRoster(disc, events, c);
    RunRoster(disc, events, x);
    var i := OpeningIndex(events, x);
    var j := OpeningIndex(events, c);
    assert Collides(disc, events[i].user, events[j].user);
  }

  lemma ChannelUser<C>(disc: User -> Disc, s: State<C>, c: C) returns (x: C)
    requires TableOk(disc, s) && Held(s, c)
    ensures var user := s.channels[s.conns[c].key][s.conns[c].disc].user;
            disc(user) == s.conns[c].disc && x in s.conns && s.conns[x].user == user
  {
    var ch := s.channels[s.conns[c].key][s.conns[c].disc];
    assert ChannelOk(disc, s.conns, s.conns[c].key, s.conns[c].disc, ch);
    x :| x in s.conns && s.conns[x].user == ch.user;
  }

  lemma {:induction false} OpeningIndex<C>(events: seq<Event<C>>, c: C) returns (i: nat)
    requires OpenedAs(events, c).Some?
    ensures i < |events| && events[i].Open? && events[i].user == OpenedAs(events, c).value.user
  {
    var e := events[|events| - 1];
    if e.Open? && e.conn == c {
      i := |events| - 1;
    } else {
      i := OpeningIndex(events[..|events| - 1], c);
    }
  }

  // ----- The shortest wrong count -----

  lemma OpenThenCloseLegal<C>(c: C, key: Key, other: Key, user: User, now: Snapshot)
    ensures var opening, events: seq<Event<C>> := [Open(c, key, user, now)], [Open(c, key, user, now), Close(c, other)];
            Legal(opening) && Legal(events) && Spurious(events) == if key == other then 0 else 1
  {
    var none: seq<Event<C>> := [];
    var opening, events: seq<Event<C>> := [Open(c, key, user, now)], [Open(c, key, user, now), Close(c, other)];
    assert opening[..|opening| - 1] == none && events[..|events| - 1] == opening;
    assert OpenedAs(none, c) == None && Legal(none) && Spurious(none) == 0;
    assert OpenedAs(opening, c) == Some(Opening(key, user)) && OpenBy(opening, c) && Spurious(opening) == 0;
  }

  lemma OnlyOpen<C>(disc: User -> Disc, c: C, key: Key, user: User, now: Snapshot)
    ensures var opening: seq<Event<C>> := [Open(c, key, user, now)];
            && Run(disc, opening).conns.Keys == {c} && Run(disc, opening).conns[c].key == key
            && Inv(disc, Run(disc, opening)) && HeldSet(Run(disc, opening)) == {c}
  {
    var none: seq<Event<C>> := [];
    OpenThenCloseLegal(c, key, key, user, now);
    RunInv(disc, [Open(c, key, user, now)]);
    RunInv(disc, none);
    RunSnoc(disc, none, Open(c, key, user, now));
    assert none + [Open(c, key, user, now)] == [Open(c, key, user, now)];
    assert HeldSet(Run(disc, none)) == {};
    HeldSetStep(disc, Run(disc, none), Open(c, key, user, now));
  }

  /** A connection that is closed under another key than its own stays held but is not counted. */
  lemma WrongKeyMiscounts<C>(disc: User -> Disc, c: C, key: Key, other: Key, user: User, now: Snapshot)
    requires key != other
    ensures var events: seq<Event<C>> := [Open(c, key, user, now), Close(c, other)];
            Legal(events) && Run(disc, events).connCount == 0 && HeldSet(Run(disc, events)) == {c}
  {
    var opening, events: seq<Event<C>> := [Open(c, key, user, now)], [Open(c, key, user, now), Close(c, other)];
    OpenThenCloseLegal(c, key, other, user, now);
    OnlyOpen(disc, c, key, user, now);
    RunSnoc(disc, opening, Close(c, other));
    assert opening + [Close(c, other)] == events;
    HeldSetStep(disc, Run(disc, opening), Close(c, other));
    CounterExact(disc, events);
  }
}
