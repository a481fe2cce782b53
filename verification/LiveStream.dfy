/** The stream as the proxy runs it: connection, channel and stream objects that one event
    loop updates in place. */
module LiveStream {
  import opened Common
  import opened Streams
  import opened StreamInvariants
  import opened StreamNotify

  class Connection {
    const discriminator: Disc
    ghost const key: Key
    ghost const user: User
    var receive: seq<Message>

    constructor (discriminator: Disc, ghost key: Key, ghost user: User)
      ensures this.discriminator == discriminator && this.key == key && this.user == user && receive == []
    {
      this.discriminator := discriminator;
      this.key, this.user := key, user;
      receive := [];
    }

    ghost function View(): Conn
      reads this
    {
      Conn(key, discriminator, user, receive)
    }
  }

  /** Both kinds of channels; the kind is that of the last payload. */
  class Channel {
    ghost const place: Place
    const user: User
    var lastPayload: Message
    var connections: seq<Connection>

    ghost function View(): Chan<Connection>
      reads this
    {
      Chan(user, lastPayload, connections)
    }

    constructor (key: Key, user: User, now: Snapshot, ghost d: Disc)
      ensures View() == NewChannel(key, user, now) && place == (key, d)
    {
      place := (key, d);
      this.user := user;
      if key == ALL_FLAGS {
        lastPayload := All(PayloadsOf(now.evalAll(user)));
      } else {
        lastPayload := Single(PayloadOf(now.eval(key, user)));
      }
      connections := [];
    }

    method AddConnection(conn: Connection)
      modifies `connections
      ensures connections == old(connections) + [conn]
    {
      connections := connections + [conn];
    }

    /** Finds the connection and closes the gap. */
    method RemoveConnection(conn: Connection)
      modifies `connections
      ensures connections == Without(old(connections), conn)
    {
      var index := -1;
      var i := 0;
      while i < |connections| && index == -1
        invariant 0 <= i <= |connections|
        invariant index == -1 ==> forall j :: 0 <= j < i ==> connections[j] != conn
        invariant index != -1 ==> 0 <= index < |connections| && connections[index] == conn
                                  && forall j :: 0 <= j < index ==> connections[j] != conn
        decreases |connections| - i, index == -1
      {
        if connections[i] == conn {
          index := i;
        }
        i := i + 1;
      }
      WithoutAt(connections, conn, index);
      if index != -1 {
        connections := connections[..index] + connections[index + 1..];
      }
    }

    method IsEmpty() returns (r: bool)
      ensures r <==> connections == []
    {
      r := |connections| == 0;
    }

    /** Evaluates anew and sends what changed to every connection. */
    method Notify(now: Snapshot, key: Key) returns (sent: nat)
      requires NoDup(connections)
      modifies `lastPayload, connections
      ensures View() == Notified(old(View()), key, now)
      ensures Sends(old(View()), key, now) ==>
                forall c :: c in connections ==> c.receive == old(c.receive) + [NextMessage(old(View()), key, now)]
      ensures !Sends(old(View()), key, now) ==> forall c :: c in connections ==> c.receive == old(c.receive)
      ensures sent == if Sends(old(View()), key, now) then |connections| else 0
    {
      sent := 0;
      match lastPayload {
        case Single(last) =>
          var val := now.eval(key, user);
          if val.error.Some? {
            return;
          }
          if val.value != last.value {
            lastPayload := Single(PayloadOf(val));
            sent := SendAll();
          }
        case All(_) =>
          var values := now.evalAll(user);
          if values == map[] {
            return;
          }
          lastPayload := All(PayloadsOf(values));
          sent := SendAll();
      }
    }

    method SendAll() returns (sent: nat)
      requires NoDup(connections)
      modifies connections
      ensures forall c :: c in connections ==> c.receive == old(c.receive) + [lastPayload]
      ensures sent == |connections|
    {
      sent := 0;
      for i := 0 to |connections|
        invariant sent == i
        invariant forall j :: 0 <= j < |connections| ==>
                    connections[j].receive == old(connections[j].receive) + if j < i then [lastPayload] else []
      {
        connections[i].receive := connections[i].receive + [lastPayload];
        sent := sent + 1;
      }
    }
  }

  lemma {:induction false} WithoutAt<T>(s: seq<T>, x: T, index: int)
    requires index == -1 ==> forall j :: 0 <= j < |s| ==> s[j] != x
    requires index != -1 ==> 0 <= index < |s| && s[index] == x && forall j :: 0 <= j < index ==> s[j] != x
    ensures Without(s, x) == if index == -1 then s else s[..index] + s[index + 1..]
  {
    if s != [] && s[0] != x {
      WithoutAt(s[1..], x, if index == -1 then -1 else index - 1);
    }
  }

  lemma OpenIs<C>(disc: User -> Disc, s: State<C>, t: State<C>, c: C, key: Key, user: User, now: Snapshot)
    requires var ch := Look(s.channels, key, disc(user)).GetOr(NewChannel(key, user, now));
             && t.channels == Put(s.channels, key, disc(user), ch.(members := ch.members + [c]))
             && t.conns == s.conns[c := Conn(key, disc(user), user, [ch.last])]
    requires t.roster == s.roster + [c] && t.connCount == s.connCount + 1 && t.sent == s.sent + 1
    ensures t == Streams.AddConnection(disc, s, c, key, user, now)
  {
  }

  class Stream {
    ghost const disc: User -> Disc
    var channels: map<Key, map<Disc, Channel>>
    var connCount: int
    /** The sum of all sent-message reports. */
    var sentMessages: nat
    /** Every connection ever established, in order. */
    ghost var roster: seq<Connection>

    ghost function Channels(): set<Channel>
      reads `channels
    {
      set key, d | key in channels && d in channels[key] :: channels[key][d]
    }

    ghost function TableView(): Table<Connection>
      reads `channels, Channels()
    {
      map key | key in channels :: map d | d in channels[key] :: channels[key][d].View()
    }

    ghost function ConnsView(): map<Connection, Conn>
      reads `roster, roster
    {
      map c | c in roster :: c.View()
    }

    ghost function View(): State<Connection>
      reads this, Channels(), roster
    {
      State(TableView(), roster, ConnsView(), connCount, sentMessages)
    }

    predicate Has(key: Key, d: Disc)
      reads `channels
    {
      key in channels && d in channels[key]
    }

    /** Every channel object sits at its own place, hence at one only. */
    ghost predicate Separate()
      reads `channels
    {
      forall k, d :: Has(k, d) ==> channels[k][d].place == (k, d)
    }

    ghost predicate Valid()
      reads this, Channels(), roster
    {
      Separate() && Inv(disc, View())
    }

    constructor (ghost disc: User -> Disc)
      ensures Valid() && this.disc == disc
      ensures View() == State(map[], [], map[], 0, 0)
    {
      this.disc := disc;
      channels, connCount, sentMessages := map[], 0, 0;
      roster := [];
    }

    /** The channel object at a place. */
    ghost function At(key: Key, d: Disc): Option<Channel>
      reads `channels
    {
      if Has(key, d) then Some(channels[key][d]) else None
    }

    ghost function ViewAt(key: Key, d: Disc): Option<Chan<Connection>>
      reads `channels, Channels()
    {
      if Has(key, d) then Some(channels[key][d].View()) else None
    }

    /** Finds the channel, or creates it and its bucket. */
    method FindChannel(key: Key, d: Disc, user: User, now: Snapshot) returns (ch: Channel)
      requires Separate()
      modifies `channels
      ensures Separate() && At(key, d) == Some(ch)
      ensures forall k, e :: !(k == key && e == d) ==> ViewAt(k, e) == old(ViewAt(k, e))
      ensures old(Has(key, d)) ==> old(At(key, d)) == Some(ch)
      ensures !old(Has(key, d)) ==> fresh(ch) && ch.View() == NewChannel(key, user, now)
      ensures old(Dense()) ==> Dense()
    {
      hide NewChannel;
      if key !in channels {
        ch := new Channel(key, user, now, d);
        var bucket: map<Disc, Channel> := map[d := ch];
        channels := channels[key := bucket];
      } else if d !in channels[key] {
        ch := new Channel(key, user, now, d);
        var bucket: map<Disc, Channel> := channels[key];
        channels := channels[key := bucket[d := ch]];
      }
      ch := channels[key][d];
    }

    /** Adds a connection to a channel and replays the channel's last payload to it. */
    method Enter(ch: Channel, conn: Connection, ghost key: Key, ghost d: Disc)
      requires Separate() && At(key, d) == Some(ch)
      modifies `sentMessages, ch`connections, conn`receive
      ensures forall k, e :: !(k == key && e == d) ==> ViewAt(k, e) == old(ViewAt(k, e))
      ensures ch.View() == old(ch.View()).(members := old(ch.connections) + [conn])
      ensures conn.receive == old(conn.receive) + [ch.lastPayload]
      ensures sentMessages == old(sentMessages) + 1
    {
      ch.AddConnection(conn);
      conn.receive := conn.receive + [ch.lastPayload];
      sentMessages := sentMessages + 1;
      forall k, e | !(k == key && e == d)
        ensures ViewAt(k, e) == old(ViewAt(k, e))
      {
        assert Has(k, e) ==> channels[k][e].place != ch.place;
      }
    }

    /** The table once a connection has joined, place by place. */
    method Join(conn: Connection, key: Key, user: User, now: Snapshot) returns (ch: Channel)
      requires Separate() && Dense()
      modifies `channels, `sentMessages, Channels()`connections, conn`receive
      ensures Dense()
      ensures Separate() && At(key, conn.discriminator) == Some(ch)
      ensures forall k, e :: !(k == key && e == conn.discriminator) ==> ViewAt(k, e) == old(ViewAt(k, e))
      ensures var was := old(ViewAt(key, conn.discriminator)).GetOr(NewChannel(key, user, now));
              ch.View() == was.(members := was.members + [conn])
      ensures conn.receive == old(conn.receive) + [ch.lastPayload]
      ensures sentMessages == old(sentMessages) + 1
    {
      ch := FindChannel(key, conn.discriminator, user, now);
      assert ch in old(Channels()) || fresh(ch);
      Enter(ch, conn, key, conn.discriminator);
    }

    ghost predicate Dense()
      reads `channels
    {
      forall key :: key in channels ==> channels[key] != map[]
    }

    lemma Seen(t: Table<Connection>)
      requires Dense() && NoEmptyBucket(t)
      requires forall k, e :: ViewAt(k, e) == Look(t, k, e)
      ensures TableView() == t
    {
      var v := TableView();
      forall k | k in v
        ensures v[k] != map[]
      {
        assert channels[k].Keys != {};
        var e :| e in channels[k].Keys;
        assert e in v[k];
      }
      forall k, e
        ensures Look(v, k, e) == Look(t, k, e)
      {
        assert ViewAt(k, e) == Look(t, k, e);
      }
      SameTable(v, t);
    }

    lemma LooksAt(k: Key, e: Disc)
      ensures ViewAt(k, e) == Look(TableView(), k, e)
    {
    }

    lemma LooksEverywhere()
      ensures forall k, e :: ViewAt(k, e) == Look(TableView(), k, e)
    {
      forall k, e
        ensures ViewAt(k, e) == Look(TableView(), k, e)
      {
        LooksAt(k, e);
      }
    }

    lemma DenseIs()
      requires NoEmptyBucket(TableView())
      ensures Dense()
    {
      forall k | k in channels
        ensures channels[k] != map[]
      {
        assert TableView()[k].Keys != {};
        var e :| e in TableView()[k].Keys;
        assert e in channels[k];
      }
    }

    /** The table once a connection has joined. */
    method AddToTable(conn: Connection, key: Key, user: User, now: Snapshot) returns (ch: Channel)
      requires Separate() && NoEmptyBucket(TableView())
      modifies `channels, `sentMessages, Channels()`connections, conn`receive
      ensures Separate()
      ensures var was := Look(old(TableView()), key, conn.discriminator).GetOr(NewChannel(key, user, now));
              && ch.lastPayload == was.last
              && TableView() == Put(old(TableView()), key, conn.discriminator, was.(members := was.members + [conn]))
      ensures conn.receive == old(conn.receive) + [ch.lastPayload]
      ensures sentMessages == old(sentMessages) + 1
    {
      ghost var before := TableView();
      DenseIs();
      LooksEverywhere();
      ch := Join(conn, key, user, now);
      TableIsPut(before, key, conn.discriminator, ch.View());
    }

    /** The loop's handling of a new connection. */
    method Establish(conn: Connection, key: Key, user: User, now: Snapshot)
      requires Valid() && conn !in roster
      requires conn.View() == Conn(key, disc(user), user, [])
      modifies `channels, `connCount, `sentMessages, `roster, Channels()`connections, conn`receive
      ensures View() == Streams.AddConnection(disc, old(View()), conn, key, user, now)
      ensures Valid()
    {
      ghost var before := View();
      Admit(conn, key, user, now);
      StepKeepsInv(disc, before, Open(conn, key, user, now));
    }

    method Admit(conn: Connection, key: Key, user: User, now: Snapshot)
      requires Separate() && NoEmptyBucket(TableView()) && conn !in roster
      requires conn.View() == Conn(key, disc(user), user, [])
      modifies `channels, `connCount, `sentMessages, `roster, Channels()`connections, conn`receive
      ensures View() == Streams.AddConnection(disc, old(View()), conn, key, user, now)
      ensures Separate()
    {
      ghost var before := View();
      var ch := AddToTable(conn, key, user, now);
      label Joined:
      connCount := connCount + 1;
      roster := roster + [conn];
      TableUnchanged@Joined();
      RosterIs(before.conns, conn, Conn(key, disc(user), user, [ch.lastPayload]));
      OpenIs(disc, before, View(), conn, key, user, now);
    }

    twostate lemma TableUnchanged()
      requires channels == old(channels) && forall c :: c in Channels() ==> c.View() == old(c.View())
      ensures TableView() == old(TableView())
    {
      var a, b := TableView(), old(TableView());
      forall k | k in channels
        ensures a[k] == b[k]
      {
        forall e | e in channels[k]
          ensures a[k][e] == b[k][e]
        {
          assert channels[k][e] in Channels();
        }
        assert a[k].Keys == b[k].Keys;
      }
      assert a.Keys == b.Keys;
    }

    lemma RosterIs(before: map<Connection, Conn>, conn: Connection, now: Conn)
      requires roster != [] && roster[|roster| - 1] == conn && conn !in before && conn.View() == now
      requires before.Keys == Elems(roster[..|roster| - 1])
      requires forall i :: 0 <= i < |roster| - 1 ==> roster[i].View() == before[roster[i]]
      ensures ConnsView() == before[conn := now]
    {
    }

    /** The table's view after one place changed. */
    lemma TableIsPut(before: Table<Connection>, key: Key, d: Disc, ch: Chan<Connection>)
      requires ViewAt(key, d) == Some(ch) && Dense() && NoEmptyBucket(before)
      requires forall k, e :: !(k == key && e == d) ==> ViewAt(k, e) == Look(before, k, e)
      ensures TableView() == Put(before, key, d, ch)
    {
      forall k, e
        ensures ViewAt(k, e) == Look(Put(before, key, d, ch), k, e)
      {
        PutAt(before, key, d, ch, k, e);
      }
      PutAt(before, key, d, ch, key, d);
      Seen(Put(before, key, d, ch));
    }

    // ----- A closed connection -----

    /** Takes a connection out of a channel. */
    method TakeOut(ch: Channel, conn: Connection, ghost key: Key, ghost d: Disc)
      requires Separate() && At(key, d) == Some(ch)
      modifies ch`connections
      ensures forall k, e :: !(k == key && e == d) ==> ViewAt(k, e) == old(ViewAt(k, e))
      ensures ch.View() == old(ch.View()).(members := Without(old(ch.connections), conn))
    {
      ch.RemoveConnection(conn);
      forall k, e | !(k == key && e == d)
        ensures ViewAt(k, e) == old(ViewAt(k, e))
      {
        assert Has(k, e) ==> channels[k][e].place != ch.place;
      }
    }

    /** Deletes a channel, and its bucket once that is empty. */
    method Delete(key: Key, d: Disc)
      requires Has(key, d)
      modifies `channels
      ensures channels == Drop(old(channels), key, d)
    {
      var bucket := channels[key] - {d};
      channels := channels[key := bucket];
      if |bucket| == 0 {
        channels := channels - {key};
      }
    }

    method DeleteChannel(key: Key, d: Disc)
      requires Separate() && Dense() && Has(key, d)
      modifies `channels
      ensures Separate() && Dense() && !Has(key, d)
      ensures forall k, e :: !(k == key && e == d) ==> ViewAt(k, e) == old(ViewAt(k, e))
    {
      ghost var before := channels;
      Delete(key, d);
      DropAt(before, key, d, key, d);
      forall k, e
        ensures Has(k, e) <==> !(k == key && e == d) && HasChannel(before, k, e)
        ensures Has(k, e) ==> channels[k][e] == before[k][e]
      {
        DropAt(before, key, d, k, e);
      }
    }

    method Leave(conn: Connection, key: Key)
      requires Separate() && Dense()
      modifies `channels, Channels()`connections
      ensures Separate() && Dense()
      ensures forall k, e :: !(k == key && e == conn.discriminator) ==> ViewAt(k, e) == old(ViewAt(k, e))
      ensures ViewAt(key, conn.discriminator) == LeftBy(old(ViewAt(key, conn.discriminator)), conn)
    {
      var d := conn.discriminator;
      if key !in channels {
        return;
      }
      if d !in channels[key] {
        return;
      }
      var ch := channels[key][d];
      assert ch in Channels();
      TakeOut(ch, conn, key, d);
      var empty := ch.IsEmpty();
      if empty {
        DeleteChannel(key, d);
      }
    }

    method RemoveFromTable(conn: Connection, key: Key)
      requires Separate() && NoEmptyBucket(TableView())
      modifies `channels, Channels()`connections
      ensures Separate()
      ensures TableView() == TableWithout(old(TableView()), conn, key, conn.discriminator)
    {
      ghost var before := TableView();
      DenseIs();
      LooksEverywhere();
      Leave(conn, key);
      ghost var want := TableWithout(before, conn, key, conn.discriminator);
      forall k, e
        ensures ViewAt(k, e) == Look(want, k, e)
      {
        TableWithoutAt(before, conn, key, conn.discriminator, k, e);
      }
      TableWithoutAt(before, conn, key, conn.discriminator, key, conn.discriminator);
      Seen(want);
    }

    /** The loop's handling of a closed connection; the counter goes down in any case. */
    method Release(conn: Connection, key: Key)
      requires Valid() && conn in roster
      modifies `channels, `connCount, Channels()`connections
      ensures View() == Streams.RemoveConnection(old(View()), conn, key)
      ensures Valid()
    {
      hide Put;
      ghost var before := View();
      RemoveFromTable(conn, key);
      label Removed:
      connCount := connCount - 1;
      TableUnchanged@Removed();
      assert before.conns[conn].disc == conn.discriminator;
      CloseIs(before, View(), conn, key);
      StepKeepsInv(disc, before, Streams.Close(conn, key));
    }

    // ----- A notification -----

    /** One channel is notified; every other channel stays as it is. */
    method NotifyPlace(ch: Channel, key: Key, ghost d: Disc, now: Snapshot)
      requires Separate() && At(key, d) == Some(ch) && NoDup(ch.connections)
      modifies ch`lastPayload, ch.connections, `sentMessages
      ensures forall k, e :: !(k == key && e == d) ==> ViewAt(k, e) == old(ViewAt(k, e))
      ensures ch.View() == Notified(old(ch.View()), key, now)
      ensures sentMessages == old(sentMessages) + |MessagesOf(old(ch.View()), key, now)| * |ch.connections|
      ensures var news := MessagesOf(old(ch.View()), key, now);
              forall c :: c in old(ch.connections) ==> c.receive == old(c.receive) + news
    {
      var count := ch.Notify(now, key);
      sentMessages := sentMessages + count;
      forall k, e | !(k == key && e == d)
        ensures ViewAt(k, e) == old(ViewAt(k, e))
      {
        assert Has(k, e) ==> channels[k][e].place != ch.place;
      }
    }

    /** The same, seen on the whole table. */
    method NotifyInTable(ch: Channel, key: Key, ghost d: Disc, now: Snapshot)
      requires Separate() && NoEmptyBucket(TableView()) && At(key, d) == Some(ch) && NoDup(ch.connections)
      modifies ch`lastPayload, ch.connections, `sentMessages
      ensures TableView() == Put(old(TableView()), key, d, Notified(old(ch.View()), key, now))
      ensures sentMessages == old(sentMessages) + |MessagesOf(old(ch.View()), key, now)| * |ch.connections|
      ensures var news := MessagesOf(old(ch.View()), key, now);
              forall c :: c in old(ch.connections) ==> c.receive == old(c.receive) + news
    {
      hide Put, Notified, NoEmptyBucket, MessagesOf;
      ghost var before, was := TableView(), ch.View();
      DenseIs();
      LooksEverywhere();
      NotifyPlace(ch, key, d, now);
      TableIsPut(before, key, d, Notified(was, key, now));
    }

    /** The same, seen on all connections. */
    method NotifyMembers(ch: Channel, key: Key, ghost d: Disc, now: Snapshot)
      requires Separate() && NoEmptyBucket(TableView()) && At(key, d) == Some(ch)
      requires NoDup(ch.connections)
      modifies ch`lastPayload, ch.connections, `sentMessages
      ensures TableView() == Put(old(TableView()), key, d, Notified(old(ch.View()), key, now))
      ensures sentMessages == old(sentMessages) + |MessagesOf(old(ch.View()), key, now)| * |ch.connections|
      ensures ConnsView() == Informed(old(ConnsView()), ch.connections, MessagesOf(old(ch.View()), key, now))
    {
      hide TableView, Put, Notified, MessagesOf;
      ghost var before, news := ConnsView(), MessagesOf(ch.View(), key, now);
      NotifyInTable(ch, key, d, now);
      forall c | c in before
        ensures c.receive == before[c].received + if c in ch.connections then news else []
      {
        assert before[c].received + [] == before[c].received;
      }
      RosterSent(before, ch.connections, news);
    }

    /** The same, seen on the whole stream. */
    method NotifyChannel(ch: Channel, key: Key, ghost d: Disc, now: Snapshot)
      requires Separate() && NoEmptyBucket(TableView()) && At(key, d) == Some(ch)
      requires NoDup(ch.connections)
      modifies ch`lastPayload, ch.connections, `sentMessages
      ensures View() == NotifyOne(old(View()), key, d, now)
    {
      ghost var before := View();
      NotifyMembers(ch, key, d, now);
      NotifyOneIs(before, View(), key, d, now);
    }

    /** One more channel of a notification that is under way. */
    method NotifyNext(
        ghost before: State<Connection>, ghost all: set<Channel>, ghost done: set<Place>, key: Key, d: Disc,
        now: Snapshot)
      requires all == Channels() && Inv(disc, before) && Separate() && Has(key, d) && (key, d) !in done
      requires View() == Part(before, now, done)
      modifies all`lastPayload, before.conns.Keys, `sentMessages
      ensures View() == Part(before, now, done + {(key, d)})
    {
      var ch := channels[key][d];
      PartBuckets(before.channels, now, done);
      MembersAsBefore(before, done, key, d, now);
      PartStep(disc, before, now, done, key, d);
      assert ch in all;
      NotifyChannel(ch, key, d, now);
    }

    /** All channels of one bucket, in whatever order the map is ranged over. */
    method NotifyBucket(
        ghost before: State<Connection>, ghost all: set<Channel>, ghost done: set<Place>, key: Key, now: Snapshot)
      requires all == Channels() && Inv(disc, before) && Separate() && key in channels && forall e :: (key, e) !in done
      requires View() == Part(before, now, done)
      modifies all`lastPayload, before.conns.Keys, `sentMessages
      ensures View() == Part(before, now, done + PlacesUnder(key, channels[key].Keys))
    {
      hide *;
      var todo, seen := channels[key].Keys, {};
      NoPlaces(channels, done, key);
      while todo != {}
        invariant todo + seen == channels[key].Keys && todo !! seen
        invariant View() == Part(before, now, done + PlacesUnder(key, seen))
        decreases |todo|
      {
        var d :| d in todo;
        MorePlaces(done, key, seen, d);
        NotifyNext(before, all, done + PlacesUnder(key, seen), key, d, now);
        todo, seen := todo - {d}, seen + {d};
      }
    }

    /** One more bucket of a notification that is under way. */
    method NotifyNextBucket(
        ghost before: State<Connection>, ghost all: set<Channel>, ghost seen: set<Key>, key: Key, now: Snapshot)
      requires all == Channels() && Inv(disc, before) && Separate() && key in channels.Keys - seen
      requires View() == Part(before, now, PlacesIn(channels, seen))
      modifies all`lastPayload, before.conns.Keys, `sentMessages
      ensures View() == Part(before, now, PlacesIn(channels, seen + {key}))
    {
      hide *;
      MoreBuckets(channels, seen, key);
      NotifyBucket(before, all, PlacesIn(channels, seen), key, now);
    }

    /** All buckets, in whatever order the map is ranged over. */
    method NotifyBuckets(ghost before: State<Connection>, ghost all: set<Channel>, now: Snapshot)
      requires all == Channels() && Inv(disc, before) && Separate() && View() == before
      modifies all`lastPayload, before.conns.Keys, `sentMessages
      ensures View() == Part(before, now, PlacesIn(channels, channels.Keys))
    {
      hide *;
      NoneDone(before, now);
      var rest, seen := channels.Keys, {};
      NoPlaces(channels, {}, "");
      while rest != {}
        invariant rest + seen == channels.Keys && rest !! seen
        invariant View() == Part(before, now, PlacesIn(channels, seen))
        decreases |rest|
      {
        var key :| key in rest;
        NotifyNextBucket(before, all, seen, key, now);
        rest, seen := rest - {key}, seen + {key};
      }
    }

    /** The loop's handling of a changed configuration. */
    method NotifyConnections(now: Snapshot)
      requires Valid()
      modifies Channels()`lastPayload, roster, `sentMessages
      ensures View() == Streams.NotifyConnections(old(View()), now)
      ensures Valid()
    {
      hide Inv, Part;
      ghost var before := View();
      NotifyBuckets(before, Channels(), now);
      assert PlacesIn(channels, channels.Keys) == Places(before.channels);
      AllDone(before, now, Places(before.channels));
      StepKeepsInv(disc, before, Streams.Notify(now));
    }

    lemma {:induction false} MembersAsBefore(
        before: State<Connection>, done: set<Place>, key: Key, d: Disc, now: Snapshot)
      requires Inv(disc, before) && View() == Part(before, now, done) && Has(key, d)
      ensures HasChannel(before.channels, key, d)
      ensures NoDup(channels[key][d].connections)
      ensures forall c :: c in channels[key][d].connections ==> c in before.conns.Keys
    {
      LooksAt(key, d);
      assert ChannelOk(disc, before.conns, key, d, before.channels[key][d]);
      assert channels[key][d].connections == before.channels[key][d].members;
      forall c | c in channels[key][d].connections
        ensures c in before.conns.Keys
      {
      }
    }

    lemma RosterSent(before: map<Connection, Conn>, members: seq<Connection>, news: seq<Message>)
      requires before.Keys == Elems(roster)
      requires forall c :: c in before ==> before[c] == c.View().(received := before[c].received)
      requires forall c :: c in before ==> c.receive == before[c].received + if c in members then news else []
      ensures ConnsView() == Informed(before, members, news)
    {
      forall c | c in before && c !in members
        ensures c.View() == before[c]
      {
        assert before[c].received + [] == before[c].received;
      }
    }
  }

  lemma NotifyOneIs(s: State<Connection>, t: State<Connection>, key: Key, d: Disc, now: Snapshot)
    requires HasChannel(s.channels, key, d)
    requires var ch := s.channels[key][d];
             && t.channels == Put(s.channels, key, d, Notified(ch, key, now))
             && t.sent == s.sent + |MessagesOf(ch, key, now)| * |ch.members|
             && t.conns == Informed(s.conns, ch.members, MessagesOf(ch, key, now))
    requires t.roster == s.roster && t.connCount == s.connCount
    ensures t == NotifyOne(s, key, d, now)
  {
    var ch := s.channels[key][d];
    if !Sends(ch, key, now) {
      assert s.channels[key][d := ch] == s.channels[key];
      assert t.channels == s.channels;
      forall c | c in s.conns
        ensures t.conns[c] == s.conns[c]
      {
        assert s.conns[c].received + [] == s.conns[c].received;
      }
      assert t.conns == s.conns;
    }
  }

  ghost function PlacesUnder(key: Key, discs: set<Disc>): set<Place> {
    set d | d in discs :: (key, d)
  }

  ghost function PlacesIn<V>(t: map<Key, map<Disc, V>>, keys: set<Key>): set<Place> {
    set key, d | key in t && key in keys && d in t[key] :: (key, d)
  }

  lemma NoPlaces<V>(t: map<Key, map<Disc, V>>, done: set<Place>, key: Key)
    ensures done + PlacesUnder(key, {}) == done && PlacesIn(t, {}) == {}
  {
  }

  lemma MorePlaces(done: set<Place>, key: Key, seen: set<Disc>, d: Disc)
    ensures done + PlacesUnder(key, seen + {d}) == done + PlacesUnder(key, seen) + {(key, d)}
    ensures d !in seen && (key, d) !in done ==> (key, d) !in done + PlacesUnder(key, seen)
  {
  }

  lemma MoreBuckets<V>(t: map<Key, map<Disc, V>>, seen: set<Key>, key: Key)
    requires key in t
    ensures PlacesIn(t, seen + {key}) == PlacesIn(t, seen) + PlacesUnder(key, t[key].Keys)
    ensures key !in seen ==> forall e :: (key, e) !in PlacesIn(t, seen)
  {
  }

  /** What is left of a channel without `conn`. */
  ghost function LeftBy(was: Option<Chan<Connection>>, conn: Connection): Option<Chan<Connection>> {
    if was.None? || Without(was.value.members, conn) == [] then None
    else Some(was.value.(members := Without(was.value.members, conn)))
  }

  ghost function TableWithout(t: Table<Connection>, conn: Connection, key: Key, d: Disc): Table<Connection> {
    if !HasChannel(t, key, d) then t
    else
      var left := Without(t[key][d].members, conn);
      if left == [] then Drop(t, key, d) else Put(t, key, d, t[key][d].(members := left))
  }

  lemma TableWithoutAt(t: Table<Connection>, conn: Connection, key: Key, d: Disc, k: Key, e: Disc)
    requires NoEmptyBucket(t)
    ensures NoEmptyBucket(TableWithout(t, conn, key, d))
    ensures Look(TableWithout(t, conn, key, d), k, e)
         == if k == key && e == d then LeftBy(Look(t, k, e), conn) else Look(t, k, e)
  {
    if HasChannel(t, key, d) {
      var left := Without(t[key][d].members, conn);
      if left == [] {
        DropAt(t, key, d, k, e);
      } else {
        PutAt(t, key, d, t[key][d].(members := left), k, e);
      }
    }
  }

  lemma CloseIs(s: State<Connection>, t: State<Connection>, c: Connection, key: Key)
    requires c in s.conns && t.channels == TableWithout(s.channels, c, key, s.conns[c].disc)
    requires t.conns == s.conns && t.roster == s.roster && t.connCount == s.connCount - 1 && t.sent == s.sent
    ensures t == Streams.RemoveConnection(s, c, key)
  {
  }
}
