/** Notifying channel after channel, in any order, is notifying all of them at once. */
module StreamNotify {
  import opened Common
  import opened Streams
  import opened StreamInvariants

  /** One channel's notification: every member is sent the message, if there is one. */
  function NotifyOne<C(==)>(s: State<C>, key: Key, d: Disc, now: Snapshot): State<C>
    requires HasChannel(s.channels, key, d)
  {
    var ch := s.channels[key][d];
    if Sends(ch, key, now) then
      s.(channels := Put(s.channels, key, d, Notified(ch, key, now)),
         conns := Informed(s.conns, ch.members, [NextMessage(ch, key, now)]),
         sent := s.sent + |ch.members|)
    else s
  }

  /** All members of a channel are sent `news`. */
  function Informed<C(==)>(conns: map<C, Conn>, members: seq<C>, news: seq<Message>): map<C, Conn> {
    map c | c in conns :: if c in members then conns[c].(received := conns[c].received + news) else conns[c]
  }

  type Place = (Key, Disc)

  ghost function Places<C>(t: Table<C>): set<Place> {
    set key, d | key in t && d in t[key] :: (key, d)
  }

  // ----- Some channels notified, the others not yet -----

  ghost function PartTable<C>(t: Table<C>, now: Snapshot, done: set<Place>): Table<C> {
    map key | key in t :: map d | d in t[key] ::
      if (key, d) in done then Notified(t[key][d], key, now) else t[key][d]
  }

  ghost function PartNews<C>(s: State<C>, c: C, now: Snapshot, done: set<Place>): seq<Message>
    requires c in s.conns
  {
    if (s.conns[c].key, s.conns[c].disc) in done then News(s, c, now) else []
  }

  ghost function PartConns<C>(s: State<C>, now: Snapshot, done: set<Place>): map<C, Conn> {
    map c | c in s.conns :: s.conns[c].(received := s.conns[c].received + PartNews(s, c, now, done))
  }

  ghost function PartCount<C>(s: State<C>, roster: seq<C>, now: Snapshot, done: set<Place>): nat {
    if roster == [] then 0
    else
      var c := roster[|roster| - 1];
      PartCount(s, roster[..|roster| - 1], now, done) + if c in s.conns then |PartNews(s, c, now, done)| else 0
  }

  ghost function Part<C>(s: State<C>, now: Snapshot, done: set<Place>): State<C> {
    s.(channels := PartTable(s.channels, now, done),
       conns := PartConns(s, now, done),
       sent := s.sent + PartCount(s, s.roster, now, done))
  }

  lemma {:induction false} NoneCount<C>(s: State<C>, roster: seq<C>, now: Snapshot)
    ensures PartCount(s, roster, now, {}) == 0
  {
    if roster != [] {
      NoneCount(s, roster[..|roster| - 1], now);
    }
  }

  lemma NoneDone<C>(s: State<C>, now: Snapshot)
    ensures Part(s, now, {}) == s
  {
    NoneCount(s, s.roster, now);
    forall c | c in s.conns
      ensures PartConns(s, now, {})[c] == s.conns[c]
    {
      assert s.conns[c].received + [] == s.conns[c].received;
    }
    forall key | key in s.channels
      ensures PartTable(s.channels, now, {})[key] == s.channels[key]
    {
    }
    assert PartTable(s.channels, now, {}) == s.channels;
    assert PartConns(s, now, {}) == s.conns;
  }

  lemma PartBuckets<C>(t: Table<C>, now: Snapshot, done: set<Place>)
    requires NoEmptyBucket(t)
    ensures NoEmptyBucket(PartTable(t, now, done))
  {
  }

  lemma {:induction false} AllCount<C>(s: State<C>, roster: seq<C>, now: Snapshot, done: set<Place>)
    requires done == Places(s.channels)
    ensures PartCount(s, roster, now, done) == NewsCount(s, roster, now)
  {
    if roster != [] {
      AllCount(s, roster[..|roster| - 1], now, done);
    }
  }

  lemma {:induction false} AllDone<C>(s: State<C>, now: Snapshot, done: set<Place>)
    requires done == Places(s.channels)
    ensures Part(s, now, done) == NotifyConnections(s, now)
  {
    AllCount(s, s.roster, now, done);
    forall key | key in s.channels
      ensures PartTable(s.channels, now, done)[key] == NotifiedTable(s.channels, now)[key]
    {
    }
    assert PartTable(s.channels, now, done) == NotifiedTable(s.channels, now);
    assert PartConns(s, now, done) == NotifiedConns(s, now);
  }

  // ----- One more channel -----

  ghost function CountIn<C>(roster: seq<C>, some: set<C>): nat {
    if roster == [] then 0
    else CountIn(roster[..|roster| - 1], some) + if roster[|roster| - 1] in some then 1 else 0
  }

  lemma {:induction false} CountInIs<C>(roster: seq<C>, some: set<C>)
    requires NoDup(roster) && some <= Elems(roster)
    ensures CountIn(roster, some) == |some|
  {
    if roster == [] {
      assert some == {};
    } else {
      var init, last := roster[..|roster| - 1], roster[|roster| - 1];
      Snoc(roster);
      CountInIs(init, some - {last});
      CountInSame(init, some, last);
    }
  }

  lemma {:induction false} CountInSame<C>(roster: seq<C>, some: set<C>, x: C)
    requires x !in Elems(roster)
    ensures CountIn(roster, some) == CountIn(roster, some - {x})
  {
    if roster != [] {
      Snoc(roster);
      assert Elems(roster[..|roster| - 1]) <= Elems(roster) by {
        assert roster == roster[..|roster| - 1] + [roster[|roster| - 1]];
      }
      assert roster[|roster| - 1] in Elems(roster);
      CountInSame(roster[..|roster| - 1], some, x);
    }
  }

  /** The place's own members are the ones whose news the place adds. */
  lemma {:induction false} NewsHere<C>(
      disc: User -> Disc, s: State<C>, now: Snapshot, done: set<Place>, key: Key, d: Disc, c: C)
    requires TableOk(disc, s) && HasChannel(s.channels, key, d) && (key, d) !in done && c in s.conns
    ensures var ch := s.channels[key][d];
            PartNews(s, c, now, done + {(key, d)}) ==
              if c in ch.members && Sends(ch, key, now) then [NextMessage(ch, key, now)] else PartNews(s, c, now, done)
    ensures c in s.channels[key][d].members ==> PartNews(s, c, now, done) == []
  {
    hide TableOk;
    if c in s.channels[key][d].members {
      MemberNews(disc, s, key, d, now, c);
    }
  }

  lemma {:induction false} CountMore<C>(
      disc: User -> Disc, s: State<C>, roster: seq<C>, now: Snapshot, done: set<Place>, key: Key, d: Disc)
    requires TableOk(disc, s) && HasChannel(s.channels, key, d) && (key, d) !in done
    requires forall c :: c in roster ==> c in s.conns
    ensures PartCount(s, roster, now, done + {(key, d)}) == PartCount(s, roster, now, done)
              + if Sends(s.channels[key][d], key, now) then CountIn(roster, Elems(s.channels[key][d].members)) else 0
  {
    if roster != [] {
      CountMore(disc, s, roster[..|roster| - 1], now, done, key, d);
      NewsHere(disc, s, now, done, key, d, roster[|roster| - 1]);
    }
  }

  lemma MembersCounted<C>(disc: User -> Disc, s: State<C>, key: Key, d: Disc)
    requires Inv(disc, s) && HasChannel(s.channels, key, d)
    ensures CountIn(s.roster, Elems(s.channels[key][d].members)) == |s.channels[key][d].members|
  {
    var ch := s.channels[key][d];
    assert ChannelOk(disc, s.conns, key, d, ch);
    Distinct(ch.members);
    forall c | c in Elems(ch.members)
      ensures c in Elems(s.roster)
    {
    }
    CountInIs(s.roster, Elems(ch.members));
  }

  lemma PartConnAt<C>(disc: User -> Disc, s: State<C>, now: Snapshot, done: set<Place>, key: Key, d: Disc, c: C)
    requires TableOk(disc, s) && HasChannel(s.channels, key, d) && (key, d) !in done && c in s.conns
    ensures var ch, conn := s.channels[key][d], PartConns(s, now, done)[c];
            PartConns(s, now, done + {(key, d)})[c] ==
              if c in ch.members && Sends(ch, key, now)
              then conn.(received := conn.received + [NextMessage(ch, key, now)]) else conn
  {
    NewsHere(disc, s, now, done, key, d, c);
    assert s.conns[c].received + [] == s.conns[c].received;
  }

  lemma SameMap<K, V>(a: map<K, V>, b: map<K, V>)
    requires a.Keys == b.Keys && forall k :: k in a ==> a[k] == b[k]
    ensures a == b
  {
  }

  lemma PartConnsStep<C>(disc: User -> Disc, s: State<C>, now: Snapshot, done: set<Place>, key: Key, d: Disc)
    requires TableOk(disc, s) && HasChannel(s.channels, key, d) && (key, d) !in done
    ensures var ch := s.channels[key][d];
            PartConns(s, now, done + {(key, d)}) ==
              if Sends(ch, key, now) then Informed(PartConns(s, now, done), ch.members, [NextMessage(ch, key, now)])
              else PartConns(s, now, done)
  {
    var ch, after := s.channels[key][d], PartConns(s, now, done + {(key, d)});
    var want := if Sends(ch, key, now) then Informed(PartConns(s, now, done), ch.members, [NextMessage(ch, key, now)])
                else PartConns(s, now, done);
    forall c | c in s.conns
      ensures after[c] == want[c]
    {
      PartConnAt(disc, s, now, done, key, d, c);
    }
    SameMap(after, want);
  }

  lemma PartTableStep<C>(t: Table<C>, now: Snapshot, done: set<Place>, key: Key, d: Disc)
    requires HasChannel(t, key, d) && (key, d) !in done
    ensures HasChannel(PartTable(t, now, done), key, d) && PartTable(t, now, done)[key][d] == t[key][d]
    ensures PartTable(t, now, done + {(key, d)}) ==
              if Sends(t[key][d], key, now) then Put(PartTable(t, now, done), key, d, Notified(t[key][d], key, now))
              else PartTable(t, now, done)
  {
    var a, b := PartTable(t, now, done + {(key, d)}), PartTable(t, now, done);
    var want := if Sends(t[key][d], key, now) then Put(b, key, d, Notified(t[key][d], key, now)) else b;
    assert a.Keys == want.Keys;
    forall k | k in t
      ensures a[k] == want[k]
    {
      assert a[k].Keys == want[k].Keys;
      forall e | e in t[k]
        ensures a[k][e] == want[k][e]
      {
        assert (k, e) in done + {(key, d)} <==> (k, e) in done || (k == key && e == d);
      }
    }
  }

  /** Notifying a channel that was not notified yet. */
  lemma PartStep<C>(disc: User -> Disc, s: State<C>, now: Snapshot, done: set<Place>, key: Key, d: Disc)
    requires Inv(disc, s) && HasChannel(s.channels, key, d) && (key, d) !in done
    ensures HasChannel(Part(s, now, done).channels, key, d)
    ensures NotifyOne(Part(s, now, done), key, d, now) == Part(s, now, done + {(key, d)})
  {
    PartTableStep(s.channels, now, done, key, d);
    PartConnsStep(disc, s, now, done, key, d);
    CountMore(disc, s, s.roster, now, done, key, d);
    MembersCounted(disc, s, key, d);
  }
}
