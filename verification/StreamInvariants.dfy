/** What every event of a stream keeps. */
module StreamInvariants {
  import opened Common
  import opened Streams

  ghost predicate Suffix<T>(a: seq<T>, b: seq<T>) {
    |a| <= |b| && b[|b| - |a|..] == a
  }

  /** A channel is nonempty, of the right kind, and shared by connections that belong to it;
      each of them last received the channel's last payload, and the history of a later
      joiner is a suffix of that of an earlier one. */
  ghost predicate ChannelOk<C>(disc: User -> Disc, conns: map<C, Conn>, key: Key, d: Disc, ch: Chan<C>) {
    && ch.members != [] && NoDup(ch.members)
    && (ch.last.All? <==> key == ALL_FLAGS)
    && disc(ch.user) == d
    && (exists c :: c in conns && conns[c].user == ch.user)
    && (forall c :: c in ch.members ==> c in conns && conns[c].key == key && conns[c].disc == d)
    && (forall c :: c in ch.members ==>
          conns[c].received != [] && conns[c].received[|conns[c].received| - 1] == ch.last)
    && (forall i, j :: 0 <= i < j < |ch.members| ==>
          Suffix(conns[ch.members[j]].received, conns[ch.members[i]].received))
  }

  ghost predicate TableOk<C>(disc: User -> Disc, s: State<C>) {
    && NoEmptyBucket(s.channels)
    && (forall key, d :: HasChannel(s.channels, key, d) ==> ChannelOk(disc, s.conns, key, d, s.channels[key][d]))
  }

  function Total<C(==)>(roster: seq<C>, conns: map<C, Conn>): nat {
    if roster == [] then 0
    else
      var c := roster[|roster| - 1];
      Total(roster[..|roster| - 1], conns) + if c in conns then |conns[c].received| else 0
  }

  ghost predicate ConnsOk<C>(disc: User -> Disc, s: State<C>) {
    && NoDup(s.roster)
    && s.conns.Keys == Elems(s.roster)
    && (forall c :: c in s.conns ==> s.conns[c].disc == disc(s.conns[c].user))
    && s.sent == Total(s.roster, s.conns)
  }

  ghost predicate Inv<C>(disc: User -> Disc, s: State<C>) {
    TableOk(disc, s) && ConnsOk(disc, s)
  }

  // ----- Opening a connection -----

  lemma FreshOk<C>(disc: User -> Disc, conns: map<C, Conn>, c: C, key: Key, user: User, now: Snapshot)
    requires c !in conns
    ensures var ch := NewChannel<C>(key, user, now).(members := [c]);
            ChannelOk(disc, conns[c := Conn(key, disc(user), user, [ch.last])], key, disc(user), ch)
  {
    var ch := NewChannel<C>(key, user, now).(members := [c]);
    var after := conns[c := Conn(key, disc(user), user, [ch.last])];
    assert after[c].user == ch.user;
  }

  lemma JoinOk<C>(disc: User -> Disc, conns: map<C, Conn>, key: Key, ch: Chan<C>, c: C, user: User)
    requires c !in conns && ChannelOk(disc, conns, key, disc(user), ch)
    ensures ChannelOk(disc, conns[c := Conn(key, disc(user), user, [ch.last])], key, disc(user),
                      ch.(members := ch.members + [c]))
  {
    var after := conns[c := Conn(key, disc(user), user, [ch.last])];
    var x :| x in conns && conns[x].user == ch.user;
    assert after[x].user == ch.user;
    forall i, j | 0 <= i < j < |ch.members| + 1
      ensures Suffix(after[(ch.members + [c])[j]].received, after[(ch.members + [c])[i]].received)
    {
      assert ch.members[i] in ch.members;
      if j < |ch.members| {
        assert ch.members[j] in ch.members;
      }
    }
  }

  lemma OtherOk<C>(disc: User -> Disc, conns: map<C, Conn>, key: Key, d: Disc, ch: Chan<C>, c: C, conn: Conn)
    requires c !in conns && ChannelOk(disc, conns, key, d, ch)
    ensures ChannelOk(disc, conns[c := conn], key, d, ch)
  {
    var x :| x in conns && conns[x].user == ch.user;
    assert conns[c := conn][x].user == ch.user;
    forall i, j | 0 <= i < j < |ch.members|
      ensures Suffix(conns[c := conn][ch.members[j]].received, conns[c := conn][ch.members[i]].received)
    {
      assert ch.members[i] in ch.members && ch.members[j] in ch.members;
    }
  }

  lemma {:induction false} TotalSame<C>(roster: seq<C>, a: map<C, Conn>, b: map<C, Conn>)
    requires forall c :: c in roster ==> (c in a <==> c in b) && (c in a ==> |a[c].received| == |b[c].received|)
    ensures Total(roster, a) == Total(roster, b)
  {
    if roster != [] {
      TotalSame(roster[..|roster| - 1], a, b);
    }
  }

  lemma OpenKeepsConns<C>(disc: User -> Disc, s: State<C>, c: C, key: Key, user: User, now: Snapshot)
    requires ConnsOk(disc, s) && c !in s.conns
    ensures ConnsOk(disc, AddConnection(disc, s, c, key, user, now))
  {
    var t := AddConnection(disc, s, c, key, user, now);
    assert t.roster[..|t.roster| - 1] == s.roster;
    TotalSame(s.roster, s.conns, t.conns);
  }

  ghost predicate NoEmptyBucket<V>(t: map<Key, map<Disc, V>>) {
    forall key :: key in t ==> t[key] != map[]
  }

  function Look<C>(t: Table<C>, key: Key, d: Disc): Option<Chan<C>> {
    if HasChannel(t, key, d) then Some(t[key][d]) else None
  }

  /** Tables without empty buckets are determined by what is found in them. */
  lemma SameTable<C>(a: Table<C>, b: Table<C>)
    requires NoEmptyBucket(a) && NoEmptyBucket(b)
    requires forall k, e :: Look(a, k, e) == Look(b, k, e)
    ensures a == b
  {
    SameBuckets(a, b);
    SameBuckets(b, a);
    forall k | k in a
      ensures a[k] == b[k]
    {
      forall e
        ensures e in a[k] <==> e in b[k]
        ensures e in a[k] ==> a[k][e] == b[k][e]
      {
        assert Look(a, k, e) == Look(b, k, e);
      }
    }
  }

  lemma SameBuckets<C>(a: Table<C>, b: Table<C>)
    requires NoEmptyBucket(a)
    requires forall k, e :: Look(a, k, e) == Look(b, k, e)
    ensures a.Keys <= b.Keys
  {
    forall k | k in a
      ensures k in b
    {
      assert a[k].Keys != {};
      var e :| e in a[k].Keys;
      assert Look(a, k, e) == Look(b, k, e);
    }
  }

  lemma PutAt<V>(t: map<Key, map<Disc, V>>, key: Key, d: Disc, ch: V, k: Key, e: Disc)
    ensures NoEmptyBucket(t) ==> NoEmptyBucket(Put(t, key, d, ch))
    ensures HasChannel(Put(t, key, d, ch), k, e) <==> (k == key && e == d) || HasChannel(t, k, e)
    ensures HasChannel(Put(t, key, d, ch), k, e) ==>
              Put(t, key, d, ch)[k][e] == if k == key && e == d then ch else t[k][e]
  {
    assert d in Put(t, key, d, ch)[key];
  }

  lemma DropAt<V>(t: map<Key, map<Disc, V>>, key: Key, d: Disc, k: Key, e: Disc)
    requires key in t
    ensures NoEmptyBucket(t) ==> NoEmptyBucket(Drop(t, key, d))
    ensures HasChannel(Drop(t, key, d), k, e) <==> !(k == key && e == d) && HasChannel(t, k, e)
    ensures HasChannel(Drop(t, key, d), k, e) ==> Drop(t, key, d)[k][e] == t[k][e]
  {
    assert e in t[key] && e != d ==> e in t[key] - {d};
  }

  lemma NotifiedAt<C>(t: Table<C>, now: Snapshot, k: Key, e: Disc)
    ensures HasChannel(NotifiedTable(t, now), k, e) <==> HasChannel(t, k, e)
    ensures HasChannel(t, k, e) ==> NotifiedTable(t, now)[k][e] == Notified(t[k][e], k, now)
  {
  }

  lemma NotifiedBuckets<C>(t: Table<C>, now: Snapshot)
    requires NoEmptyBucket(t)
    ensures NoEmptyBucket(NotifiedTable(t, now))
  {
  }

  lemma OpenKeepsTable<C>(disc: User -> Disc, s: State<C>, c: C, key: Key, user: User, now: Snapshot)
    requires TableOk(disc, s) && c !in s.conns
    ensures TableOk(disc, AddConnection(disc, s, c, key, user, now))
  {
    var t, own := AddConnection(disc, s, c, key, user, now), disc(user);
    var ch := if HasChannel(s.channels, key, own) then s.channels[key][own] else NewChannel(key, user, now);
    var joined := ch.(members := ch.members + [c]);
    PutAt(s.channels, key, own, joined, key, own);
    if HasChannel(s.channels, key, own) {
      JoinOk(disc, s.conns, key, ch, c, user);
    } else {
      FreshOk(disc, s.conns, c, key, user, now);
      assert ch.members + [c] == [c];
    }
    forall k, d | HasChannel(t.channels, k, d)
      ensures ChannelOk(disc, t.conns, k, d, t.channels[k][d])
    {
      PutAt(s.channels, key, own, joined, k, d);
      if !(k == key && d == own) {
        OtherOk(disc, s.conns, k, d, s.channels[k][d], c, t.conns[c]);
      }
    }
  }

  // ----- Closing a connection -----

  lemma {:induction false} WithoutElems<T>(s: seq<T>, x: T)
    requires NoDup(s)
    ensures Elems(Without(s, x)) == Elems(s) - {x}
  {
    if s != [] {
      assert s == [s[0]] + s[1..];
      assert Elems(s) == {s[0]} + Elems(s[1..]);
      if s[0] == x {
        assert x !in Elems(s[1..]);
      } else {
        WithoutElems(s[1..], x);
        assert Elems([s[0]] + Without(s[1..], x)) == {s[0]} + Elems(Without(s[1..], x));
      }
    }
  }

  /** Removal keeps the order of the others: `i` and `j` come from places in the same order. */
  lemma {:induction false} WithoutKeepsOrder<T>(s: seq<T>, x: T, i: nat, j: nat) returns (a: nat, b: nat)
    requires i < j < |Without(s, x)|
    ensures a < b < |s| && s[a] == Without(s, x)[i] && s[b] == Without(s, x)[j]
  {
    if s[0] == x {
      a, b := i + 1, j + 1;
    } else if i > 0 {
      a, b := WithoutKeepsOrder(s[1..], x, i - 1, j - 1);
      a, b := a + 1, b + 1;
    } else {
      b := WithoutIndex(s[1..], x, j - 1);
      a, b := 0, b + 1;
    }
  }

  lemma {:induction false} WithoutIndex<T>(s: seq<T>, x: T, i: nat) returns (a: nat)
    requires i < |Without(s, x)|
    ensures a < |s| && s[a] == Without(s, x)[i]
  {
    if s[0] == x {
      a := i + 1;
    } else if i == 0 {
      a := 0;
    } else {
      a := WithoutIndex(s[1..], x, i - 1);
      a := a + 1;
    }
  }

  lemma WithoutIs<T>(s: seq<T>, x: T)
    requires NoDup(s)
    ensures NoDup(Without(s, x)) && Elems(Without(s, x)) == Elems(s) - {x}
    ensures forall y :: y in Without(s, x) ==> y in s && y != x
    ensures forall y :: y in s && y != x ==> y in Without(s, x)
  {
    WithoutElems(s, x);
    assert forall y :: y in Without(s, x) <==> y in Elems(Without(s, x));
    assert forall y :: y in s <==> y in Elems(s);
    forall i, j | 0 <= i < j < |Without(s, x)|
      ensures Without(s, x)[i] != Without(s, x)[j]
    {
      var a, b := WithoutKeepsOrder(s, x, i, j);
    }
  }

  lemma LeaveOk<C>(disc: User -> Disc, conns: map<C, Conn>, key: Key, d: Disc, ch: Chan<C>, c: C)
    requires ChannelOk(disc, conns, key, d, ch) && Without(ch.members, c) != []
    ensures ChannelOk(disc, conns, key, d, ch.(members := Without(ch.members, c)))
  {
    var left := Without(ch.members, c);
    WithoutIs(ch.members, c);
    forall i, j | 0 <= i < j < |left|
      ensures Suffix(conns[left[j]].received, conns[left[i]].received)
    {
      var a, b := WithoutKeepsOrder(ch.members, c, i, j);
    }
  }

  lemma {:induction false} CloseKeepsTable<C>(disc: User -> Disc, s: State<C>, c: C, key: Key)
    requires TableOk(disc, s) && c in s.conns
    ensures TableOk(disc, RemoveConnection(s, c, key))
  {
    var t, own := RemoveConnection(s, c, key), s.conns[c].disc;
    if HasChannel(s.channels, key, own) {
      var ch := s.channels[key][own];
      var left := Without(ch.members, c);
      if left == [] {
        DropAt(s.channels, key, own, key, own);
      } else {
        PutAt(s.channels, key, own, ch.(members := left), key, own);
        LeaveOk(disc, s.conns, key, own, ch, c);
      }
      forall k, d | HasChannel(t.channels, k, d)
        ensures ChannelOk(disc, t.conns, k, d, t.channels[k][d])
      {
        if left == [] {
          DropAt(s.channels, key, own, k, d);
        } else {
          PutAt(s.channels, key, own, ch.(members := left), k, d);
        }
      }
    }
  }

  // ----- Notifying -----

  lemma MemberNews<C>(disc: User -> Disc, s: State<C>, key: Key, d: Disc, now: Snapshot, c: C)
    requires TableOk(disc, s) && HasChannel(s.channels, key, d) && c in s.channels[key][d].members
    ensures c in s.conns && s.conns[c].key == key && s.conns[c].disc == d
    ensures News(s, c, now) == if Sends(s.channels[key][d], key, now)
                               then [NextMessage(s.channels[key][d], key, now)] else []
  {
    assert ChannelOk(disc, s.conns, key, d, s.channels[key][d]);
  }

  lemma SuffixGrows<T>(a: seq<T>, b: seq<T>, more: seq<T>)
    requires Suffix(a, b)
    ensures Suffix(a + more, b + more)
  {
  }

  /** All members are sent the same. */
  lemma SendsOk<C>(
      disc: User -> Disc, conns: map<C, Conn>, after: map<C, Conn>, key: Key, d: Disc, ch: Chan<C>, message: Message)
    requires ChannelOk(disc, conns, key, d, ch) && after.Keys == conns.Keys && message.All? == ch.last.All?
    requires forall c :: c in conns ==> after[c].user == conns[c].user
    requires forall c :: c in ch.members ==> after[c] == conns[c].(received := conns[c].received + [message])
    ensures ChannelOk(disc, after, key, d, ch.(last := message))
  {
    var x :| x in conns && conns[x].user == ch.user;
    assert after[x].user == ch.user;
    forall i, j | 0 <= i < j < |ch.members|
      ensures Suffix(after[ch.members[j]].received, after[ch.members[i]].received)
    {
      assert ch.members[i] in ch.members && ch.members[j] in ch.members;
      SuffixGrows(conns[ch.members[j]].received, conns[ch.members[i]].received, [message]);
    }
  }

  lemma SilentOk<C>(disc: User -> Disc, conns: map<C, Conn>, after: map<C, Conn>, key: Key, d: Disc, ch: Chan<C>)
    requires ChannelOk(disc, conns, key, d, ch) && after.Keys == conns.Keys
    requires forall c :: c in conns ==> after[c].user == conns[c].user
    requires forall c :: c in ch.members ==> after[c] == conns[c]
    ensures ChannelOk(disc, after, key, d, ch)
  {
  }

  lemma NotifyKeepsChannel<C>(disc: User -> Disc, s: State<C>, key: Key, d: Disc, now: Snapshot)
    requires TableOk(disc, s) && HasChannel(s.channels, key, d)
    ensures ChannelOk(disc, NotifiedConns(s, now), key, d, Notified(s.channels[key][d], key, now))
  {
    var ch, after := s.channels[key][d], NotifiedConns(s, now);
    forall c | c in ch.members
      ensures c in s.conns
      ensures Sends(ch, key, now) ==> after[c].received == s.conns[c].received + [NextMessage(ch, key, now)]
      ensures !Sends(ch, key, now) ==> after[c].received == s.conns[c].received
    {
      MemberNews(disc, s, key, d, now, c);
      assert s.conns[c].received + [] == s.conns[c].received;
    }
    if Sends(ch, key, now) {
      SendsOk(disc, s.conns, after, key, d, ch, NextMessage(ch, key, now));
    } else {
      SilentOk(disc, s.conns, after, key, d, ch);
    }
  }

  lemma {:induction false} NotifyKeepsTable<C>(disc: User -> Disc, s: State<C>, now: Snapshot)
    requires TableOk(disc, s)
    ensures TableOk(disc, NotifyConnections(s, now))
  {
    var t := NotifyConnections(s, now);
    NotifiedBuckets(s.channels, now);
    forall key, d | HasChannel(t.channels, key, d)
      ensures ChannelOk(disc, t.conns, key, d, t.channels[key][d])
    {
      NotifiedAt(s.channels, now, key, d);
      NotifyKeepsChannel(disc, s, key, d, now);
    }
  }

  lemma {:induction false} TotalNotified<C>(s: State<C>, roster: seq<C>, now: Snapshot)
    ensures Total(roster, NotifiedConns(s, now)) == Total(roster, s.conns) + NewsCount(s, roster, now)
  {
    if roster != [] {
      TotalNotified(s, roster[..|roster| - 1], now);
    }
  }

  /** Every event keeps the invariant. */
  lemma StepKeepsInv<C>(disc: User -> Disc, s: State<C>, e: Event<C>)
    requires Inv(disc, s) && (e.Open? ==> e.conn !in s.conns)
    ensures Inv(disc, Step(disc, s, e))
  {
    match e
    case Open(c, key, user, now) =>
      OpenKeepsConns(disc, s, c, key, user, now);
      OpenKeepsTable(disc, s, c, key, user, now);
    case Close(c, key) =>
      if c in s.conns {
        CloseKeepsTable(disc, s, c, key);
      }
    case Notify(now) =>
      NotifyKeepsTable(disc, s, now);
      TotalNotified(s, s.roster, now);
  }
}
