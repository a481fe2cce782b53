/** One stream on values: channels by flag key and user discriminator, each with the open
    connections that share its evaluations. `C` names connections. */
module Streams {
  import opened Common
  import UserAttrs

  type Key = string
  type User = Option<UserAttrs.Attrs>
  /** A 64-bit discriminator; a stream only compares them. */
  newtype Disc = x: int | 0 <= x < 0x1_0000_0000_0000_0000

  const ALL_FLAGS: Key := "[ALL]"

  datatype Value = Missing | Bool(b: bool) | Text(text: string) | Number(number: real)

  datatype EvalData = EvalData(value: Value, variationId: string, error: Option<string>)

  datatype Payload = Payload(value: Value, variationId: string)

  datatype Message = Single(payload: Payload) | All(payloads: map<Key, Payload>)

  /** The evaluations that the current SDK client yields with its current configuration. */
  datatype Snapshot = Snapshot(eval: (Key, User) -> EvalData, evalAll: User -> map<Key, EvalData>)

  datatype Chan<C> = Chan(user: User, last: Message, members: seq<C>)

  /** What is known about one connection: where it belongs and everything it received. */
  datatype Conn = Conn(key: Key, disc: Disc, user: User, received: seq<Message>)

  type Table<C> = map<Key, map<Disc, Chan<C>>>

  datatype State<C(==)> = State(
    channels: Table<C>, roster: seq<C>, conns: map<C, Conn>, connCount: int, sent: nat)

  datatype Event<C> =
    | Open(conn: C, key: Key, user: User, snapshot: Snapshot)
    | Close(conn: C, key: Key)
    | Notify(snapshot: Snapshot)

  // ----- Channels -----

  function PayloadOf(e: EvalData): Payload {
    Payload(e.value, e.variationId)
  }

  function PayloadsOf(values: map<Key, EvalData>): map<Key, Payload> {
    map k | k in values :: PayloadOf(values[k])
  }

  /** A new channel evaluates once and keeps the result, even that of a failed evaluation. */
  function NewChannel<C>(key: Key, user: User, now: Snapshot): Chan<C> {
    if key == ALL_FLAGS then Chan(user, All(PayloadsOf(now.evalAll(user))), [])
    else Chan(user, Single(PayloadOf(now.eval(key, user))), [])
  }

  /** A single-flag channel sends a successful evaluation with another value than the last
      payload; an all-flags channel sends whenever there are flags. */
  predicate Sends<C>(ch: Chan<C>, key: Key, now: Snapshot) {
    match ch.last
    case Single(last) => now.eval(key, ch.user).error.None? && now.eval(key, ch.user).value != last.value
    case All(_) => now.evalAll(ch.user) != map[]
  }

  function NextMessage<C>(ch: Chan<C>, key: Key, now: Snapshot): Message {
    match ch.last
    case Single(_) => Single(PayloadOf(now.eval(key, ch.user)))
    case All(_) => All(PayloadsOf(now.evalAll(ch.user)))
  }

  function Notified<C>(ch: Chan<C>, key: Key, now: Snapshot): Chan<C> {
    if Sends(ch, key, now) then ch.(last := NextMessage(ch, key, now)) else ch
  }

  /** What a channel sends to each of its members. */
  function MessagesOf<C>(ch: Chan<C>, key: Key, now: Snapshot): seq<Message> {
    if Sends(ch, key, now) then [NextMessage(ch, key, now)] else []
  }

  /** `s` without the first occurrence of `x`. */
  function Without<T(==)>(s: seq<T>, x: T): seq<T> {
    if s == [] then [] else if s[0] == x then s[1..] else [s[0]] + Without(s[1..], x)
  }

  // ----- The two-level table -----

  predicate HasChannel<V>(t: map<Key, map<Disc, V>>, key: Key, disc: Disc) {
    key in t && disc in t[key]
  }

  function Put<V>(t: map<Key, map<Disc, V>>, key: Key, disc: Disc, ch: V): map<Key, map<Disc, V>> {
    t[key := (if key in t then t[key] else map[])[disc := ch]]
  }

  /** Removes a channel, and its bucket when that was the last one. */
  function Drop<V>(t: map<Key, map<Disc, V>>, key: Key, disc: Disc): map<Key, map<Disc, V>>
    requires key in t
  {
    var bucket := t[key] - {disc};
    if bucket == map[] then t - {key} else t[key := bucket]
  }

  function Members<C>(t: Table<C>, key: Key, disc: Disc): seq<C> {
    if HasChannel(t, key, disc) then t[key][disc].members else []
  }

  /** The connection is a member of the channel of its own key and discriminator. */
  predicate Held<C(==)>(s: State<C>, c: C) {
    c in s.conns && c in Members(s.channels, s.conns[c].key, s.conns[c].disc)
  }

  // ----- The three kinds of events -----

  function AddConnection<C(==)>(disc: User -> Disc, s: State<C>, c: C, key: Key, user: User, now: Snapshot): State<C> {
    var d := disc(user);
    var ch := if HasChannel(s.channels, key, d) then s.channels[key][d] else NewChannel(key, user, now);
    s.(channels := Put(s.channels, key, d, ch.(members := ch.members + [c])),
       roster := s.roster + [c],
       conns := s.conns[c := Conn(key, d, user, [ch.last])],
       connCount := s.connCount + 1,
       sent := s.sent + 1)
  }

  /** The counter goes down even when nothing was found. */
  function RemoveConnection<C(==)>(s: State<C>, c: C, key: Key): State<C>
    requires c in s.conns
  {
    var d, t := s.conns[c].disc, s.(connCount := s.connCount - 1);
    if !HasChannel(s.channels, key, d) then t
    else
      var ch := s.channels[key][d];
      var left := Without(ch.members, c);
      t.(channels := if left == [] then Drop(s.channels, key, d)
                     else Put(s.channels, key, d, ch.(members := left)))
  }

  /** What a notification sends to one connection. */
  function News<C(==)>(s: State<C>, c: C, now: Snapshot): seq<Message>
    requires c in s.conns
  {
    var conn := s.conns[c];
    if Held(s, c) then MessagesOf(s.channels[conn.key][conn.disc], conn.key, now) else []
  }

  function NotifiedTable<C>(t: Table<C>, now: Snapshot): Table<C> {
    map key | key in t :: map d | d in t[key] :: Notified(t[key][d], key, now)
  }

  function NotifiedConns<C(==)>(s: State<C>, now: Snapshot): map<C, Conn> {
    map c | c in s.conns :: s.conns[c].(received := s.conns[c].received + News(s, c, now))
  }

  /** How many connections of `roster` are sent something. */
  function NewsCount<C(==)>(s: State<C>, roster: seq<C>, now: Snapshot): nat {
    if roster == [] then 0
    else
      var c := roster[|roster| - 1];
      NewsCount(s, roster[..|roster| - 1], now) + if c in s.conns then |News(s, c, now)| else 0
  }

  function NotifyConnections<C(==)>(s: State<C>, now: Snapshot): State<C> {
    s.(channels := NotifiedTable(s.channels, now),
       conns := NotifiedConns(s, now),
       sent := s.sent + NewsCount(s, s.roster, now))
  }

  function Step<C(==)>(disc: User -> Disc, s: State<C>, e: Event<C>): State<C> {
    match e
    case Open(c, key, user, now) => AddConnection(disc, s, c, key, user, now)
    case Close(c, key) => if c in s.conns then RemoveConnection(s, c, key) else s
    case Notify(now) => NotifyConnections(s, now)
  }

  function Run<C(==)>(disc: User -> Disc, events: seq<Event<C>>): State<C> {
    if events == [] then State(map[], [], map[], 0, 0)
    else Step(disc, Run(disc, events[..|events| - 1]), events[|events| - 1])
  }
}
