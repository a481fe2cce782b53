/** User attributes and the discriminator that assigns a user to a channel. */
module UserAttrs {
  import opened Common

  /** An attribute as the proxy stores it. Unmarshalled lists become `Strings`; `AnyList` is
      the generic list that the discriminator looks for, with `None` for a non-string item. */
  datatype Attr =
    | Text(text: string)
    | Int(number: int)
    | Float(digits: Digits)
    | Strings(items: seq<string>)
    | AnyList(entries: seq<Option<string>>)

  type Attrs = map<string, Attr>

  /** The seeded hash of the text written since the last reset. */
  type Hash = string -> bv64

  /** A rendered number is never empty. */
  type Digits = s: string | s != "" witness "0"

  const DIGITS := "0123456789"

  function Decimal(n: nat): string {
    (if n < 10 then "" else Decimal(n / 10)) + [DIGITS[n % 10]]
  }

  function Rendered(n: int): string {
    if n < 0 then "-" + Decimal(-n) else Decimal(n)
  }

  function Joined(entries: seq<Option<string>>): string {
    if entries == [] then "" else Joined(entries[..|entries| - 1]) + entries[|entries| - 1].GetOr("")
  }

  /** What is fed to the hash for a value; a list of strings is not among the handled types. */
  function Written(v: Attr): string {
    match v
    case Text(text) => text
    case Int(n) => Rendered(n)
    case Float(digits) => digits
    case Strings(_) => ""
    case AnyList(entries) => Joined(entries)
  }

  function Mix(hk: bv64, hv: bv64): bv64 {
    hv + 0x9e3779b97f4a7c15 + (hk << 12) + (hk >> 4)
  }

  function Term(h: Hash, attrs: Attrs, k: string): bv64 {
    if k in attrs then Mix(h(k), h(Written(attrs[k]))) else 0
  }

  function Terms(h: Hash, attrs: Attrs): string -> bv64 {
    k => Term(h, attrs, k)
  }

  function Xor(a: bv64, b: bv64): bv64 {
    a ^ b
  }

  /** The exclusive or of all terms, visited in `order`. */
  function Fold<K>(term: K -> bv64, order: seq<K>): bv64 {
    if order == [] then 0
    else Xor(Fold(term, order[..|order| - 1]), term(order[|order| - 1]))
  }

  /** The discriminator when the attributes are visited in `order`. */
  function DiscriminatorOf(h: Hash, attrs: Attrs, order: seq<string>): bv64 {
    Fold(Terms(h, attrs), order)
  }

  lemma BitsSwap(a: bv64, b: bv64, c: bv64)
    ensures (a ^ b) ^ c == (a ^ c) ^ b
  {
  }

  lemma XorIs(a: bv64, b: bv64)
    ensures Xor(a, b) == a ^ b
  {
  }

  lemma XorSwap(a: bv64, b: bv64, c: bv64)
    ensures Xor(Xor(a, b), c) == Xor(Xor(a, c), b)
  {
    hide Xor;
    XorIs(a, b);
    XorIs(a ^ b, c);
    XorIs(a, c);
    XorIs(a ^ c, b);
    BitsSwap(a, b, c);
  }

  function Without<T>(s: seq<T>, i: nat): seq<T>
    requires i < |s|
  {
    s[..i] + s[i + 1..]
  }

  lemma WithoutInner<T>(s: seq<T>, i: nat)
    requires i < |s| - 1
    ensures var rest := Without(s, i);
            rest[..|rest| - 1] == Without(s[..|s| - 1], i) && rest[|rest| - 1] == s[|s| - 1]
  {
  }

  lemma WithoutElems<T>(s: seq<T>, i: nat)
    requires i < |s| && NoDup(s)
    ensures NoDup(Without(s, i)) && Elems(Without(s, i)) == Elems(s) - {s[i]}
  {
  }

  lemma Nonempty<T>(s: seq<T>)
    ensures s != [] ==> Elems(s) != {}
  {
    if s != [] {
      assert s[0] in Elems(s);
    }
  }

  lemma FoldEmpty<K>(term: K -> bv64)
    ensures Fold(term, []) == 0
  {
  }

  lemma FoldSnoc<K>(term: K -> bv64, order: seq<K>, k: K)
    ensures Fold(term, order + [k]) == Xor(Fold(term, order), term(k))
  {
  }

  lemma FoldLast<K>(term: K -> bv64, order: seq<K>)
    requires order != []
    ensures Fold(term, order) == Xor(Fold(term, order[..|order| - 1]), term(order[|order| - 1]))
  {
  }

  /** Any visited attribute can be moved to the end. */
  lemma {:induction false} PullOut<K>(term: K -> bv64, order: seq<K>, i: nat)
    requires i < |order|
    ensures Fold(term, order) == Xor(Fold(term, Without(order, i)), term(order[i]))
  {
    hide Fold, Xor;
    var init, last, rest := order[..|order| - 1], order[|order| - 1], Without(order, i);
    FoldLast(term, order);
    if i == |order| - 1 {
      assert rest == init;
    } else {
      PullOut(term, init, i);
      WithoutInner(order, i);
      FoldLast(term, rest);
      XorSwap(Fold(term, Without(init, i)), term(order[i]), term(last));
    }
  }

  /** The order of iteration does not matter. */
  lemma {:induction false} OrderIndependent<K>(term: K -> bv64, a: seq<K>, b: seq<K>)
    requires NoDup(a) && NoDup(b) && Elems(a) == Elems(b)
    ensures Fold(term, a) == Fold(term, b)
    decreases |a|
  {
    hide Xor;
    if a == [] {
      Nonempty(b);
    } else {
      var last := a[|a| - 1];
      assert last in Elems(a);
      var i :| 0 <= i < |b| && b[i] == last;
      PullOut(term, b, i);
      WithoutElems(b, i);
      Snoc(a);
      OrderIndependent(term, a[..|a| - 1], Without(b, i));
    }
  }

  /** What one attribute contributes. */
  method HashAttribute(h: Hash, attrs: Attrs, k: string) returns (t: bv64)
    requires k in attrs
    ensures t == Terms(h, attrs)(k)
  {
    var hk := h(k);
    var hv := h(Written(attrs[k]));
    t := Mix(hk, hv);
  }

  /** Folds one more term into the result. */
  method Combine<K>(curr: bv64, t: bv64, ghost term: K -> bv64, ghost visited: seq<K>, ghost k: K) returns (r: bv64)
    requires NoDup(visited) && k !in Elems(visited)
    requires t == term(k) && curr == Fold(term, visited)
    ensures NoDup(visited + [k]) && Elems(visited + [k]) == Elems(visited) + {k}
    ensures r == Fold(term, visited + [k])
  {
    hide Fold, Xor;
    FoldSnoc(term, visited, k);
    Snoc(visited + [k]);
    r := Xor(curr, t);
  }

  /** Visits the attributes in whatever order the map yields them and folds what each contributes. */
  method Discriminator(h: Hash, attrs: Attrs) returns (curr: bv64)
    ensures forall order :: Enumerates(order, attrs.Keys) ==> curr == DiscriminatorOf(h, attrs, order)
  {
    hide Fold, Terms, Xor;
    FoldEmpty(Terms(h, attrs));
    curr := 0;
    var rest := attrs.Keys;
    ghost var visited: seq<string> := [];
    while rest != {}
      invariant NoDup(visited) && Elems(visited) == attrs.Keys - rest && rest <= attrs.Keys
      invariant curr == Fold(Terms(h, attrs), visited)
      decreases |rest|
    {
      var k :| k in rest;
      var t := HashAttribute(h, attrs, k);
      curr := Combine(curr, t, Terms(h, attrs), visited, k);
      visited, rest := visited + [k], rest - {k};
    }
    forall order | Enumerates(order, attrs.Keys)
      ensures curr == DiscriminatorOf(h, attrs, order)
    {
      OrderIndependent(Terms(h, attrs), visited, order);
    }
  }

  lemma {:induction false} SameFold<K(!new)>(a: K -> bv64, b: K -> bv64, order: seq<K>)
    requires forall k :: a(k) == b(k)
    ensures Fold(a, order) == Fold(b, order)
  {
    if order != [] {
      SameFold(a, b, order[..|order| - 1]);
    }
  }

  lemma OneTerm(h: Hash, attrs: Attrs, k: string)
    requires k in attrs
    ensures DiscriminatorOf(h, attrs, []) == 0
    ensures DiscriminatorOf(h, attrs, [k]) == Mix(h(k), h(Written(attrs[k])))
  {
    hide Xor, Mix, Fold, Terms;
    var term := Terms(h, attrs);
    FoldEmpty(term);
    FoldSnoc(term, [], k);
    assert [] + [k] == [k];
    XorZero(term(k));
    TermIs(h, attrs, k);
  }

  /** `d` mixes the hash of a name with the hash of its value. */
  predicate Mixes(d: bv64, hk: bv64, hv: bv64) {
    d == hv + 0x9e3779b97f4a7c15 + (hk << 12) + (hk >> 4)
  }

  /** No attribute gives zero, and a single one the mix of its two hashes. */
  lemma FewAttributes(h: Hash, attrs: Attrs, k: string)
    requires k in attrs
    ensures DiscriminatorOf(h, attrs, []) == 0
    ensures Mixes(DiscriminatorOf(h, attrs, [k]), h(k), h(Written(attrs[k])))
  {
    hide *;
    OneTerm(h, attrs, k);
    MixIs(h(k), h(Written(attrs[k])));
  }

  lemma TermIs(h: Hash, attrs: Attrs, k: string)
    requires k in attrs
    ensures Terms(h, attrs)(k) == Mix(h(k), h(Written(attrs[k])))
  {
    hide Mix;
  }

  lemma XorZero(a: bv64)
    ensures Xor(0, a) == a
  {
  }

  lemma MixIs(hk: bv64, hv: bv64)
    ensures Mixes(Mix(hk, hv), hk, hv)
  {
  }

  // ----- Which users some hash tells apart -----

  /** The same attribute names, and for each the same text fed to the hash. */
  ghost predicate SameWriting(x: Attrs, y: Attrs) {
    x.Keys == y.Keys && forall k :: k in x ==> Written(x[k]) == Written(y[k])
  }

  lemma {:induction false} SameWritingFolds(h: Hash, x: Attrs, y: Attrs, order: seq<string>)
    requires SameWriting(x, y)
    ensures DiscriminatorOf(h, x, order) == DiscriminatorOf(h, y, order)
  {
    hide Fold, Mix;
    forall k
      ensures Terms(h, x)(k) == Terms(h, y)(k)
    {
      if k in x {
        assert Written(x[k]) == Written(y[k]);
      }
    }
    SameFold(Terms(h, x), Terms(h, y), order);
  }

  lemma {:induction false} SameWritingCollides(h: Hash, x: Attrs, y: Attrs, a: seq<string>, b: seq<string>)
    requires SameWriting(x, y) && Enumerates(a, x.Keys) && Enumerates(b, y.Keys)
    ensures DiscriminatorOf(h, x, a) == DiscriminatorOf(h, y, b)
  {
    hide Fold, Terms;
    SameWritingFolds(h, x, y, a);
    OrderIndependent(Terms(h, y), a, b);
  }

  predicate Bit0(v: bv64) {
    v & 1 == 1
  }

  predicate Bit1(v: bv64) {
    v & 2 == 2
  }

  lemma BitsOfXor(a: bv64, b: bv64)
    ensures Bit0(Xor(a, b)) <==> Bit0(a) != Bit0(b)
    ensures Bit1(Xor(a, b)) <==> Bit1(a) != Bit1(b)
  {
  }

  /** The two low bits of a term see one bit of the value's hash and one of the name's. */
  lemma BitsOfMix(marksName: bool, marksText: bool, other: bool, another: bool)
    ensures var hk: bv64 := (if other then 1 else 0) + (if marksName then 16 else 0);
            var hv: bv64 := (if marksText then 1 else 0) + (if another then 16 else 0);
            && (Bit0(Mix(hk, hv)) <==> marksText == marksName)
            && (Bit1(Mix(hk, hv)) <==> marksText || marksName)
  {
  }

  /** A hash that sees whether a text is `name`, and whether it is `text` if there is one. */
  function Probe(name: string, text: Option<string>): Hash {
    s => (if text == Some(s) then 1 else 0) + (if s == name then 16 else 0)
  }

  predicate Marks(attrs: Attrs, text: Option<string>, k: string) {
    k in attrs && text == Some(Written(attrs[k]))
  }

  /** An odd number of attributes in `order` is written as `text`. */
  predicate Odd(attrs: Attrs, text: Option<string>, order: seq<string>) {
    order != [] && Odd(attrs, text, order[..|order| - 1]) != Marks(attrs, text, order[|order| - 1])
  }

  lemma BitsOfTerm(attrs: Attrs, name: string, text: Option<string>, k: string)
    requires k in attrs
    ensures Bit0(Terms(Probe(name, text), attrs)(k)) <==> Marks(attrs, text, k) == (k == name)
    ensures Bit1(Terms(Probe(name, text), attrs)(k)) <==> Marks(attrs, text, k) || k == name
  {
    hide Mix, Bit0, Bit1;
    BitsOfMix(k == name, Marks(attrs, text, k), text == Some(k), Written(attrs[k]) == name);
  }

  /** The two low bits of the whole discriminator under a probe. */
  lemma {:induction false} BitsOfFold(attrs: Attrs, name: string, text: Option<string>, order: seq<string>)
    requires NoDup(order) && Elems(order) <= attrs.Keys
    ensures var d := Fold(Terms(Probe(name, text), attrs), order);
            && (Bit0(d) <==> (Odd(attrs, text, order) != (name in order)) != (|order| % 2 == 1))
            && (Bit1(d) <==> Odd(attrs, text, order) != (name in order && !Marks(attrs, text, name)))
  {
    hide Xor, Bit0, Bit1, Terms;
    if order == [] {
      FoldEmpty(Terms(Probe(name, text), attrs));
      ZeroBits();
    } else {
      var init, last := order[..|order| - 1], order[|order| - 1];
      Snoc(order);
      assert last in Elems(order) && Elems(init) <= Elems(order);
      assert name in order <==> name in init || name == last by {
        assert order == init + [last];
      }
      assert last !in init by {
        assert forall k :: k in init <==> k in Elems(init);
      }
      BitsOfFold(attrs, name, text, init);
      FoldLast(Terms(Probe(name, text), attrs), order);
      BitsOfXor(Fold(Terms(Probe(name, text), attrs), init), Terms(Probe(name, text), attrs)(last));
      BitsOfTerm(attrs, name, text, last);
    }
  }

  lemma ZeroBits()
    ensures !Bit0(0) && !Bit1(0)
  {
  }

  lemma {:induction false} NeverOdd(attrs: Attrs, order: seq<string>)
    ensures !Odd(attrs, None, order)
  {
    if order != [] {
      NeverOdd(attrs, order[..|order| - 1]);
    }
  }

  lemma NameSeparates(x: Attrs, y: Attrs, a: seq<string>, b: seq<string>, name: string)
    requires Enumerates(a, x.Keys) && Enumerates(b, y.Keys) && name in x && name !in y
    ensures DiscriminatorOf(Probe(name, None), x, a) != DiscriminatorOf(Probe(name, None), y, b)
  {
    hide Fold, Terms, Bit0, Bit1;
    assert name in Elems(a) && name !in Elems(b);
    BitsOfFold(x, name, None, a);
    BitsOfFold(y, name, None, b);
    NeverOdd(x, a);
    NeverOdd(y, b);
  }

  lemma TextSeparates(x: Attrs, y: Attrs, a: seq<string>, b: seq<string>, name: string)
    requires Enumerates(a, x.Keys) && Enumerates(b, y.Keys) && x.Keys == y.Keys
    requires name in x && Written(x[name]) != Written(y[name])
    ensures var h := Probe(name, Some(Written(x[name])));
            DiscriminatorOf(h, x, a) != DiscriminatorOf(h, y, b)
  {
    hide Fold, Terms, Bit0, Bit1;
    var text := Some(Written(x[name]));
    assert name in Elems(a) && name in Elems(b);
    Distinct(a);
    Distinct(b);
    BitsOfFold(x, name, text, a);
    BitsOfFold(y, name, text, b);
  }

  /** Two users collide under every hash, whatever the orders of iteration, if and only if they
      have the same attribute names with the same text fed to the hash for each. */
  lemma CollidesIff(x: Attrs, y: Attrs, a: seq<string>, b: seq<string>)
    requires Enumerates(a, x.Keys) && Enumerates(b, y.Keys)
    ensures SameWriting(x, y) <==> forall h: Hash :: DiscriminatorOf(h, x, a) == DiscriminatorOf(h, y, b)
  {
    if SameWriting(x, y) {
      forall h: Hash
        ensures DiscriminatorOf(h, x, a) == DiscriminatorOf(h, y, b)
      {
        SameWritingCollides(h, x, y, a, b);
      }
    } else if x.Keys != y.Keys {
      if name :| name in x && name !in y {
        NameSeparates(x, y, a, b, name);
      } else {
        var name :| name in y && name !in x;
        NameSeparates(y, x, b, a, name);
      }
    } else {
      var name :| name in x && Written(x[name]) != Written(y[name]);
      TextSeparates(x, y, a, b, name);
    }
  }

  // ----- Unmarshalled attributes -----

  /** A decoded JSON or YAML value. */
  datatype Raw =
    | RText(text: string)
    | RInt(number: int)
    | RFloat(digits: Digits)
    | RList(entries: seq<Option<string>>)
    | ROther

  function StringsIn(entries: seq<Option<string>>): seq<string> {
    if entries == [] then []
    else
      var last := entries[|entries| - 1];
      StringsIn(entries[..|entries| - 1]) + if last.Some? then [last.value] else []
  }

  function Stored(r: Raw): Attr
    requires !r.ROther?
  {
    match r
    case RText(text) => Text(text)
    case RInt(n) => Int(n)
    case RFloat(digits) => Float(digits)
    case RList(entries) => Strings(StringsIn(entries))
  }

  lemma {:induction false} JoinedConcat(a: seq<Option<string>>, b: seq<Option<string>>)
    ensures Joined(a + b) == Joined(a) + Joined(b)
  {
    if b == [] {
      assert a + b == a;
    } else {
      var init, last := b[..|b| - 1], b[|b| - 1].GetOr("");
      assert (a + b)[..|a + b| - 1] == a + init;
      JoinedConcat(a, init);
      Associates(Joined(a), Joined(init), last);
    }
  }

  lemma JoinedOne(entry: Option<string>)
    ensures Joined([entry]) == entry.GetOr("")
  {
    assert [entry][..0] == [];
    assert Joined([]) == "";
  }

  /** Of a generic list, the strings are written one after the other. */
  lemma AnyListReads(a: seq<Option<string>>, b: seq<Option<string>>, text: string)
    ensures Written(AnyList(a + b)) == Written(AnyList(a)) + Written(AnyList(b))
    ensures Written(AnyList([Some(text)])) == text && Written(AnyList([None])) == ""
  {
    JoinedConcat(a, b);
    JoinedOne(Some(text));
    JoinedOne(None);
  }

  /** The places of the strings in a list. */
  ghost function StringPlaces(entries: seq<Option<string>>): seq<nat> {
    if entries == [] then []
    else
      var n := |entries| - 1;
      StringPlaces(entries[..n]) + if entries[n].Some? then [n] else []
  }

  lemma {:induction false} PlacesSorted(entries: seq<Option<string>>)
    ensures forall j :: 0 <= j < |StringPlaces(entries)| ==> StringPlaces(entries)[j] < |entries|
    ensures forall i, j :: 0 <= i < j < |StringPlaces(entries)| ==> StringPlaces(entries)[i] < StringPlaces(entries)[j]
  {
    if entries != [] {
      PlacesSorted(entries[..|entries| - 1]);
    }
  }

  lemma {:induction false} PlacesIff(entries: seq<Option<string>>, i: nat)
    requires i < |entries|
    ensures i in StringPlaces(entries) <==> entries[i].Some?
  {
    var init := entries[..|entries| - 1];
    PlacesSorted(init);
    if i < |init| {
      PlacesIff(init, i);
      assert i in StringPlaces(entries) <==> i in StringPlaces(init);
    } else {
      assert i !in StringPlaces(init);
    }
  }

  lemma {:induction false} PlacesHold(entries: seq<Option<string>>)
    ensures |StringsIn(entries)| == |StringPlaces(entries)|
    ensures forall j :: 0 <= j < |StringPlaces(entries)| ==>
              && StringPlaces(entries)[j] < |entries|
              && entries[StringPlaces(entries)[j]] == Some(StringsIn(entries)[j])
  {
    PlacesSorted(entries);
    if entries != [] {
      PlacesHold(entries[..|entries| - 1]);
    }
  }

  /** `items` are exactly the strings among `entries`, in their order. */
  ghost predicate ListsStrings(items: seq<string>, entries: seq<Option<string>>) {
    exists at: seq<nat> :: Lists(items, entries, at)
  }

  /** `items[j]` is the string at place `at[j]`, and every string of `entries` has its place. */
  ghost predicate Lists(items: seq<string>, entries: seq<Option<string>>, at: seq<nat>) {
    && |at| == |items|
    && (forall i, j :: 0 <= i < j < |at| ==> at[i] < at[j])
    && (forall j :: 0 <= j < |at| ==> at[j] < |entries| && entries[at[j]] == Some(items[j]))
    && (forall i: nat :: i < |entries| && entries[i].Some? ==> i in at)
  }

  lemma StringsAreListed(entries: seq<Option<string>>)
    ensures ListsStrings(StringsIn(entries), entries)
  {
    var at := StringPlaces(entries);
    PlacesSorted(entries);
    PlacesHold(entries);
    forall i: nat | i < |entries| && entries[i].Some?
      ensures i in at
    {
      PlacesIff(entries, i);
    }
    assert Lists(StringsIn(entries), entries, at);
  }

  /** The attribute keeps the value; of a list it keeps the strings. */
  ghost predicate Keeps(a: Attr, r: Raw) {
    match r
    case RText(text) => a == Text(text)
    case RInt(n) => a == Int(n)
    case RFloat(digits) => a == Float(digits)
    case RList(entries) => a.Strings? && ListsStrings(a.items, entries)
    case ROther => false
  }

  lemma StoredKeeps(r: Raw)
    requires !r.ROther?
    ensures Keeps(Stored(r), r)
  {
    if r.RList? {
      StringsAreListed(r.entries);
    }
  }

  ghost predicate Unmarshalled(data: map<string, Raw>, attrs: Attrs) {
    attrs.Keys == data.Keys && forall k :: k in data ==> !data[k].ROther? && attrs[k] == Stored(data[k])
  }

  ghost predicate KeepsAll(data: map<string, Raw>, attrs: Attrs) {
    attrs.Keys == data.Keys && forall k :: k in data ==> Keeps(attrs[k], data[k])
  }

  lemma UnmarshalledKeeps(data: map<string, Raw>, attrs: Attrs)
    requires Unmarshalled(data, attrs)
    ensures KeepsAll(data, attrs)
  {
    hide Keeps;
    forall k | k in data
      ensures Keeps(attrs[k], data[k])
    {
      StoredKeeps(data[k]);
    }
  }

  /** The loop over one list: only its strings are kept. */
  method StringItems(entries: seq<Option<string>>) returns (strArr: seq<string>)
    ensures strArr == StringsIn(entries) && ListsStrings(strArr, entries)
  {
    strArr := [];
    for i := 0 to |entries|
      invariant strArr == StringsIn(entries[..i])
    {
      assert entries[..i + 1][..i] == entries[..i];
      if entries[i].Some? {
        strArr := strArr + [entries[i].value];
      }
    }
    TakeAll(entries);
    StringsAreListed(entries);
  }

  /** The switch over the types of one value. */
  method StoreValue(value: Raw) returns (stored: Option<Attr>)
    ensures stored.None? <==> value.ROther?
    ensures stored.Some? ==> stored.value == Stored(value)
  {
    match value {
      case RList(entries) =>
        var strArr := StringItems(entries);
        stored := Some(Strings(strArr));
      case RText(text) => stored := Some(Text(text));
      case RInt(n) => stored := Some(Int(n));
      case RFloat(digits) => stored := Some(Float(digits));
      case ROther => stored := None;
    }
  }

  /** Fails on the first value of an unsupported type; which one that is depends on the order. */
  method UnmarshalFrom(data: map<string, Raw>) returns (attrs: Attrs, invalid: Option<string>)
    ensures invalid.None? <==> forall k :: k in data ==> !data[k].ROther?
    ensures invalid.Some? ==> invalid.value in data && data[invalid.value].ROther?
    ensures invalid.None? ==> Unmarshalled(data, attrs) && KeepsAll(data, attrs)
  {
    hide KeepsAll, Stored;
    attrs, invalid := map[], None;
    var rest := data.Keys;
    while rest != {}
      invariant rest <= data.Keys && attrs.Keys == data.Keys - rest
      invariant forall k :: k in attrs ==> !data[k].ROther? && attrs[k] == Stored(data[k])
      decreases |rest|
    {
      var k :| k in rest;
      rest := rest - {k};
      var stored := StoreValue(data[k]);
      if stored.None? {
        return attrs, Some(k);
      }
      attrs := attrs[k := stored.value];
    }
    UnmarshalledKeeps(data, attrs);
  }

  // ----- The same for unmarshalled users -----

  /** Values no hash can tell apart: two lists, a list and the empty text, or a text, an integer
      and a float that read the same. */
  predicate Alike(a: Raw, b: Raw) {
    match (a, b)
    case (RList(_), RList(_)) => true
    case (RList(_), RText(t)) => t == ""
    case (RText(t), RList(_)) => t == ""
    case (RText(s), RText(t)) => s == t
    case (RInt(m), RInt(n)) => m == n
    case (RFloat(d), RFloat(e)) => d == e
    case (RText(t), RInt(n)) => t == Rendered(n)
    case (RInt(n), RText(t)) => t == Rendered(n)
    case (RText(t), RFloat(d)) => t == d
    case (RFloat(d), RText(t)) => t == d
    case (RInt(n), RFloat(d)) => d == Rendered(n)
    case (RFloat(d), RInt(n)) => d == Rendered(n)
    case _ => false
  }

  /** The value of a text of digits. */
  ghost function Value(s: string): int {
    if s == "" then 0 else 10 * Value(s[..|s| - 1]) + (s[|s| - 1] as int - '0' as int)
  }

  ghost predicate AllDigits(s: string) {
    forall i :: 0 <= i < |s| ==> '0' <= s[i] <= '9'
  }

  lemma DigitIs(d: nat)
    requires d < 10
    ensures |DIGITS| == 10 && '0' <= DIGITS[d] <= '9' && DIGITS[d] as int - '0' as int == d
  {
    var all := DIGITS;
    assert all[0] == '0' && all[1] == '1' && all[2] == '2' && all[3] == '3' && all[4] == '4';
    assert all[5] == '5' && all[6] == '6' && all[7] == '7' && all[8] == '8' && all[9] == '9';
  }

  lemma DigitLast(s: string, d: nat)
    requires d < 10 && AllDigits(s)
    ensures AllDigits(s + [DIGITS[d]]) && Value(s + [DIGITS[d]]) == 10 * Value(s) + d
  {
    hide DIGITS;
    DigitIs(d);
    var t := s + [DIGITS[d]];
    assert t[..|t| - 1] == s && t[|t| - 1] == DIGITS[d];
  }

  /** A number reads as its digits, without leading zeros. */
  lemma {:induction false} DecimalReads(n: nat)
    ensures Decimal(n) != "" && AllDigits(Decimal(n)) && Value(Decimal(n)) == n
    ensures Decimal(n)[0] == '0' ==> n == 0 && |Decimal(n)| == 1
  {
    hide AllDigits, Value;
    if n >= 10 {
      DecimalReads(n / 10);
      DigitLast(Decimal(n / 10), n % 10);
    } else {
      NoDigits();
      DigitLast("", n);
      assert Decimal(n) == "" + [DIGITS[n]];
      DigitIs(n);
    }
  }

  lemma NoDigits()
    ensures AllDigits("") && Value("") == 0
  {
  }

  /** An integer is written in decimal, with a sign if it is negative. */
  lemma RenderedReads(n: int)
    ensures n >= 0 ==> AllDigits(Rendered(n)) && Value(Rendered(n)) == n
    ensures n < 0 ==> |Rendered(n)| > 1 && Rendered(n)[0] == '-'
    ensures n < 0 ==> AllDigits(Rendered(n)[1..]) && Value(Rendered(n)[1..]) == -n
    ensures Rendered(n) != "" && Rendered(n)[0] == '0' ==> Rendered(n) == "0"
    ensures |Rendered(n)| > 1 && Rendered(n)[0] == '-' ==> Rendered(n)[1] != '0'
  {
    hide AllDigits, Value, Decimal;
    if n < 0 {
      DecimalReads(-n);
      assert Rendered(n)[1..] == Decimal(-n);
    } else {
      DecimalReads(n);
      FirstDigit(Decimal(n));
    }
  }

  lemma FirstDigit(s: string)
    requires AllDigits(s) && s != ""
    ensures s[0] != '-'
  {
  }

  lemma {:induction false} DecimalIs(n: nat)
    ensures Decimal(n) != "" && Decimal(n)[0] != '-'
  {
    if n >= 10 {
      DecimalIs(n / 10);
    }
  }

  lemma {:induction false} DecimalDistinct(m: nat, n: nat)
    requires Decimal(m) == Decimal(n)
    ensures m == n
    decreases m
  {
    var a, b := Decimal(m), Decimal(n);
    assert a[|a| - 1] == DIGITS[m % 10] && b[|b| - 1] == DIGITS[n % 10];
    assert m % 10 == n % 10;
    assert a[..|a| - 1] == b[..|b| - 1];
    if m >= 10 && n >= 10 {
      assert a[..|a| - 1] == Decimal(m / 10) && b[..|b| - 1] == Decimal(n / 10);
      DecimalDistinct(m / 10, n / 10);
    } else if m >= 10 {
      DecimalIs(m / 10);
    } else if n >= 10 {
      DecimalIs(n / 10);
    }
  }

  /** Different integers never read the same. */
  lemma RenderedDistinct(m: int, n: int)
    ensures Rendered(m) != "" && (Rendered(m) == Rendered(n) <==> m == n)
  {
    var a, b := if m < 0 then -m else m, if n < 0 then -n else n;
    DecimalIs(a);
    DecimalIs(b);
    if Rendered(m) == Rendered(n) {
      assert (m < 0) == (n < 0);
      if m < 0 {
        assert Rendered(m)[1..] == Decimal(a) && Rendered(n)[1..] == Decimal(b);
      }
      DecimalDistinct(a, b);
    }
  }

  lemma AlikeIff(a: Raw, b: Raw)
    requires !a.ROther? && !b.ROther?
    ensures Alike(a, b) <==> Written(Stored(a)) == Written(Stored(b))
  {
    match (a, b)
    case (RInt(m), RInt(n)) => RenderedDistinct(m, n);
    case (RInt(m), RList(_)) => RenderedDistinct(m, m);
    case (RList(_), RInt(n)) => RenderedDistinct(n, n);
    case _ =>
  }

  /** Two unmarshalled users collide under every hash if and only if they have the same
      attribute names with values that no hash can tell apart. */
  lemma UsersCollideIff(
      a: map<string, Raw>, b: map<string, Raw>, x: Attrs, y: Attrs, first: seq<string>, second: seq<string>)
    requires Unmarshalled(a, x) && Unmarshalled(b, y)
    requires Enumerates(first, x.Keys) && Enumerates(second, y.Keys)
    ensures (a.Keys == b.Keys && forall k :: k in a ==> Alike(a[k], b[k]))
            <==> forall h: Hash :: DiscriminatorOf(h, x, first) == DiscriminatorOf(h, y, second)
  {
    CollidesIff(x, y, first, second);
    forall k | k in a && k in b
      ensures Alike(a[k], b[k]) <==> Written(x[k]) == Written(y[k])
    {
      AlikeIff(a[k], b[k]);
    }
  }

  /** Two requests that differ at most in what their lists contain. */
  ghost predicate SameButLists(a: map<string, Raw>, b: map<string, Raw>) {
    a.Keys == b.Keys && forall k :: k in a ==> a[k] == b[k] || (a[k].RList? && b[k].RList?)
  }

  /** The discriminator cannot tell unmarshalled users apart by their lists: the type switch
      does not know the type that unmarshalling stores. */
  lemma {:induction false} ListsDoNotDiscriminate(
      h: Hash, a: map<string, Raw>, b: map<string, Raw>, x: Attrs, y: Attrs, order: seq<string>)
    requires SameButLists(a, b) && Unmarshalled(a, x) && Unmarshalled(b, y)
    ensures DiscriminatorOf(h, x, order) == DiscriminatorOf(h, y, order)
  {
    hide DiscriminatorOf;
    forall k | k in x
      ensures Written(x[k]) == Written(y[k])
    {
      AlikeIff(a[k], b[k]);
    }
    SameWritingFolds(h, x, y, order);
  }
}
