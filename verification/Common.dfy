/** Small vocabulary shared by every part of the model: optional values, enumerations of
    map keys in an arbitrary order, and the `Except` partition of the proxy's utilities. */
module Common {
  datatype Option<+T> = None | Some(value: T) {
    function GetOr(default: T): T {
      if Some? then value else default
    }
  }

  /** No element occurs twice. */
  ghost predicate NoDup<T>(s: seq<T>) {
    forall i, j :: 0 <= i < j < |s| ==> s[i] != s[j]
  }

  ghost function Elems<T>(s: seq<T>): set<T> {
    set x | x in s
  }

  /** Splits off the last element. */
  lemma Snoc<T>(s: seq<T>)
    requires s != []
    ensures Elems(s) == Elems(s[..|s| - 1]) + {s[|s| - 1]}
    ensures NoDup(s) ==> NoDup(s[..|s| - 1]) && s[|s| - 1] !in Elems(s[..|s| - 1])
  {
  }

  lemma {:induction false} Distinct<T>(s: seq<T>)
    requires NoDup(s)
    ensures |Elems(s)| == |s|
  {
    if s != [] {
      Snoc(s);
      Distinct(s[..|s| - 1]);
    }
  }

  lemma JoinEmpty<T>(a: seq<T>, b: seq<T>, c: seq<T>)
    ensures a + [] + b + c == a + b + c
    ensures a == [] && b == [] ==> a + b + c == c
    ensures a == [] && c == [] ==> a + b + c == b
    ensures b == [] && c == [] ==> a + b + c == a
  {
  }

  lemma Associates<T>(a: seq<T>, b: seq<T>, c: seq<T>)
    ensures (a + b) + c == a + (b + c)
  {
  }

  lemma TakeAll<T>(s: seq<T>)
    ensures s[..|s|] == s
  {
  }

  lemma NewPrefix<T>(s: seq<T>, i: nat)
    requires i < |s|
    ensures Elems(s[..i + 1]) == Elems(s[..i]) + {s[i]}
    ensures NoDup(s) ==> s[i] !in Elems(s[..i])
  {
  }

  /** `order` lists every element of `keys` exactly once: what ranging over a map may yield. */
  ghost predicate Enumerates<T>(order: seq<T>, keys: set<T>) {
    NoDup(order) && Elems(order) == keys
  }

  /** The elements of `a` that do not occur in `b`, in the order of `a`. */
  function Except<T(==)>(a: seq<T>, b: seq<T>): seq<T> {
    if a == [] then []
    else
      var r := Except(a[..|a| - 1], b);
      if a[|a| - 1] in b then r else r + [a[|a| - 1]]
  }

  lemma {:induction false} ExceptElems<T>(a: seq<T>, b: seq<T>)
    ensures Elems(Except(a, b)) == Elems(a) - Elems(b)
    ensures NoDup(a) ==> NoDup(Except(a, b))
  {
    if a != [] {
      var init, last := a[..|a| - 1], a[|a| - 1];
      ExceptElems(init, b);
      assert a == init + [last];
      assert Elems(a) == Elems(init) + {last};
      var r := Except(init, b);
      assert Elems(r + [last]) == Elems(r) + {last};
      if NoDup(a) && last !in b {
        assert last !in Elems(init);
        assert NoDup(r) && last !in r;
      }
    }
  }

  lemma {:induction false} ExceptConcat<T>(a: seq<T>, c: seq<T>, b: seq<T>)
    ensures Except(a + c, b) == Except(a, b) + Except(c, b)
  {
    if c == [] {
      assert a + c == a;
    } else {
      assert (a + c)[..|a + c| - 1] == a + c[..|c| - 1];
      ExceptConcat(a, c[..|c| - 1], b);
    }
  }

  lemma EnumerationExists<T>(keys: set<T>) returns (order: seq<T>)
    ensures Enumerates(order, keys)
  {
    order := [];
    var rest := keys;
    while rest != {}
      invariant NoDup(order)
      invariant Elems(order) !! rest
      invariant Elems(order) + rest == keys
      decreases |rest|
    {
      var k :| k in rest;
      assert k !in Elems(order);
      order, rest := order + [k], rest - {k};
    }
  }

  lemma {:induction false} ExceptAppend<T>(a: seq<T>, x: T, b: seq<T>)
    ensures Except(a + [x], b) == if x in b then Except(a, b) else Except(a, b) + [x]
  {
  }

  /** The nested loops of `Except`, as the utilities package runs them. */
  method ComputeExcept<T(==)>(a: seq<T>, b: seq<T>) returns (r: seq<T>)
    ensures r == Except(a, b)
  {
    r := [];
    for i := 0 to |a|
      invariant r == Except(a[..i], b)
    {
      var found := false;
      var j := 0;
      while j < |b| && !found
        invariant 0 <= j <= |b|
        invariant found <==> a[i] in b[..j]
      {
        if a[i] == b[j] {
          found := true;
        }
        j := j + 1;
      }
      assert found <==> a[i] in b;
      ExceptAppend(a[..i], a[i], b);
      assert a[..i + 1] == a[..i] + [a[i]];
      if !found {
        r := r + [a[i]];
      }
    }
    assert a[..|a|] == a;
  }

  /** Collects the keys of a map; the order is whatever the runtime picks. */
  method KeysOfMap<K(==), V>(m: map<K, V>) returns (r: seq<K>)
    ensures Enumerates(r, m.Keys)
  {
    r := [];
    var rest := m.Keys;
    while rest != {}
      invariant NoDup(r)
      invariant Elems(r) !! rest
      invariant Elems(r) + rest == m.Keys
      decreases |rest|
    {
      var k :| k in rest;
      assert k !in Elems(r);
      r, rest := r + [k], rest - {k};
    }
  }
}
