/** The provenance of an additive merge: what the loop of `mergeAdditions` makes of two maps of sources,
    in whatever order Go walks the first (internal/cloudsync/merge_additions.go). A source whose key is
    taken moves to a key derived from both; the only trouble is a derived key that is itself in use. */
module Sources {
  import opened Text
  import opened Vault
  import opened Merge

  type Map = map<string, Source>

  /** Derived keys do not lead back to the keys they were derived from. */
  ghost predicate NoLoops(h: Digests) {
    forall k, s, t :: h.pair(k, s) != k && h.pair(h.pair(k, s), t) != k
  }

  /** The key a source moves to if its own is taken. */
  function Moved(h: Digests, a: Map, k: string): string
    requires k in a
  {
    h.pair(k, h.source(a[k]))
  }

  lemma MovedApart(h: Digests, a: Map, j: string, k: string)
    requires Injective(h) && j in a && k in a && Moved(h, a, j) == Moved(h, a, k)
    ensures j == k
  {}

  predicate Clashes(a: Map, b: Map, k: string) {
    k in a && k in b && b[k] != a[k]
  }

  // --- one enumeration ---

  /** What stands under a key if only direct writes count: those of `b`, and of `a` where `b` has none. */
  function Plain(a: Map, b: Map, done: set<string>, x: string): Option<Source> {
    if x in b then Some(b[x]) else if x in a && x in done then Some(a[x]) else None
  }

  /** The derived key `x` of `p` would hold the source of `p` anyway. */
  predicate Quiet(a: Map, b: Map, p: string, x: string)
    requires p in a
  {
    Plain(a, b, a.Keys, x) == Some(a[p])
  }

  /** What stands under `x` after the keys in `done` were visited. */
  ghost predicate Stands(h: Digests, a: Map, b: Map, done: set<string>, x: string, v: Option<Source>) {
    var plain := Plain(a, b, done, x);
    && ((forall p | p in a :: Moved(h, a, p) != x) ==> v == plain)
    && forall p | p in a && Moved(h, a, p) == x ::
         if Quiet(a, b, p, x) then v == plain || v == Some(a[p])
         else if p in done && Clashes(a, b, p) then v == Some(a[p])
         else v == plain
  }

  /** A clashing source whose derived key `k` is a key of `a` as well, where it depends on the order
      whether the source of `k` has to move in turn, and where that shows. */
  predicate Tangled(h: Digests, a: Map, b: Map, p: string) {
    && Clashes(a, b, p) && Moved(h, a, p) in a
    && (var k := Moved(h, a, p);
        Clashes(a, b, k) != (a[p] != a[k]) && !Quiet(a, b, k, Moved(h, a, k)))
  }

  /** What a caller can check on the two maps: nothing is tangled. */
  predicate Orderly(h: Digests, a: Map, b: Map) {
    forall p | p in a :: !Tangled(h, a, b, p)
  }

  /** Whether a source finds its key taken does not depend on the order, or does not show. */
  lemma TakenIff(h: Digests, a: Map, b: Map, done: set<string>, out: Map, k: string)
    requires Injective(h) && Orderly(h, a, b) && k in a && k !in done && Stands(h, a, b, done, k, Get(out, k))
    ensures Quiet(a, b, k, Moved(h, a, k)) || (k in out && out[k] != a[k] <==> Clashes(a, b, k))
  {
    if p :| p in a && Moved(h, a, p) == k { assert !Tangled(h, a, b, p); }
  }

  lemma StepStands(h: Digests, a: Map, b: Map, done: set<string>, out: Map, k: string, x: string)
    requires Injective(h) && Orderly(h, a, b) && done <= a.Keys && k in a && k !in done
    requires Stands(h, a, b, done, k, Get(out, k)) && Stands(h, a, b, done, x, Get(out, x))
    ensures Stands(h, a, b, done + {k}, x, Get(AddSource(h, k, a[k], out), x))
  {
    var m := Moved(h, a, k);
    TakenIff(h, a, b, done, out, k);
    forall p | p in a && Moved(h, a, p) == x ensures x == m <==> p == k {
      if x == m { MovedApart(h, a, p, k); }
    }
    hide Injective, Orderly, Moved, Stands;
    if x == m {
      StepAtDerived(h, a, b, done, out, k);
    } else if x == k {
      StepAtKey(h, a, b, done, out, k);
    } else {
      StepElsewhere(h, a, b, done, out, k, x);
    }
  }

  lemma StepElsewhere(h: Digests, a: Map, b: Map, done: set<string>, out: Map, k: string, x: string)
    requires k in a && x != k && Moved(h, a, k) != x && Stands(h, a, b, done, x, Get(out, x))
    ensures Stands(h, a, b, done + {k}, x, Get(AddSource(h, k, a[k], out), x))
  {
    assert Plain(a, b, done + {k}, x) == Plain(a, b, done, x) && Get(AddSource(h, k, a[k], out), x) == Get(out, x);
  }

  lemma StepAtKey(h: Digests, a: Map, b: Map, done: set<string>, out: Map, k: string)
    requires done <= a.Keys && k in a && k !in done && Moved(h, a, k) != k && Stands(h, a, b, done, k, Get(out, k))
    ensures Stands(h, a, b, done + {k}, k, Get(AddSource(h, k, a[k], out), k))
  {
  }

  /** The same at the derived key of the source just visited. */
  lemma StepAtDerived(h: Digests, a: Map, b: Map, done: set<string>, out: Map, k: string)
    requires done <= a.Keys && k in a && k !in done && (forall p | p in a && Moved(h, a, p) == Moved(h, a, k) :: p == k)
    requires Quiet(a, b, k, Moved(h, a, k)) || (k in out && out[k] != a[k] <==> Clashes(a, b, k))
    requires Stands(h, a, b, done, Moved(h, a, k), Get(out, Moved(h, a, k)))
    ensures Stands(h, a, b, done + {k}, Moved(h, a, k), Get(AddSource(h, k, a[k], out), Moved(h, a, k)))
  {}

  lemma {:induction false} LoopStands(h: Digests, a: Map, b: Map, done: set<string>, out: Map, order: seq<string>)
    requires Injective(h) && Orderly(h, a, b) && done <= a.Keys && (forall k | k in order :: k in a && k !in done)
    requires forall i, j | 0 <= i < j < |order| :: order[i] != order[j]
    requires forall x :: Stands(h, a, b, done, x, Get(out, x))
    ensures forall x :: Stands(h, a, b, done + SetOf(order), x, Get(AddSources(h, a, out, order), x))
    decreases |order|
  {
    if order == [] {
      assert done + SetOf(order) == done;
    } else {
      var k := order[0];
      var next := AddSource(h, k, a[k], out);
      forall x ensures Stands(h, a, b, done + {k}, x, Get(next, x)) {
        hide Stands;
        StepStands(h, a, b, done, out, k, x);
      }
      LoopStands(h, a, b, done + {k}, next, order[1..]);
      assert order == [k] + order[1..];
      assert done + SetOf(order) == done + {k} + SetOf(order[1..]);
    }
  }

  /** The outcome of an orderly merge, key by key: moved sources first, then those of `b`, then of `a`. */
  ghost predicate Joined(h: Digests, a: Map, b: Map, m: Map) {
    forall x ::
      && ((forall p | p in a && Clashes(a, b, p) :: Moved(h, a, p) != x) ==> Get(m, x) == Plain(a, b, a.Keys, x))
      && forall p | p in a && Clashes(a, b, p) && Moved(h, a, p) == x :: Get(m, x) == Some(a[p])
  }

  /** In an orderly merge every enumeration has this outcome. */
  lemma OrderlyJoins(h: Digests, a: Map, b: Map, order: seq<string>)
    requires Injective(h) && Orderly(h, a, b) && Enumerates(order, a.Keys)
    ensures (forall k | k in order :: k in a) && Joined(h, a, b, AddSources(h, a, b, order))
  {
    assert forall k | k in order :: k in SetOf(order);
    LoopStands(h, a, b, {}, b, order);
    assert {} + SetOf(order) == a.Keys;
    var m := AddSources(h, a, b, order);
    forall x
      ensures (forall p | p in a && Clashes(a, b, p) :: Moved(h, a, p) != x) ==> Get(m, x) == Plain(a, b, a.Keys, x)
      ensures forall p | p in a && Clashes(a, b, p) && Moved(h, a, p) == x :: Get(m, x) == Some(a[p])
    {
      assert Stands(h, a, b, a.Keys, x, Get(m, x));
    }
  }

  lemma JoinedUnique(h: Digests, a: Map, b: Map, m: Map, n: Map)
    requires Joined(h, a, b, m) && Joined(h, a, b, n)
    ensures m == n
  {
    forall x ensures Get(m, x) == Get(n, x) {
      if p :| p in a && Clashes(a, b, p) && Moved(h, a, p) == x {}
    }
    SameMap(m, n);
  }

  // --- two enumerations that differ ---

  /** Keys that write to `x` neither directly nor by moving leave it alone. */
  lemma {:induction false} OthersKeep(h: Digests, a: Map, out: Map, order: seq<string>, x: string)
    requires forall k | k in order :: k in a && k != x && Moved(h, a, k) != x
    ensures Get(AddSources(h, a, out, order), x) == Get(out, x)
    decreases |order|
  {
    if order != [] {
      assert forall k | k in order[1..] :: k in order;
      OthersKeep(h, a, AddSource(h, order[0], a[order[0]], out), order[1..], x);
    }
  }

  lemma {:induction false} AddSourcesSplit(h: Digests, a: Map, out: Map, o1: seq<string>, o2: seq<string>)
    requires (forall k | k in o1 :: k in a) && (forall k | k in o2 :: k in a)
    ensures AddSources(h, a, out, o1 + o2) == AddSources(h, a, AddSources(h, a, out, o1), o2)
    decreases |o1|
  {
    if o1 == [] {
      assert o1 + o2 == o2;
    } else {
      assert (o1 + o2)[0] == o1[0] && (o1 + o2)[1..] == o1[1..] + o2;
      AddSourcesSplit(h, a, AddSource(h, o1[0], a[o1[0]], out), o1[1..], o2);
    }
  }

  lemma {:induction false} SomeOrder(keys: set<string>) returns (order: seq<string>)
    ensures Enumerates(order, keys)
  {
    order := [];
    if keys != {} {
      var k :| k in keys;
      var rest := SomeOrder(keys - {k});
      order := [k] + rest;
      assert k !in SetOf(rest);
      assert SetOf(order) == {k} + SetOf(rest);
    }
  }

  lemma TwoSources(h: Digests, a: Map, out: Map, j: string, k: string)
    requires j in a && k in a
    ensures AddSources(h, a, out, [j]) == AddSource(h, j, a[j], out)
    ensures AddSources(h, a, out, [j, k]) == AddSource(h, k, a[k], AddSource(h, j, a[j], out))
  {
    assert [j][1..] == [] && [k][1..] == [] && [j, k][1..] == [k];
    assert AddSources(h, a, AddSource(h, j, a[j], out), [k]) == AddSource(h, k, a[k], AddSource(h, j, a[j], out));
  }

  predicate Distinct(s: seq<string>) {
    forall i, j | 0 <= i < j < |s| :: s[i] != s[j]
  }

  lemma DistinctConcat(s: seq<string>, t: seq<string>)
    requires Distinct(s) && Distinct(t) && forall x | x in s :: x !in t
    ensures Distinct(s + t)
  {
    forall i, j | 0 <= i < j < |s + t| ensures (s + t)[i] != (s + t)[j] {
      if i < |s| <= j { assert s[i] in s && t[j - |s|] in t; }
    }
  }

  /** The two keys first, then the rest, and the key `m` at the very end. */
  lemma Around(a: Map, first: seq<string>, m: string) returns (rest: seq<string>, last: seq<string>)
    requires (forall k | k in first :: k in a && k != m) && Distinct(first)
    ensures Enumerates(first + rest + last, a.Keys) && (forall k | k in rest :: k in a && k !in first && k != m)
    ensures last == if m in a then [m] else []
  {
    rest := SomeOrder(a.Keys - SetOf(first) - {m});
    last := if m in a then [m] else [];
    var all := first + rest + last;
    assert forall k | k in rest :: k in SetOf(rest);
    assert forall k :: k in all <==> k in first || k in rest || k in last;
    DistinctConcat(first, rest);
    DistinctConcat(first + rest, last);
    assert SetOf(all) == a.Keys by {
      forall k | k in a ensures k in all { assert k in SetOf(first) || k == m || k in SetOf(rest); }
    }
  }

  /** What stands under `m` at the end, if it is visited last and no key but those of `first` moves there. */
  lemma EndsAt(h: Digests, a: Map, b: Map, first: seq<string>, m: string) returns (order: seq<string>)
    requires Injective(h) && NoLoops(h)
    requires (forall k | k in first :: k in a && k != m) && Distinct(first)
    requires forall k | k in a && Moved(h, a, k) == m :: k in first
    ensures Enumerates(order, a.Keys) && (forall k | k in order :: k in a)
    ensures var v := Get(AddSources(h, a, b, first), m);
            Get(AddSources(h, a, b, order), m) == if v.None? && m in a then Some(a[m]) else v
    ensures forall x | x in first && (forall k | k in a && Moved(h, a, k) == x :: k in first) ::
              Get(AddSources(h, a, b, order), x) == Get(AddSources(h, a, b, first), x)
  {
    var rest, last := Around(a, first, m);
    order := first + rest + last;
    assert forall k | k in order :: k in SetOf(order);
    var out := AddSources(h, a, b, first);
    assert forall k | k in first + rest :: k in a;
    AddSourcesSplit(h, a, b, first + rest, last);
    AddSourcesSplit(h, a, b, first, rest);
    OthersKeep(h, a, out, rest, m);
    var before := AddSources(h, a, out, rest);
    forall x | x in first && (forall k | k in a && Moved(h, a, k) == x :: k in first)
      ensures Get(AddSources(h, a, b, order), x) == Get(out, x)
    {
      OthersKeep(h, a, out, rest, x);
      OthersKeep(h, a, before, last, x);
    }
    if m in a {
      assert AddSources(h, a, before, [m]) == AddSource(h, m, a[m], before);
      assert Moved(h, a, m) != m;
    }
  }

  /** A tangle shows: visiting `p` before or after its derived key gives two outcomes. */
  lemma TangledDiffers(h: Digests, a: Map, b: Map, p: string) returns (one: seq<string>, two: seq<string>)
    requires Injective(h) && NoLoops(h) && p in a && Tangled(h, a, b, p)
    ensures Enumerates(one, a.Keys) && Enumerates(two, a.Keys) && (forall k | k in one :: k in a)
            && (forall k | k in two :: k in a)
    ensures AddSources(h, a, b, one) != AddSources(h, a, b, two)
  {
    var k := Moved(h, a, p);
    var m := Moved(h, a, k);
    assert k != p && m != k && m != p;
    forall j | j in a && Moved(h, a, j) == m ensures j == k { MovedApart(h, a, j, k); }
    var v, w := a[p], a[k];
    TwoSources(h, a, b, p, k);
    TwoSources(h, a, b, k, p);
    var x := AddSources(h, a, b, [p, k]);
    var y := AddSources(h, a, b, [k, p]);
    assert x == AddSource(h, k, w, AddSource(h, p, v, b));
    assert y == AddSource(h, p, v, AddSource(h, k, w, b));
    assert Get(x, m) == if v != w then Some(w) else Get(b, m);
    assert Get(y, m) == if Clashes(a, b, k) then Some(w) else Get(b, m);
    one := EndsAt(h, a, b, [p, k], m);
    two := EndsAt(h, a, b, [k, p], m);
  }

  ghost predicate AllAgree(h: Digests, a: Map, b: Map) {
    forall one, two | Enumerates(one, a.Keys) && Enumerates(two, a.Keys) && (forall k | k in one :: k in a)
      && (forall k | k in two :: k in a) ::
      AddSources(h, a, b, one) == AddSources(h, a, b, two)
  }

  /** Exactly when the order does not matter. */
  lemma OrderIrrelevantIff(h: Digests, a: Map, b: Map)
    requires Injective(h) && NoLoops(h)
    ensures AllAgree(h, a, b) <==> Orderly(h, a, b)
  {
    if Orderly(h, a, b) {
      forall one, two | Enumerates(one, a.Keys) && Enumerates(two, a.Keys) && (forall k | k in one :: k in a)
        && (forall k | k in two :: k in a)
        ensures AddSources(h, a, b, one) == AddSources(h, a, b, two)
      {
        OrderlyJoins(h, a, b, one);
        OrderlyJoins(h, a, b, two);
        JoinedUnique(h, a, b, AddSources(h, a, b, one), AddSources(h, a, b, two));
      }
    } else {
      var p :| p in a && Tangled(h, a, b, p);
      var one, two := TangledDiffers(h, a, b, p);
    }
  }

  // --- which sources survive ---

  /** Every source of `b` is where it was; every source of `a` is under its key or under its derived key. */
  predicate Kept(h: Digests, a: Map, b: Map, m: Map) {
    && (forall k | k in b :: Get(m, k) == Some(b[k]))
    && (forall k | k in a :: Get(m, k) == Some(a[k]) || Get(m, Moved(h, a, k)) == Some(a[k]))
  }

  lemma KeptValues(h: Digests, a: Map, b: Map, m: Map)
    requires Kept(h, a, b, m)
    ensures a.Values + b.Values <= m.Values
  {
    forall v | v in a.Values ensures v in m.Values {
      var k :| k in a && a[k] == v;
      assert Get(m, k) == Some(v) || Get(m, Moved(h, a, k)) == Some(v);
    }
    forall v | v in b.Values ensures v in m.Values {
      var k :| k in b && b[k] == v;
      assert Get(m, k) == Some(v);
    }
  }

  lemma {:induction false} NoNewValues(h: Digests, a: Map, b: Map, out: Map, order: seq<string>)
    requires (forall k | k in order :: k in a) && out.Values <= a.Values + b.Values
    ensures AddSources(h, a, out, order).Values <= a.Values + b.Values
    decreases |order|
  {
    if order != [] {
      var k := order[0];
      var next := AddSource(h, k, a[k], out);
      forall v | v in next.Values ensures v in a.Values + b.Values {
        var x :| x in next && next[x] == v;
        if x in out && out[x] == v { assert v in out.Values; } else { assert v == a[k] && v in a.Values; }
      }
      NoNewValues(h, a, b, next, order[1..]);
    }
  }

  /** No clashing source has a derived key that holds another source, in `b`, or in `a` where moving it
      out of the way depends on the order. */
  predicate RoomAt(h: Digests, a: Map, b: Map, p: string) {
    Clashes(a, b, p) ==>
      var k := Moved(h, a, p);
      && (k in b ==> b[k] == a[p])
      && (k in a && k !in b && a[k] != a[p] ==> Quiet(a, b, k, Moved(h, a, k)))
  }

  /** What a caller can check on the two maps: every clashing source has room to move to. */
  predicate Roomy(h: Digests, a: Map, b: Map) {
    forall p | p in a :: RoomAt(h, a, b, p)
  }

  lemma RoomyIsOrderly(h: Digests, a: Map, b: Map)
    requires Roomy(h, a, b)
    ensures Orderly(h, a, b)
  {
    forall p | p in a ensures !Tangled(h, a, b, p) {
      assert RoomAt(h, a, b, p);
    }
  }

  lemma RoomyKeeps(h: Digests, a: Map, b: Map, m: Map)
    requires Injective(h) && Roomy(h, a, b) && Joined(h, a, b, m)
    ensures Kept(h, a, b, m)
  {
    forall k | k in b ensures Get(m, k) == Some(b[k]) {
      if p :| p in a && Clashes(a, b, p) && Moved(h, a, p) == k { assert RoomAt(h, a, b, p); }
    }
    forall k | k in a ensures Get(m, k) == Some(a[k]) || Get(m, Moved(h, a, k)) == Some(a[k]) {
      if !Clashes(a, b, k) {
        if p :| p in a && Clashes(a, b, p) && Moved(h, a, p) == k {
          assert RoomAt(h, a, b, p);
          forall q | q in a && Moved(h, a, q) == Moved(h, a, k) ensures q == k { MovedApart(h, a, q, k); }
        }
      }
    }
  }

  /** Without room, some order loses a source. */
  lemma CrowdedLoses(h: Digests, a: Map, b: Map, p: string) returns (order: seq<string>)
    requires Injective(h) && NoLoops(h) && p in a && !RoomAt(h, a, b, p)
    ensures Enumerates(order, a.Keys) && (forall k | k in order :: k in a) && !Kept(h, a, b, AddSources(h, a, b, order))
  {
    var k := Moved(h, a, p);
    assert k != p;
    forall j | j in a && Moved(h, a, j) == k ensures j == p { MovedApart(h, a, j, p); }
    if k in b && b[k] != a[p] {
      TwoSources(h, a, b, p, p);
      order := EndsAt(h, a, b, [p], k);
    } else {
      var m := Moved(h, a, k);
      assert m != k && m != p;
      forall j | j in a && Moved(h, a, j) == m ensures j == k { MovedApart(h, a, j, k); }
      TwoSources(h, a, b, k, p);
      var y := AddSources(h, a, b, [k, p]);
      assert y == AddSource(h, p, a[p], AddSource(h, k, a[k], b));
      assert Get(y, k) == Some(a[p]) && Get(y, m) == Get(b, m);
      order := EndsAt(h, a, b, [k, p], m);
      assert Get(AddSources(h, a, b, order), k) == Some(a[p]);
    }
  }

  ghost predicate AllKept(h: Digests, a: Map, b: Map) {
    forall order | Enumerates(order, a.Keys) && (forall k | k in order :: k in a) ::
      Kept(h, a, b, AddSources(h, a, b, order))
  }

  /** Exactly when no source is lost in any order. */
  lemma SourcesSurviveIff(h: Digests, a: Map, b: Map)
    requires Injective(h) && NoLoops(h)
    ensures AllKept(h, a, b) <==> Roomy(h, a, b)
  {
    if Roomy(h, a, b) {
      RoomyIsOrderly(h, a, b);
      forall order | Enumerates(order, a.Keys) && (forall k | k in order :: k in a)
        ensures Kept(h, a, b, AddSources(h, a, b, order)) {
        OrderlyJoins(h, a, b, order);
        RoomyKeeps(h, a, b, AddSources(h, a, b, order));
      }
    } else {
      var p :| p in a && !RoomAt(h, a, b, p);
      var order := CrowdedLoses(h, a, b, p);
    }
  }

  /** A source of `b` under a derived key is lost in every order. */
  lemma OccupiedKeyIsLost(h: Digests, k: string, u: Source, v: Source, w: Source, order: seq<string>)
    requires u != v && v != w && u != w && h.pair(k, h.source(v)) != k && Enumerates(order, {k})
    ensures var key := h.pair(k, h.source(v));
            var a, b := map[k := v], map[k := u, key := w];
            && !RoomAt(h, a, b, k) && Orderly(h, a, b)
            && (forall x | x in order :: x in a) && w !in AddSources(h, a, b, order).Values
  {
    var key := h.pair(k, h.source(v));
    var a, b := map[k := v], map[k := u, key := w];
    assert order == [k] by {
      assert k in SetOf(order);
      assert forall i | 0 <= i < |order| :: order[i] in SetOf(order);
      assert order[0] == order[|order| - 1];
    }
    TwoSources(h, a, b, k, k);
    assert AddSources(h, a, b, order) == map[k := u, key := v];
  }

  /** A source of `a` under a derived key is lost or not, as the two keys are visited. */
  lemma OrderMattersForForeignKeys(h: Digests, k: string, u: Source, v: Source, w: Source)
    requires u != v && v != w && u != w && h.pair(k, h.source(v)) != k
    requires h.pair(h.pair(k, h.source(v)), h.source(w)) !in {k, h.pair(k, h.source(v))}
    ensures var key := h.pair(k, h.source(v));
            var a, b := map[k := v, key := w], map[k := u];
            && Tangled(h, a, b, k)
            && w in AddSources(h, a, b, [k, key]).Values
            && w !in AddSources(h, a, b, [key, k]).Values
  {
    var key := h.pair(k, h.source(v));
    var a, b := map[k := v, key := w], map[k := u];
    var moved := h.pair(key, h.source(w));
    TwoSources(h, a, b, k, key);
    TwoSources(h, a, b, key, k);
    var m := map[k := u, key := v, moved := w];
    assert AddSources(h, a, b, [k, key]) == m && m[moved] == w;
    assert AddSources(h, a, b, [key, k]) == map[k := u, key := v];
  }

  // --- one merge after another ---

  predicate Clashless(a: Map, b: Map) {
    forall k | k in a :: !Clashes(a, b, k)
  }

  lemma ClashlessJoins(h: Digests, a: Map, b: Map, order: seq<string>)
    requires Injective(h) && Clashless(a, b) && Enumerates(order, a.Keys)
    ensures (forall k | k in order :: k in a) && AddSources(h, a, b, order) == a + b
  {
    OrderlyJoins(h, a, b, order);
    var m := AddSources(h, a, b, order);
    forall x ensures Get(m, x) == Get(a + b, x) {
      assert forall p | p in a && Clashes(a, b, p) :: Moved(h, a, p) != x;
    }
    SameMap(m, a + b);
  }

  /** Two outcomes of one merge, merged in turn into sources they do not clash with, come to the same exactly
      if they differ only where these have a source: a later merge may hide what the order of an earlier one did. */
  lemma HiddenIff(h: Digests, m: Map, n: Map, b: Map, one: seq<string>, two: seq<string>)
    requires Injective(h) && Clashless(m, b) && Clashless(n, b) && Enumerates(one, m.Keys) && Enumerates(two, n.Keys)
    ensures (forall k | k in one :: k in m) && (forall k | k in two :: k in n)
    ensures AddSources(h, m, b, one) == AddSources(h, n, b, two) <==> forall x | x !in b :: Get(m, x) == Get(n, x)
  {
    ClashlessJoins(h, m, b, one);
    ClashlessJoins(h, n, b, two);
    if m + b == n + b {
      forall x | x !in b ensures Get(m, x) == Get(n, x) {
        assert Get(m + b, x) == Get(n + b, x);
      }
    }
    if forall x | x !in b :: Get(m, x) == Get(n, x) {
      forall x ensures Get(m + b, x) == Get(n + b, x) {}
      SameMap(m + b, n + b);
    }
  }

  /** It may, or it may not: the two outcomes above, merged into nothing and into the source that one lacks. */
  lemma LaterMergeMayHide(h: Digests, k: string, u: Source, v: Source, w: Source, one: seq<string>, two: seq<string>)
    requires Injective(h) && u != v && v != w && u != w && h.pair(k, h.source(v)) != k
    requires h.pair(h.pair(k, h.source(v)), h.source(w)) !in {k, h.pair(k, h.source(v))}
    requires var key := h.pair(k, h.source(v));
             var a, b := map[k := v, key := w], map[k := u];
             && Enumerates(one, AddSources(h, a, b, [k, key]).Keys)
             && Enumerates(two, AddSources(h, a, b, [key, k]).Keys)
    ensures var key := h.pair(k, h.source(v));
            var a, b := map[k := v, key := w], map[k := u];
            var m, n := AddSources(h, a, b, [k, key]), AddSources(h, a, b, [key, k]);
            && Tangled(h, a, b, k) && (forall x | x in one :: x in m) && (forall x | x in two :: x in n)
            && AddSources(h, m, map[], one) != AddSources(h, n, map[], two)
            && (var rest := map[h.pair(key, h.source(w)) := w];
                AddSources(h, m, rest, one) == AddSources(h, n, rest, two))
  {
    var key := h.pair(k, h.source(v));
    var a, b := map[k := v, key := w], map[k := u];
    var m, n := AddSources(h, a, b, [k, key]), AddSources(h, a, b, [key, k]);
    var moved := h.pair(key, h.source(w));
    OrderMattersForForeignKeys(h, k, u, v, w);
    TwoSources(h, a, b, k, key);
    TwoSources(h, a, b, key, k);
    assert m == map[k := u, key := v, moved := w] && n == map[k := u, key := v];
    HiddenIff(h, m, n, map[], one, two);
    HiddenIff(h, m, n, map[moved := w], one, two);
    assert Get(m, moved) != Get(n, moved);
  }

  // --- source keys as the program makes them ---

  /** Every derived source key holds the source it was derived from. */
  ghost predicate WellKeyed(h: Digests, s: Map) {
    forall k, v {:trigger h.pair(k, h.source(v))} :: h.pair(k, h.source(v)) in s ==> s[h.pair(k, h.source(v))] == v
  }

  lemma WellKeyedIsRoomy(h: Digests, a: Map, b: Map)
    requires WellKeyed(h, a) && WellKeyed(h, b)
    ensures Roomy(h, a, b) && Orderly(h, a, b)
  {
    forall p | p in a ensures RoomAt(h, a, b, p) {
      var k := h.pair(p, h.source(a[p]));
      assert (k in a ==> a[k] == a[p]) && (k in b ==> b[k] == a[p]);
    }
    RoomyIsOrderly(h, a, b);
  }

  lemma JoinedWellKeyed(h: Digests, a: Map, b: Map, m: Map)
    requires Injective(h) && WellKeyed(h, a) && WellKeyed(h, b) && Joined(h, a, b, m)
    ensures WellKeyed(h, m)
  {
    forall j, w | h.pair(j, h.source(w)) in m ensures m[h.pair(j, h.source(w))] == w {
      var x := h.pair(j, h.source(w));
      assert Get(m, x) == Some(m[x]);
      if p :| p in a && Clashes(a, b, p) && Moved(h, a, p) == x {}
    }
  }
}
