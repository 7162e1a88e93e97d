/** Strings as the program compares and sorts them: byte-wise lexicographic order
    (which on UTF-8 is code-point order) and duplicate-free sorted lists. */
module Text {

  datatype Option<+T> = None | Some(value: T)

  newtype Byte = x: int | 0 <= x < 256
  type Bytes = seq<Byte>

  predicate IsSpace(c: char) {
    c == ' ' || '\t' <= c <= '\r'
  }

  /** `strings.TrimSpace`, on the ASCII white space. */
  function TrimSpace(s: string): string {
    if s == "" then s
    else if IsSpace(s[0]) then TrimSpace(s[1..])
    else if IsSpace(s[|s| - 1]) then TrimSpace(s[..|s| - 1])
    else s
  }

  /** `strings.ToLower`, on the ASCII letters. */
  function ToLower(s: string): string {
    seq(|s|, i requires 0 <= i < |s| => if 'A' <= s[i] <= 'Z' then (s[i] as int + 32) as char else s[i])
  }

  /** The pattern of identifiers on both sides of the protocol: 8 to 100 of [A-Za-z0-9_-]. */
  predicate ValidId(s: string) {
    8 <= |s| <= 100 && forall c | c in s ::
      'a' <= c <= 'z' || 'A' <= c <= 'Z' || '0' <= c <= '9' || c == '_' || c == '-'
  }

  predicate ContainsAny(s: string, bad: set<char>) {
    exists c | c in s :: c in bad
  }

  /** Go's `a < b` on strings. */
  predicate Less(a: string, b: string) {
    b != "" && (a == "" || a[0] < b[0] || (a[0] == b[0] && Less(a[1..], b[1..])))
  }

  /** Less at the first difference, or a proper beginning. */
  lemma {:induction false} LessIff(a: string, b: string)
    ensures Less(a, b) <==> exists k :: DiffersAt(a, b, k)
  {
    if a != "" && b != "" && a[0] == b[0] {
      LessIff(a[1..], b[1..]);
      if k :| DiffersAt(a[1..], b[1..], k) {
        assert a[..k + 1] == [a[0]] + a[1..][..k] && b[..k + 1] == [b[0]] + b[1..][..k];
        assert DiffersAt(a, b, k + 1);
      }
      if k :| DiffersAt(a, b, k) {
        assert k > 0;
        assert a[1..][..k - 1] == a[..k][1..] && b[1..][..k - 1] == b[..k][1..];
        assert DiffersAt(a[1..], b[1..], k - 1);
      }
    } else if b != "" && (a == "" || a[0] < b[0]) {
      assert DiffersAt(a, b, 0);
    } else {
      forall k ensures !DiffersAt(a, b, k) {
        if 0 < k <= |a| && k < |b| { assert a[..k][0] == a[0] && b[..k][0] == b[0]; }
      }
    }
  }

  /** The texts agree before `k`, where the first ends or has the lesser character. */
  predicate DiffersAt(a: string, b: string, k: int) {
    0 <= k <= |a| && k < |b| && a[..k] == b[..k] && (k == |a| || a[k] < b[k])
  }

  lemma {:induction false} LessTotal(a: string, b: string)
    ensures a == b || Less(a, b) || Less(b, a)
  {
    if a != "" && b != "" && a[0] == b[0] {
      LessTotal(a[1..], b[1..]);
      assert a == [a[0]] + a[1..] && b == [b[0]] + b[1..];
    }
  }

  lemma {:induction false} LessIrreflexive(a: string)
    ensures !Less(a, a)
  {
    if a != "" {
      LessIrreflexive(a[1..]);
    }
  }

  lemma {:induction false} LessTransitive(a: string, b: string, c: string)
    requires Less(a, b) && Less(b, c)
    ensures Less(a, c)
  {
    if a != "" && a[0] == b[0] && b[0] == c[0] {
      LessTransitive(a[1..], b[1..], c[1..]);
    }
  }

  lemma LessAsymmetric(a: string, b: string)
    requires Less(a, b)
    ensures !Less(b, a) && a != b
  {
    LessIrreflexive(a);
    if Less(b, a) {
      LessTransitive(a, b, a);
    }
  }

  function SetOf<T>(s: seq<T>): set<T> {
    set x | x in s
  }

  lemma {:induction false} SubsetSize<T>(a: set<T>, b: set<T>)
    requires a <= b
    ensures |a| <= |b|
  {
    if a != {} {
      var x :| x in a;
      SubsetSize(a - {x}, b - {x});
    }
  }

  lemma Singleton<T>(s: set<T>, x: T)
    requires |s| == 1 && x in s
    ensures s == {x}
  {
    assert |s - {x}| == 0;
  }

  lemma DropSize<K, V>(m: map<K, V>, k: K)
    requires k in m
    ensures |m - {k}| == |m| - 1
  {
    assert (m - {k}).Keys == m.Keys - {k};
    assert |m - {k}| == |(m - {k}).Keys| && |m| == |m.Keys|;
  }

  predicate StrictlySorted(s: seq<string>) {
    forall i, j | 0 <= i < j < |s| :: Less(s[i], s[j])
  }

  ghost predicate IsLeast(m: string, s: set<string>) {
    m in s && forall x | x in s && x != m :: Less(m, x)
  }

  lemma LeastExists(s: set<string>)
    requires s != {}
    ensures exists m :: IsLeast(m, s)
  {
    var x :| x in s;
    if s == {x} {
      assert IsLeast(x, s);
    } else {
      LeastExists(s - {x});
      var m :| IsLeast(m, s - {x});
      LessTotal(x, m);
      if Less(m, x) {
        assert IsLeast(m, s);
      } else {
        forall y | y in s && y != x ensures Less(x, y) {
          if y != m { LessTransitive(x, m, y); }
        }
        assert IsLeast(x, s);
      }
    }
  }

  /** The elements of `s`, each once, in increasing order. */
  ghost function Ascending(s: set<string>): (r: seq<string>)
    ensures SetOf(r) == s && StrictlySorted(r)
  {
    if s == {} then []
    else
      LeastExists(s);
      var m :| IsLeast(m, s);
      var rest := Ascending(s - {m});
      assert SetOf([m] + rest) == {m} + SetOf(rest);
      assert forall x | x in rest :: x in SetOf(rest);
      [m] + rest
  }

  /** A strictly sorted list is determined by the set of its elements. */
  lemma {:induction false} SortedUnique(a: seq<string>, b: seq<string>)
    requires StrictlySorted(a) && StrictlySorted(b) && SetOf(a) == SetOf(b)
    ensures a == b
  {
    assert a == [] <==> SetOf(a) == {} by { if a != [] { assert a[0] in SetOf(a); } }
    assert b == [] <==> SetOf(b) == {} by { if b != [] { assert b[0] in SetOf(b); } }
    if a != [] {
      assert a[0] in SetOf(b) && b[0] in SetOf(a);
      var i :| 0 <= i < |b| && b[i] == a[0];
      var j :| 0 <= j < |a| && a[j] == b[0];
      assert i == 0 || Less(b[0], a[0]);
      assert j == 0 || Less(a[0], b[0]);
      assert a[0] == b[0] by {
        if Less(a[0], b[0]) { LessAsymmetric(a[0], b[0]); }
      }
      TailSet(a);
      TailSet(b);
      SortedUnique(a[1..], b[1..]);
      assert a == [a[0]] + a[1..] && b == [b[0]] + b[1..];
    }
  }

  lemma TailSet(a: seq<string>)
    requires StrictlySorted(a) && a != []
    ensures SetOf(a[1..]) == SetOf(a) - {a[0]}
  {
    forall k | 0 < k < |a| ensures a[k] != a[0] { LessAsymmetric(a[0], a[k]); }
    forall x | x in a && x != a[0] ensures x in a[1..] {
      var k :| 0 <= k < |a| && a[k] == x;
      assert a[1..][k - 1] == x;
    }
  }

  /** The specification of `union`: both lists' elements, sorted and without duplicates. */
  ghost function Union(a: seq<string>, b: seq<string>): (r: seq<string>)
    ensures SetOf(r) == SetOf(a) + SetOf(b) && StrictlySorted(r)
  {
    Ascending(SetOf(a) + SetOf(b))
  }

  /** `sort.Strings`, on a list without duplicates. */
  method SortStrings(s: seq<string>) returns (r: seq<string>)
    requires forall i, j | 0 <= i < j < |s| :: s[i] != s[j]
    ensures StrictlySorted(r) && SetOf(r) == SetOf(s)
  {
    r := [];
    for i := 0 to |s|
      invariant StrictlySorted(r) && SetOf(r) == SetOf(s[..i])
    {
      assert s[i] !in SetOf(s[..i]);
      assert s[..i + 1] == s[..i] + [s[i]];
      r := Insert(s[i], r);
    }
    assert s[..|s|] == s;
  }

  method Insert(v: string, s: seq<string>) returns (r: seq<string>)
    requires StrictlySorted(s) && v !in SetOf(s)
    ensures StrictlySorted(r) && SetOf(r) == SetOf(s) + {v}
  {
    var k := 0;
    while k < |s| && Less(s[k], v)
      invariant k <= |s| && forall i | 0 <= i < k :: Less(s[i], v)
    {
      k := k + 1;
    }
    r := s[..k] + [v] + s[k..];
    forall j | k <= j < |s| ensures Less(v, s[j]) {
      LessTotal(v, s[k]);
      assert s[k] in SetOf(s);
      if j > k { LessTransitive(v, s[k], s[j]); }
    }
    assert s == s[..k] + s[k..];
    assert forall x :: x in r <==> x in s || x == v;
  }

  /** internal/cloudsync/data.go `union`: a set filled from both lists, drained in
      arbitrary order, then sorted. */
  method UnionStrings(a: seq<string>, b: seq<string>) returns (r: seq<string>)
    ensures r == Union(a, b)
  {
    var m: set<string> := {};
    var both := a + b;
    for i := 0 to |both|
      invariant m == SetOf(both[..i])
    {
      assert both[..i + 1] == both[..i] + [both[i]];
      m := m + {both[i]};
    }
    assert both[..|both|] == both;
    assert m == SetOf(a) + SetOf(b) by {
      assert forall x :: x in both <==> x in a || x in b;
    }
    r := SortedKeys(m);
  }

  /** The elements of a set, drained in arbitrary order, then sorted. */
  method SortedKeys(keys: set<string>) returns (r: seq<string>)
    ensures r == Ascending(keys)
  {
    var out: seq<string> := [];
    var left := keys;
    while left != {}
      invariant SetOf(out) + left == keys && SetOf(out) !! left
      invariant forall i, j | 0 <= i < j < |out| :: out[i] != out[j]
      decreases left
    {
      var v :| v in left;
      assert v !in SetOf(out);
      left := left - {v};
      assert SetOf(out + [v]) == SetOf(out) + {v};
      out := out + [v];
    }
    r := SortStrings(out);
    SortedUnique(r, Ascending(keys));
  }
}
