// Small helpers shared by the components.
module Common {

  datatype Option<+T> = None | Some(value: T)

  ghost predicate NoDuplicates<T>(s: seq<T>) {
    forall i, j :: 0 <= i < j < |s| ==> s[i] != s[j]
  }

  function Members<T(==)>(s: seq<T>): set<T> {
    set x | x in s
  }

  // What std::remove followed by erase leaves: the order of the others is kept.
  function Without<T(==)>(s: seq<T>, x: T): (r: seq<T>)
    ensures forall y | y in r :: y in s && y != x
    ensures forall y | y in s && y != x :: y in r
    ensures |r| <= |s|
  {
    if s == [] then []
    else if s[0] == x then Without(s[1..], x)
    else [s[0]] + Without(s[1..], x)
  }

  lemma {:induction false} WithoutAbsent<T>(s: seq<T>, x: T)
    requires x !in s
    ensures Without(s, x) == s
  {
    if s != [] {
      WithoutAbsent(s[1..], x);
    }
  }

  lemma {:induction false} WithoutConcat<T>(s: seq<T>, t: seq<T>, x: T)
    ensures Without(s + t, x) == Without(s, x) + Without(t, x)
  {
    if s == [] {
      assert s + t == t;
    } else {
      assert (s + t)[1..] == s[1..] + t;
      WithoutConcat(s[1..], t, x);
    }
  }

  lemma {:induction false} WithoutKeepsDistinct<T>(s: seq<T>, x: T)
    requires NoDuplicates(s)
    ensures NoDuplicates(Without(s, x))
  {
    if s != [] {
      WithoutKeepsDistinct(s[1..], x);
      assert s[0] !in s[1..];
    }
  }

  // std::remove and erase on a deque.
  method RemoveErase<T(==)>(s: seq<T>, x: T) returns (r: seq<T>)
    ensures r == Without(s, x)
  {
    r := [];
    var i := 0;
    while i < |s|
      invariant 0 <= i <= |s|
      invariant r == Without(s[..i], x)
    {
      WithoutConcat(s[..i], [s[i]], x);
      assert s[..i + 1] == s[..i] + [s[i]];
      if s[i] != x {
        r := r + [s[i]];
      }
      i := i + 1;
    }
    assert s[..i] == s;
  }

  // The elements of s that are not in `out`, in order.
  function Kept<T(==)>(s: seq<T>, out: set<T>): (r: seq<T>)
    ensures forall x | x in r :: x in s && x !in out
    ensures forall x | x in s && x !in out :: x in r
  {
    if s == [] then []
    else if s[|s| - 1] in out then Kept(s[..|s| - 1], out)
    else Kept(s[..|s| - 1], out) + [s[|s| - 1]]
  }

  lemma {:induction false} KeptDistinct<T>(s: seq<T>, out: set<T>)
    requires NoDuplicates(s)
    ensures NoDuplicates(Kept(s, out))
  {
    if s != [] {
      KeptDistinct(s[..|s| - 1], out);
    }
  }

  lemma {:induction false} KeptWithout<T>(s: seq<T>, out: set<T>, x: T)
    ensures Kept(s, out + {x}) == Without(Kept(s, out), x)
  {
    if s != [] {
      var init, last := s[..|s| - 1], s[|s| - 1];
      KeptWithout(init, out, x);
      WithoutConcat(Kept(init, out), [last], x);
    }
  }

  lemma {:induction false} KeptConcat<T>(s: seq<T>, t: seq<T>, out: set<T>)
    ensures Kept(s + t, out) == Kept(s, out) + Kept(t, out)
  {
    if t == [] {
      assert s + t == s;
    } else {
      var init, last := t[..|t| - 1], t[|t| - 1];
      assert (s + t)[..|s + t| - 1] == s + init;
      KeptConcat(s, init, out);
    }
  }

  lemma {:induction false} KeptIgnores<T>(s: seq<T>, out: set<T>, x: T)
    requires x in out
    ensures Kept(Without(s, x), out) == Kept(s, out)
  {
    if s != [] {
      var init, last := s[..|s| - 1], s[|s| - 1];
      assert s == init + [last];
      WithoutConcat(init, [last], x);
      KeptIgnores(init, out, x);
      KeptConcat(Without(init, x), Without([last], x), out);
      assert last != x ==> Kept([last], out) == if last in out then [] else [last];
    }
  }

  // ---------- sequences and maps put together ----------

  lemma ThreeParts<T>(a: seq<T>, b: seq<T>, c: seq<T>)
    ensures a + (b + c) == (a + b) + c
  {
  }

  lemma NothingBefore<T>(a: seq<T>)
    ensures [] + a == a
  {
  }

  lemma FrontAndBack<T>(a: seq<T>, b: seq<T>)
    ensures (a + b)[..|a|] == a && (a + b)[|a|..] == b
  {
  }

  lemma InitAndLast<T>(a: seq<T>)
    requires a != []
    ensures a == a[..|a| - 1] + [a[|a| - 1]]
  {
  }

  lemma TwiceIsOnce<K, V>(a: map<K, V>, k: K, x: V, y: V)
    ensures a[k := x][k := y] == a[k := y]
  {
  }
}
