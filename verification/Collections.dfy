/** Sequences, sets and maps as the models iterate over them. */
module Collections {
  ghost predicate Distinct<T(!new)>(s: seq<T>) {
    forall i, j | 0 <= i < j < |s| :: s[i] != s[j]
  }

  // ---------------------------------------------------------------- sequences of sequences

  function Flatten<T>(parts: seq<seq<T>>): seq<T> {
    if parts == [] then [] else Flatten(parts[..|parts| - 1]) + parts[|parts| - 1]
  }

  lemma FlattenNothing<T>()
    ensures Flatten<T>([]) == []
  {
  }

  lemma FlattenAppend<T>(parts: seq<seq<T>>, last: seq<T>)
    ensures Flatten(parts + [last]) == Flatten(parts) + last
  {
    assert (parts + [last])[..|parts|] == parts;
  }

  lemma {:induction false} FlattenConcat<T>(a: seq<seq<T>>, b: seq<seq<T>>)
    ensures Flatten(a + b) == Flatten(a) + Flatten(b)
  {
    if b == [] {
      assert a + b == a;
    } else {
      var n := |b| - 1;
      assert (a + b)[..|a + b| - 1] == a + b[..n] && (a + b)[|a + b| - 1] == b[n];
      FlattenConcat(a, b[..n]);
      Associate(Flatten(a), Flatten(b[..n]), b[n]);
    }
  }

  lemma Associate<T>(a: seq<T>, b: seq<T>, c: seq<T>)
    ensures (a + b) + c == a + (b + c)
  {
  }

  lemma FlattenHead<T>(parts: seq<seq<T>>)
    requires parts != []
    ensures Flatten(parts) == parts[0] + Flatten(parts[1..])
  {
    assert parts == [parts[0]] + parts[1..];
    FlattenConcat([parts[0]], parts[1..]);
    assert [parts[0]][..0] == [];
    assert Flatten([parts[0]]) == parts[0];
  }

  /** `a` is `b` with some elements left out, in the same order. */
  ghost predicate Subsequence<T(!new)>(a: seq<T>, b: seq<T>)
    decreases |b|
  {
    a == [] || (b != [] && (
      (a[|a| - 1] == b[|b| - 1] && Subsequence(a[..|a| - 1], b[..|b| - 1])) || Subsequence(a, b[..|b| - 1])))
  }

  lemma {:induction false} SubsequenceLonger<T(!new)>(a: seq<T>, b: seq<T>, c: seq<T>)
    requires Subsequence(a, b)
    ensures Subsequence(a, b + c)
    decreases |c|
  {
    if c == [] {
      assert b + c == b;
    } else {
      SubsequenceLonger(a, b, c[..|c| - 1]);
      assert (b + c)[..|b + c| - 1] == b + c[..|c| - 1];
    }
  }

  lemma {:induction false} SubsequenceBoth<T(!new)>(a: seq<T>, b: seq<T>, c: seq<T>)
    requires Subsequence(a, b)
    ensures Subsequence(a + c, b + c)
    decreases |c|
  {
    if c == [] {
      assert a + c == a && b + c == b;
    } else {
      SubsequenceBoth(a, b, c[..|c| - 1]);
      assert (b + c)[..|b + c| - 1] == b + c[..|c| - 1] && (a + c)[..|a + c| - 1] == a + c[..|c| - 1];
    }
  }

  // ---------------------------------------------------------------- iteration over sets and maps

  lemma SomeElement<T>(s: seq<T>)
    requires s != []
    ensures exists x :: x in s
  {
    assert s[0] in s;
  }

  lemma NonEmpty<T>(s: set<T>)
    requires s != {}
    ensures exists k :: k in s
  {
  }

  lemma AppendedHas<T>(r: seq<T>, k: T)
    ensures k in r + [k]
    ensures forall x | x in r :: x in r + [k]
    ensures forall x | x in r + [k] :: x in r || x == k
  {
    assert (r + [k])[|r|] == k;
  }

  /** The elements in an order the caller must not rely on, each once. */
  method Elements<T>(s: set<T>) returns (r: seq<T>)
    ensures forall x :: x in r <==> x in s
    ensures forall i, j | 0 <= i < j < |r| :: r[i] != r[j]
  {
    var todo := s;
    r := [];
    while todo != {}
      invariant todo <= s
      invariant forall x :: x in r <==> x in s - todo
      invariant forall i, j | 0 <= i < j < |r| :: r[i] != r[j]
      decreases |todo|
    {
      NonEmpty(todo);
      var k :| k in todo;
      assert k !in r;
      AppendedHas(r, k);
      todo := todo - {k};
      r := r + [k];
    }
  }

  /** Inserts the pairs one by one. */
  function FromPairs<K, V>(ps: seq<(K, V)>): map<K, V> {
    if ps == [] then map[] else FromPairs(ps[..|ps| - 1])[ps[|ps| - 1].0 := ps[|ps| - 1].1]
  }

  lemma AddPair<K, V>(ps: seq<(K, V)>, p: (K, V))
    ensures FromPairs(ps + [p]) == FromPairs(ps)[p.0 := p.1]
  {
    assert (ps + [p])[..|ps|] == ps;
  }

  /** Pairs that all agree with a map and cover its keys rebuild it, in whatever order they come. */
  lemma {:induction false} FromPairsHas<K, V>(ps: seq<(K, V)>, m: map<K, V>)
    requires forall i | 0 <= i < |ps| :: ps[i].0 in m && m[ps[i].0] == ps[i].1
    ensures forall k :: k in FromPairs(ps) <==> exists i :: 0 <= i < |ps| && ps[i].0 == k
    ensures forall k | k in FromPairs(ps) :: k in m && FromPairs(ps)[k] == m[k]
  {
    if ps != [] {
      var n := |ps| - 1;
      FromPairsHas(ps[..n], m);
      forall k
        ensures k in FromPairs(ps) <==> exists i :: 0 <= i < |ps| && ps[i].0 == k
      {
        if k in FromPairs(ps[..n]) {
          var i :| 0 <= i < n && ps[..n][i].0 == k;
          assert ps[i].0 == k;
        }
        if i :| 0 <= i < |ps| && ps[i].0 == k && k != ps[n].0 {
          assert ps[..n][i].0 == k;
        }
      }
    }
  }

  lemma FromPairsIs<K, V>(ps: seq<(K, V)>, m: map<K, V>)
    requires forall i | 0 <= i < |ps| :: ps[i].0 in m && m[ps[i].0] == ps[i].1
    requires forall k | k in m :: exists i :: 0 <= i < |ps| && ps[i].0 == k
    ensures FromPairs(ps) == m
  {
    FromPairsHas(ps, m);
  }
}
