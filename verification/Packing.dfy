/** Greedy order-preserving packing, for any notion of a fitting chunk that parts of a fitting chunk keep. */
module Packing {
  import opened Collections

  /** Every contiguous part of a fitting chunk fits. */
  ghost predicate Hereditary<T(!new)>(fits: seq<T> -> bool) {
    forall s, lo, hi | 0 <= lo <= hi <= |s| && fits(s) :: fits(s[lo..hi])
  }

  /** Fitting non-empty chunks, each too full to take the element after it. */
  predicate Greedy<T>(fits: seq<T> -> bool, chunks: seq<seq<T>>) {
    && (forall i | 0 <= i < |chunks| :: chunks[i] != [] && fits(chunks[i]))
    && (forall i | 0 <= i < |chunks| - 1 && chunks[i + 1] != [] :: !fits(chunks[i] + [chunks[i + 1][0]]))
  }

  /** A chunk that cannot take the next element leaves it to a new one. */
  lemma GreedyOpen<T>(fits: seq<T> -> bool, chunks: seq<seq<T>>, x: T)
    requires Greedy(fits, chunks) && fits([x]) && (chunks != [] ==> !fits(chunks[|chunks| - 1] + [x]))
    ensures Greedy(fits, chunks + [[x]])
  {
    var more := chunks + [[x]];
    forall i | 0 <= i < |more| - 1 && more[i + 1] != []
      ensures !fits(more[i] + [more[i + 1][0]])
    {
      if i < |chunks| - 1 {
        assert more[i] == chunks[i] && more[i + 1] == chunks[i + 1];
      }
    }
  }

  lemma PartOfFirst<T>(all: seq<T>, first: seq<T>, skip: nat, chunk: seq<T>, rest: seq<T>)
    requires first <= all && skip + |chunk| < |first| && rest != []
    requires all[skip..] == chunk + rest
    ensures first[skip..skip + |chunk| + 1] == chunk + [rest[0]]
  {
    var part := first[skip..skip + |chunk| + 1];
    assert forall i | 0 <= i < |part| :: part[i] == all[skip..][i];
  }

  /** The first other chunk ends no later than the first greedy one, so the rest of the greedy chunks lies in the rest of the others. */
  lemma {:induction false} GreedyAhead<T(!new)>(fits: seq<T> -> bool, greedy: seq<seq<T>>, others: seq<seq<T>>, skip: nat)
    requires Hereditary(fits) && Greedy(fits, greedy) && forall i | 0 <= i < |others| :: fits(others[i])
    requires skip <= |Flatten(others)| && Flatten(others)[skip..] == Flatten(greedy)
    ensures |greedy| <= |others|
    decreases |greedy|
  {
    if greedy != [] {
      FlattenHead(greedy);
      assert |Flatten(greedy)| >= 1;
      FlattenHead(others);
      var all, first, rest := Flatten(others), others[0], Flatten(greedy[1..]);
      var end := skip + |greedy[0]|;
      assert all[end..] == rest by {
        assert all[skip..][|greedy[0]|..] == all[end..];
      }
      if |greedy| > 1 {
        FlattenHead(greedy[1..]);
        assert rest[0] == greedy[1][0];
        if end < |first| {
          PartOfFirst(all, first, skip, greedy[0], rest);
        }
        var tail := Flatten(others[1..]);
        assert tail[end - |first|..] == rest by {
          assert (first + tail)[end..] == tail[end - |first|..];
        }
        forall i | 0 <= i < |greedy[1..]| - 1 && greedy[1..][i + 1] != []
          ensures !fits(greedy[1..][i] + [greedy[1..][i + 1][0]])
        {
          assert greedy[1..][i] == greedy[i + 1] && greedy[1..][i + 1] == greedy[i + 2];
        }
        GreedyAhead(fits, greedy[1..], others[1..], end - |first|);
      }
    }
  }

  /** No order-preserving split into fitting chunks has fewer chunks than a greedy one. */
  lemma GreedyIsMinimal<T(!new)>(fits: seq<T> -> bool, greedy: seq<seq<T>>, others: seq<seq<T>>)
    requires Hereditary(fits) && Greedy(fits, greedy) && forall i | 0 <= i < |others| :: fits(others[i])
    requires Flatten(others) == Flatten(greedy)
    ensures |greedy| <= |others|
  {
    assert Flatten(others)[0..] == Flatten(others);
    GreedyAhead(fits, greedy, others, 0);
  }
}
