/** Changes of a supply and of the two amounts of a pair, and their sums over a sequence. */
module Deltas {
  import opened Sequences

  datatype Delta = Delta(supply: int, amount0: int, amount1: int)
  {
    function Plus(that: Delta): Delta
    {
      Delta(supply + that.supply, amount0 + that.amount0, amount1 + that.amount1)
    }
  }

  const NoDelta := Delta(0, 0, 0)

  function Sum<E>(share: E -> Delta, es: seq<E>): Delta
  {
    if es == [] then NoDelta else Sum(share, es[..|es| - 1]).Plus(share(es[|es| - 1]))
  }

  lemma {:induction false} SumAppend<E>(share: E -> Delta, es: seq<E>, fs: seq<E>)
    ensures Sum(share, es + fs) == Sum(share, es).Plus(Sum(share, fs))
  {
    if fs == [] {
      assert es + fs == es;
    } else {
      AppendLast(es, fs);
      SumAppend(share, es, fs[..|fs| - 1]);
    }
  }

  lemma SumOfOne<E>(share: E -> Delta, e: E)
    ensures Sum(share, [e]) == share(e)
  {
    var es := [e];
    assert es[..|es| - 1] == [];
  }

  lemma SumOfTwo<E>(share: E -> Delta, e: E, f: E)
    ensures Sum(share, [e, f]) == share(e).Plus(share(f))
  {
    SumOfOne(share, e);
    SumOfOne(share, f);
    SumAppend(share, [e], [f]);
    assert [e] + [f] == [e, f];
  }

  lemma SumOfFew<E>(share: E -> Delta, es: seq<E>)
    requires |es| <= 2
    ensures Sum(share, es) == match |es|
                              case 0 => NoDelta
                              case 1 => share(es[0])
                              case _ => share(es[0]).Plus(share(es[1]))
  {
    if |es| == 1 {
      SumOfOne(share, es[0]);
      assert es == [es[0]];
    } else if |es| == 2 {
      SumOfTwo(share, es[0], es[1]);
      assert es == [es[0], es[1]];
    }
  }

  lemma SumWithout<E>(share: E -> Delta, es: seq<E>, j: nat)
    requires j < |es|
    ensures Sum(share, es) == Sum(share, es[..j] + es[j + 1..]).Plus(share(es[j]))
  {
    Cut(es, j);
    SumAppend(share, es[..j], [es[j]] + es[j + 1..]);
    SumAppend(share, es[..j], es[j + 1..]);
    SumAppend(share, [es[j]], es[j + 1..]);
    SumOfOne(share, es[j]);
  }

  /** A sum depends on the multiset of its terms only. */
  lemma {:induction false} SumOfPermutation<E>(share: E -> Delta, es: seq<E>, fs: seq<E>)
    requires multiset(es) == multiset(fs)
    ensures Sum(share, es) == Sum(share, fs)
    decreases |es|
  {
    if es == [] {
      assert |multiset(fs)| == |multiset(es)|;
    } else {
      var m := |es| - 1;
      assert es[m] in multiset(fs);
      var j :| 0 <= j < |fs| && fs[j] == es[m];
      Cut(fs, j);
      Cut(es, m);
      assert es[..m] + es[m + 1..] == es[..m];
      SumOfPermutation(share, es[..m], fs[..j] + fs[j + 1..]);
      SumWithout(share, fs, j);
    }
  }
}
