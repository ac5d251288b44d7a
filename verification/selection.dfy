/** The list of selected service ids on the first step of the booking screen. */
module Selection {
  import opened Seqs

  /** Filters `id` out of the list: every occurrence is dropped and the other ids keep their order. */
  function Without(xs: seq<int>, id: int): (r: seq<int>)
    ensures forall x :: x in r <==> x in xs && x != id
    ensures multiset(r) == multiset(xs)[id := 0]
  {
    if xs == [] then []
    else
      assert xs == [xs[0]] + xs[1..];
      if xs[0] == id then Without(xs[1..], id)
      else [xs[0]] + Without(xs[1..], id)
  }

  /** Filtering keeps the surviving ids in their original relative order. */
  lemma {:induction false} WithoutKeepsOrder(xs: seq<int>, id: int)
    ensures IsSubsequence(Without(xs, id), xs)
  {
    if xs != [] {
      WithoutKeepsOrder(xs[1..], id);
      var w := Without(xs[1..], id);
      if xs[0] == id {
        if w != [] {
          assert w[0] in w;
        }
      } else {
        assert ([xs[0]] + w)[1..] == w;
      }
    }
  }

  /** Filtering a duplicate-free list leaves it duplicate-free. */
  lemma {:induction false} WithoutNoDup(xs: seq<int>, id: int)
    ensures NoDup(xs) ==> NoDup(Without(xs, id))
  {
    if xs != [] && NoDup(xs) {
      WithoutNoDup(xs[1..], id);
      var w := Without(xs[1..], id);
      if xs[0] != id {
        assert ([xs[0]] + w)[1..] == w;
      }
    }
  }

  /** A click on a service card: a selected id is deselected, any other id is appended. */
  function Toggle(prev: seq<int>, id: int): (r: seq<int>)
    ensures id in r <==> id !in prev
    ensures forall x | x != id :: x in r <==> x in prev
    ensures id in prev ==> IsSubsequence(r, prev) && multiset(r) == multiset(prev)[id := 0]
    ensures id !in prev ==> |r| == |prev| + 1 && r[..|prev|] == prev && r[|prev|] == id
    ensures NoDup(prev) ==> NoDup(r)
  {
    if id in prev then
      WithoutKeepsOrder(prev, id);
      WithoutNoDup(prev, id);
      Without(prev, id)
    else
      NoDupAppend(prev, id);
      prev + [id]
  }

  /** Filtering out an id the list does not hold leaves the list as it was. */
  lemma {:induction false} WithoutAbsent(xs: seq<int>, id: int)
    requires id !in xs
    ensures Without(xs, id) == xs
  {
    if xs != [] {
      WithoutAbsent(xs[1..], id);
      assert xs == [xs[0]] + xs[1..];
    }
  }

  /** Filtering distributes over concatenation. */
  lemma {:induction false} WithoutAppend(xs: seq<int>, ys: seq<int>, id: int)
    ensures Without(xs + ys, id) == Without(xs, id) + Without(ys, id)
  {
    if xs != [] {
      assert (xs + ys)[1..] == xs[1..] + ys;
      WithoutAppend(xs[1..], ys, id);
    } else {
      assert xs + ys == ys;
    }
  }

  /** Selecting a service and deselecting it again restores the previous selection. */
  lemma ToggleTwiceAbsent(prev: seq<int>, id: int)
    requires id !in prev
    ensures Toggle(Toggle(prev, id), id) == prev
  {
    WithoutAppend(prev, [id], id);
    WithoutAbsent(prev, id);
  }

  /** In a duplicate-free list an id that occurs occurs exactly once. */
  lemma {:induction false} NoDupCountOne(xs: seq<int>, id: int)
    requires NoDup(xs) && id in xs
    ensures multiset(xs)[id] == 1
  {
    assert xs == [xs[0]] + xs[1..];
    if xs[0] != id {
      NoDupCountOne(xs[1..], id);
    }
  }

  /** Deselecting a selected service and selecting it again moves it to the end of a
      duplicate-free selection: the same ids, with `id` now last. */
  lemma ToggleTwicePresent(prev: seq<int>, id: int)
    requires NoDup(prev) && id in prev
    ensures var r := Toggle(Toggle(prev, id), id);
      multiset(r) == multiset(prev) && r[|r| - 1] == id && r[..|r| - 1] == Without(prev, id)
  {
    NoDupCountOne(prev, id);
    var w := Without(prev, id);
    assert multiset(w + [id]) == multiset(w) + multiset{id};
  }

  /** The selection reached by clicking service cards in order, starting from `start`. */
  function ToggleAll(start: seq<int>, clicks: seq<int>): seq<int>
    decreases |clicks|
  {
    if clicks == [] then start else ToggleAll(Toggle(start, clicks[0]), clicks[1..])
  }

  /** However the cards are clicked, the selection never lists a service twice. */
  lemma {:induction false} ToggleAllNoDup(start: seq<int>, clicks: seq<int>)
    requires NoDup(start)
    ensures NoDup(ToggleAll(start, clicks))
    decreases |clicks|
  {
    if clicks != [] {
      ToggleAllNoDup(Toggle(start, clicks[0]), clicks[1..]);
    }
  }
}
