/** A JavaScript `Set` seen through `Array.from`: a duplicate-free sequence kept in
    order of first insertion. `add` of an element already present changes nothing. */
module InsertionOrderedSet {
  import opened Sequences

  /** `set.add(x)`. */
  function Add<T(==,!new)>(s: seq<T>, x: T): (r: seq<T>)
    ensures s <= r
    ensures forall y :: y in r <==> y in s || y == x
    ensures |r| == if x in s then |s| else |s| + 1
    ensures NoDuplicates(s) ==> NoDuplicates(r)
  {
    if x in s then s else s + [x]
  }

  /** Adding the same element twice is the same as adding it once. */
  lemma AddIdempotent<T(!new)>(s: seq<T>, x: T)
    ensures Add(Add(s, x), x) == Add(s, x)
  {
  }

  /** The set that results from adding the elements of `xs` one after another. */
  function AddAll<T(==,!new)>(s: seq<T>, xs: seq<T>): (r: seq<T>)
  {
    if xs == [] then s else Add(AddAll(s, xs[..|xs| - 1]), xs[|xs| - 1])
  }

  lemma AddAllAppend<T(!new)>(s: seq<T>, xs: seq<T>, x: T)
    ensures AddAll(s, xs + [x]) == Add(AddAll(s, xs), x)
  {
    assert (xs + [x])[..|xs|] == xs;
  }

  /** Adding `ys` and then `zs` is adding `ys + zs`: a run of `add` calls can be split
      anywhere. */
  lemma {:induction false} AddAllConcat<T(!new)>(s: seq<T>, ys: seq<T>, zs: seq<T>)
    ensures AddAll(s, ys + zs) == AddAll(AddAll(s, ys), zs)
  {
    if zs == [] {
      assert ys + zs == ys;
    } else {
      var init, z := zs[..|zs| - 1], zs[|zs| - 1];
      assert zs == init + [z];
      assert ys + zs == (ys + init) + [z];
      AddAllConcat(s, ys, init);
      AddAllAppend(s, ys + init, z);
      AddAllAppend(AddAll(s, ys), init, z);
    }
  }

  /** Starting from an empty set, the elements come out once each, exactly the
      elements added, and ordered by the position of their first insertion. */
  lemma {:induction false} FirstInsertionOrder<T(!new)>(xs: seq<T>)
    ensures NoDuplicates(AddAll([], xs))
    ensures forall y :: y in AddAll([], xs) <==> y in xs
    ensures forall i, j :: 0 <= i < j < |AddAll([], xs)| ==>
              IndexOf(xs, AddAll([], xs)[i]) < IndexOf(xs, AddAll([], xs)[j])
  {
    if xs != [] {
      var init, x := xs[..|xs| - 1], xs[|xs| - 1];
      assert xs == init + [x];
      FirstInsertionOrder(init);
      var r0 := AddAll([], init);
      var r := AddAll([], xs);
      assert r == Add(r0, x);
      forall y | y in init
        ensures IndexOf(xs, y) == IndexOf(init, y)
      {
        IndexOfAppend(init, x, y);
      }
      if x !in r0 {
        IndexOfAppend(init, x, x);
        forall i, j | 0 <= i < j < |r|
          ensures IndexOf(xs, r[i]) < IndexOf(xs, r[j])
        {
          assert r[i] in init;
          if j < |r0| {
            assert r[j] in init;
          } else {
            assert r[j] == x;
          }
        }
      }
    }
  }
}
