/** Indexed access into a mapper over a collection. Swift's `Array` indices
    are the integers `0 ..< count`, so the collection is a sequence and the
    index an integer. `unsafeIndex` requires a valid index (Swift traps
    otherwise); `safeIndex` treats an invalid index like an absent value. */
module MapperCollection {
  import opened Optionals
  import opened Lenses
  import opened KeyPathMappers

  /** `self.value.indices.contains(index)` */
  predicate ValidIndex<E>(s: seq<E>, i: int) {
    0 <= i < |s|
  }

  /** The getter of `subscript(unsafeIndex:)`. */
  function UnsafeIndexGet<E>(m: Mapper<seq<E>>, i: int): (r: Mapper<E>)
    requires ValidIndex(m.value, i)
  {
    Mapper(m.value[i])
  }

  /** The setter of `subscript(unsafeIndex:)` on a mutable collection: the
      element at the index is replaced; the length and every other element
      are unchanged. */
  function UnsafeIndexPut<E>(m: Mapper<seq<E>>, i: int, n: Mapper<E>): (r: Mapper<seq<E>>)
    requires ValidIndex(m.value, i)
    ensures |r.value| == |m.value|
    ensures r.value[i] == n.value
    ensures forall j :: 0 <= j < |m.value| && j != i ==> r.value[j] == m.value[j]
  {
    Mapper(m.value[i := n.value])
  }

  /** `unsafeIndex` at a valid index obeys get-put, put-get and put-put. */
  lemma UnsafeIndexLaws<E>(m: Mapper<seq<E>>, i: int, n: Mapper<E>, n': Mapper<E>)
    requires ValidIndex(m.value, i)
    ensures UnsafeIndexGet(m, i).value == m.value[i]
    ensures UnsafeIndexPut(m, i, UnsafeIndexGet(m, i)) == m
    ensures UnsafeIndexGet(UnsafeIndexPut(m, i, n), i) == n
    ensures UnsafeIndexPut(UnsafeIndexPut(m, i, n), i, n') == UnsafeIndexPut(m, i, n')
  {
    assert m.value[i := m.value[i]] == m.value;
    assert m.value[i := n.value][i := n'.value] == m.value[i := n'.value];
  }

  /** `subscript(safeIndex:)`. Reading yields the element at a valid index
      and absent otherwise; writing a present value at a valid index replaces
      that element, and any other write is a no-op. The read-only overload on
      `Collection` has the same getter. */
  function SafeIndex<E>(i: int): Lens<Mapper<seq<E>>, Mapper<Option<E>>> {
    Lens((m: Mapper<seq<E>>) => if ValidIndex(m.value, i) then Mapper(Some(m.value[i])) else Mapper(None),
         (m: Mapper<seq<E>>, n: Mapper<Option<E>>) =>
           if n.value.Some? && ValidIndex(m.value, i) then Mapper(m.value[i := n.value.value]) else m)
  }

  /** The safe read is absent exactly outside the valid indices, and is the
      element itself inside them. */
  lemma SafeIndexRead<E>(m: Mapper<seq<E>>, i: int)
    ensures SafeIndex<E>(i).get(m).value.None? <==> !ValidIndex(m.value, i)
    ensures ValidIndex(m.value, i) ==> SafeIndex<E>(i).get(m).value == Some(m.value[i])
  {
  }

  /** Writing absent, or writing at an invalid index, leaves the collection
      unchanged; writing a present value at a valid index updates exactly
      that position. */
  lemma SafeIndexWrite<E>(m: Mapper<seq<E>>, i: int, n: Mapper<Option<E>>)
    ensures n.value.None? ==> SafeIndex<E>(i).put(m, n) == m
    ensures !ValidIndex(m.value, i) ==> SafeIndex<E>(i).put(m, n) == m
    ensures n.value.Some? && ValidIndex(m.value, i) ==>
      var r := SafeIndex<E>(i).put(m, n).value;
      && |r| == |m.value|
      && r[i] == n.value.value
      && forall j :: 0 <= j < |r| && j != i ==> r[j] == m.value[j]
  {
  }

  /** The safe index agrees with the unsafe one at a valid index. */
  lemma SafeIndexAgreesWithUnsafe<E>(m: Mapper<seq<E>>, i: int, x: E)
    requires ValidIndex(m.value, i)
    ensures SafeIndex<E>(i).get(m).value == Some(UnsafeIndexGet(m, i).value)
    ensures SafeIndex<E>(i).put(m, Mapper(Some(x))) == UnsafeIndexPut(m, i, Mapper(x))
  {
  }

  /** `safeIndex` obeys get-put; put-get holds exactly when the write is
      performed or an absent value is written where there is none. */
  lemma SafeIndexLaws<E(!new)>(i: int, m: Mapper<seq<E>>, n: Mapper<Option<E>>)
    ensures GetPut(SafeIndex<E>(i))
    ensures SafeIndex<E>(i).get(SafeIndex<E>(i).put(m, n)) == n <==>
      if ValidIndex(m.value, i) then n.value.Some? else n.value.None?
  {
    forall m': Mapper<seq<E>> ensures SafeIndex<E>(i).put(m', SafeIndex<E>(i).get(m')) == m' {
      if ValidIndex(m'.value, i) {
        assert m'.value[i := m'.value[i]] == m'.value;
      }
    }
  }
}
