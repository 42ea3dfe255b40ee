/** The optional accessors of `KeyPathMapper`: `optional`, which views a value
    as a present optional, and `subscript(unwrappedWith:aggressive:)`, which
    views an optional as a value with a default and one of two write policies. */
module MapperOptional {
  import opened Optionals
  import opened Lenses
  import opened Hashing
  import opened KeyPathMappers

  /** The `optional` property: reading wraps the value as present; writing a
      present value stores it and writing an absent one does nothing. */
  function OptionalLens<V>(): Lens<Mapper<V>, Mapper<Option<V>>> {
    Lens((m: Mapper<V>) => Mapper(Some(m.value)),
         (m: Mapper<V>, n: Mapper<Option<V>>) => if n.value.Some? then Mapper(n.value.value) else m)
  }

  /** `subscript(unwrappedWith:aggressive:)`: reading yields the wrapped value
      or the default; writing is performed when aggressive or a value is
      present, and is otherwise a no-op. */
  function UnwrappedWith<W>(fallback: W, aggressive: bool): Lens<Mapper<Option<W>>, Mapper<W>> {
    Lens((m: Mapper<Option<W>>) => Mapper(m.value.GetOr(fallback)),
         (m: Mapper<Option<W>>, n: Mapper<W>) =>
           if aggressive || m.value.Some? then Mapper(Some(n.value)) else m)
  }

  /** The overload taking a `Hashed` default: its getter calls the plain
      overload without the flag, its setter with it. */
  function UnwrappedWithHashed<W>(fallback: Hashed<W>, aggressive: bool): Lens<Mapper<Option<W>>, Mapper<W>> {
    Lens((m: Mapper<Option<W>>) => UnwrappedWith(fallback.wrappedValue, false).get(m),
         (m: Mapper<Option<W>>, n: Mapper<W>) => UnwrappedWith(fallback.wrappedValue, aggressive).put(m, n))
  }

  /** `optional` reads a present optional carrying the same value. */
  lemma OptionalRead<V>(m: Mapper<V>)
    ensures OptionalLens<V>().get(m).value.Some?
    ensures OptionalLens<V>().get(m).value.value == m.value
  {
  }

  /** Writing absent through `optional` is a no-op; writing a present value
      replaces the value. */
  lemma OptionalWrite<V>(m: Mapper<V>, n: Mapper<Option<V>>)
    ensures n.value.None? ==> OptionalLens<V>().put(m, n) == m
    ensures n.value.Some? ==> OptionalLens<V>().put(m, n).value == n.value.value
  {
  }

  /** `optional` obeys get-put, and put-get exactly for present values: an
      absent value written is read back as present. Put-put fails, since a
      later absent write does not undo an earlier present one. */
  lemma OptionalLaws<V(!new)>(m: Mapper<V>, n: Mapper<Option<V>>)
    ensures GetPut(OptionalLens<V>())
    ensures OptionalLens<V>().get(OptionalLens<V>().put(m, n)) == n <==> n.value.Some?
  {
  }

  /** Reading through `unwrappedWith` yields the present value or the default,
      whatever the write policy. */
  lemma UnwrappedWithRead<W>(fallback: W, aggressive: bool, m: Mapper<Option<W>>)
    ensures m.value.Some? ==> UnwrappedWith(fallback, aggressive).get(m).value == m.value.value
    ensures m.value.None? ==> UnwrappedWith(fallback, aggressive).get(m).value == fallback
  {
  }

  /** The write policy: on a present value any write replaces it; on an
      absent one an aggressive write stores the new value and a
      non-aggressive one leaves it absent. */
  lemma UnwrappedWithWrite<W>(fallback: W, aggressive: bool, m: Mapper<Option<W>>, n: Mapper<W>)
    ensures m.value.Some? ==> UnwrappedWith(fallback, aggressive).put(m, n).value == Some(n.value)
    ensures m.value.None? && aggressive ==> UnwrappedWith(fallback, aggressive).put(m, n).value == Some(n.value)
    ensures m.value.None? && !aggressive ==> UnwrappedWith(fallback, aggressive).put(m, n) == m
  {
  }

  /** A compound assignment such as `+=` through a non-aggressive
      `unwrappedWith` on an absent value leaves it absent, whatever it
      computes; through an aggressive one it stores the computed value,
      which starts from the default. */
  lemma UnwrappedWithModify<W>(fallback: W, aggressive: bool, f: Mapper<W> -> Mapper<W>)
    ensures var r := Modify(UnwrappedWith(fallback, aggressive), Mapper(None), f);
            if aggressive then r == Mapper(Some(f(Mapper(fallback)).value)) else r == Mapper(None)
  {
  }

  /** The `Hashed` overload reads and writes as the plain overload with the
      unwrapped default; its read ignores the write policy. */
  lemma UnwrappedWithHashedAgrees<W>(fallback: Hashed<W>, aggressive: bool, m: Mapper<Option<W>>, n: Mapper<W>)
    ensures UnwrappedWithHashed(fallback, aggressive).get(m) == UnwrappedWith(fallback.wrappedValue, aggressive).get(m)
    ensures UnwrappedWithHashed(fallback, aggressive).put(m, n) == UnwrappedWith(fallback.wrappedValue, aggressive).put(m, n)
  {
    UnwrappedWithRead(fallback.wrappedValue, false, m);
    UnwrappedWithRead(fallback.wrappedValue, aggressive, m);
  }

  /** The test scenario of the optional mapper tests, on integers with
      default 0: `+= 1` from absent gives absent when non-aggressive and 1
      when aggressive; assigning 2 aggressively then gives 2. */
  lemma UnwrappedWithIncrementScenario()
    ensures Modify(UnwrappedWith(0, false), Mapper(None), (m: Mapper<int>) => Mapper(m.value + 1)) == Mapper(None)
    ensures Modify(UnwrappedWith(0, true), Mapper(None), (m: Mapper<int>) => Mapper(m.value + 1)) == Mapper(Some(1))
    ensures UnwrappedWith(0, true).put(Mapper(Some(1)), Mapper(2)) == Mapper(Some(2))
  {
  }
}
