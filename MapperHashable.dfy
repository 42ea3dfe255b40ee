/** `subscript(hashedBy:)`: a view of a mapper's value wrapped in `Hashed`
    with a given hash token, so that a key path through it can carry a value
    that is not itself hashable. */
module MapperHashable {
  import opened Optionals
  import opened Lenses
  import opened Hashing
  import opened KeyPathMappers

  /** `subscript(hashedBy:)`: reading wraps the value with the token; writing
      stores the written wrapped value and drops its token. */
  function HashedBy<V>(hash: HashToken): Lens<Mapper<V>, Mapper<Hashed<V>>> {
    Lens((m: Mapper<V>) => Mapper(Hashed(m.value, hash)),
         (m: Mapper<V>, n: Mapper<Hashed<V>>) => Mapper(n.value.wrappedValue))
  }

  /** The overload on optional values: reading wraps a present value and
      keeps absence; writing stores the written value's wrapped value, so
      writing absent makes the value absent. */
  function HashedByOptional<W>(hash: HashToken): Lens<Mapper<Option<W>>, Mapper<Option<Hashed<W>>>> {
    Lens((m: Mapper<Option<W>>) => Mapper(m.value.Map((w: W) => Hashed(w, hash))),
         (m: Mapper<Option<W>>, n: Mapper<Option<Hashed<W>>>) =>
           Mapper(n.value.Map((h: Hashed<W>) => h.wrappedValue)))
  }

  /** The read carries the current value under the given token. */
  lemma HashedByRead<V>(hash: HashToken, m: Mapper<V>)
    ensures HashedBy<V>(hash).get(m).value.wrappedValue == m.value
    ensures HashedBy<V>(hash).get(m).value.token == hash
  {
  }

  /** The write stores the written wrapped value whatever its token. */
  lemma HashedByWrite<V>(hash: HashToken, m: Mapper<V>, v: V, t: HashToken)
    ensures HashedBy<V>(hash).put(m, Mapper(Hashed(v, t))).value == v
  {
  }

  /** Reading and writing back leaves the value unchanged; reading after a
      write returns what was written exactly when its token is the view's
      token, since the written token is not kept. */
  lemma HashedByLaws<V(!new)>(hash: HashToken, m: Mapper<V>, n: Mapper<Hashed<V>>)
    ensures GetPut(HashedBy<V>(hash)) && PutPut(HashedBy<V>(hash))
    ensures HashedBy<V>(hash).get(HashedBy<V>(hash).put(m, n)) == n <==> n.value.token == hash
  {
  }

  /** The optional read is absent exactly when the value is, and otherwise
      carries it under the given token. */
  lemma HashedByOptionalRead<W>(hash: HashToken, m: Mapper<Option<W>>)
    ensures HashedByOptional<W>(hash).get(m).value.None? <==> m.value.None?
    ensures m.value.Some? ==> HashedByOptional<W>(hash).get(m).value == Some(Hashed(m.value.value, hash))
  {
  }

  /** Writing absent makes the value absent, unlike the no-op policy of the
      other optional accessors; writing a present wrapped value stores it. */
  lemma HashedByOptionalWrite<W>(hash: HashToken, m: Mapper<Option<W>>, n: Mapper<Option<Hashed<W>>>)
    ensures n.value.None? ==> HashedByOptional<W>(hash).put(m, n).value == None
    ensures n.value.Some? ==> HashedByOptional<W>(hash).put(m, n).value == Some(n.value.value.wrappedValue)
  {
  }

  /** Reading and writing back leaves the optional value unchanged. */
  lemma HashedByOptionalGetPut<W(!new)>(hash: HashToken)
    ensures GetPut(HashedByOptional<W>(hash))
  {
  }
}
