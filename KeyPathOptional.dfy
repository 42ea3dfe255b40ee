/** Key paths whose value is optional: unwrapping with a default
    (`unwrapped(with:aggressive:)`) and appending a key path on the wrapped
    type (`appending(_:)`), with the kind each overload gives its result. */
module KeyPathOptional {
  import opened Optionals
  import opened Lenses
  import opened Hashing
  import opened OptionalSubscripts

  // ---------------------------------------------------------------------
  // unwrapped(with:aggressive:)

  /** `p.unwrapped(with: fallback, aggressive: aggressive)`: `p` followed by
      the unwrapping subscript, whose fallback is hashed by `p` itself
      (`pathIdentity`). The three overloads return a key path of `p`'s kind,
      which reads the base value or, when that is absent, the fallback. */
  function Unwrapped<R(!new), W(!new)>(p: Path<R, Option<W>>, fallback: W, aggressive: bool, pathIdentity: HashToken): (q: Path<R, W>)
    ensures q.kind == p.kind
    ensures forall r :: q.lens.get(r) == p.lens.get(r).GetOr(fallback)
  {
    Append(p, Path(Writable, ForceSetUnwrappedHashable(aggressive, ForceHashable(fallback, pathIdentity))))
  }

  /** The unwrapped read is the base read, or the fallback when that is absent. */
  lemma UnwrappedRead<R(!new), W(!new)>(p: Path<R, Option<W>>, fallback: W, aggressive: bool, pathIdentity: HashToken, r: R)
    ensures Read(Unwrapped(p, fallback, aggressive, pathIdentity), r) == Read(p, r).GetOr(fallback)
  {
  }

  /** An unwrapped write always goes through the base's setter: it writes
      `some(v)` when aggressive or when the base value is present, and
      otherwise writes back the absent value it read. For a base obeying
      get-put (a stored property) the latter leaves the root unchanged. */
  lemma UnwrappedWrite<R(!new), W(!new)>(p: Path<R, Option<W>>, fallback: W, aggressive: bool, pathIdentity: HashToken, r: R, v: W)
    ensures Unwrapped(p, fallback, aggressive, pathIdentity).lens.put(r, v)
         == p.lens.put(r, if aggressive || Read(p, r).Some? then Some(v) else Read(p, r))
    ensures GetPut(p.lens) ==>
              Unwrapped(p, fallback, aggressive, pathIdentity).lens.put(r, v)
              == if aggressive || Read(p, r).Some? then p.lens.put(r, Some(v)) else r
  {
    var f := ForceSetUnwrappedHashable(aggressive, ForceHashable(fallback, pathIdentity));
    ComposePut(p.lens, f, r, v);
    ForceSetHashableAgrees(aggressive, ForceHashable(fallback, pathIdentity), p.lens.get(r), v);
    if GetPut(p.lens) && !aggressive && Read(p, r).None? {
      assert p.lens.put(r, p.lens.get(r)) == r;
    }
  }

  // ---------------------------------------------------------------------
  // appending(_:)

  /** The kind of `self.appending(keyPath)` given by the five overloads and
      Swift's choice of the most specific one that applies. */
  function AppendingKind(selfKind: Kind, appended: Kind): Kind {
    if selfKind == ReadOnly && appended == ReferenceWritable then ReferenceWritable
    else if selfKind == Writable && appended == ReferenceWritable then ReferenceWritable
    else if selfKind == Writable && appended == Writable then Writable
    else if selfKind == ReferenceWritable && appended.CanWrite() then ReferenceWritable
    else ReadOnly
  }

  /** The overloads give the kind Swift's own `appending(path:)` gives: the
      result can be written exactly when the appended path is
      reference-writable or both are writable, and is reference-writable
      exactly when the appended path is, or the base is and the appended path
      is writable. A reference-writable base followed by a read-only path is
      read-only. */
  lemma AppendingKindTable(selfKind: Kind, appended: Kind)
    ensures AppendingKind(selfKind, appended) == AppendKind(selfKind, appended)
    ensures AppendingKind(selfKind, appended).CanWrite() <==>
              appended.ReferenceWritable? || (selfKind.CanWrite() && appended.CanWrite())
    ensures AppendingKind(selfKind, appended).ReferenceWritable? <==>
              appended.ReferenceWritable? || (selfKind.ReferenceWritable? && appended.Writable?)
    ensures selfKind == appended ==> AppendingKind(selfKind, appended) == selfKind
  {
  }

  /** `self.appending(keyPath)` for `self` with an optional value: `self`
      followed by `keyPath` lifted to an optional root (the
      `_…OfOptionalRoot` properties). Its kind is the one the overload table
      gives; it reads absent exactly when the intermediate value is absent
      and the inner value otherwise; a write of a present value at a present
      intermediate updates the inner value and writes it back through
      `self`; any other write only writes back the intermediate it read,
      which for a base obeying get-put is a no-op. */
  function Appending<R(!new), V(!new), A(!new)>(self: Path<R, Option<V>>, keyPath: Path<V, A>): (q: Path<R, Option<A>>)
    ensures q.kind == AppendingKind(self.kind, keyPath.kind)
    ensures forall r :: q.lens.get(r).None? <==> self.lens.get(r).None?
    ensures forall r :: self.lens.get(r).Some? ==> q.lens.get(r) == Some(keyPath.lens.get(self.lens.get(r).value))
    ensures forall r, x: Option<A> :: self.lens.get(r).Some? && x.Some? ==>
              q.lens.put(r, x) == self.lens.put(r, Some(keyPath.lens.put(self.lens.get(r).value, x.value)))
    ensures forall r, x: Option<A> :: self.lens.get(r).None? || x.None? ==> q.lens.put(r, x) == self.lens.put(r, self.lens.get(r))
    ensures GetPut(self.lens) ==>
              forall r, x: Option<A> :: self.lens.get(r).None? || x.None? ==> q.lens.put(r, x) == r
  {
    Path(AppendingKind(self.kind, keyPath.kind), Compose(self.lens, LiftPath(keyPath).lens))
  }

  /** The appended read is absent when the intermediate value is absent, and
      the inner value otherwise. */
  lemma AppendingRead<R(!new), V(!new), A(!new)>(self: Path<R, Option<V>>, keyPath: Path<V, A>, r: R)
    ensures Read(Appending(self, keyPath), r).None? <==> Read(self, r).None?
    ensures Read(self, r).Some? ==> Read(Appending(self, keyPath), r) == Some(Read(keyPath, Read(self, r).value))
  {
  }

  /** Writing through the appended path always goes through the base's
      setter: with a present intermediate and a present value it writes back
      the intermediate with the inner value updated, and otherwise it writes
      back the intermediate it read. For a base obeying get-put (a stored
      property) the latter is a no-op. */
  lemma AppendingWrite<R(!new), V(!new), A(!new)>(self: Path<R, Option<V>>, keyPath: Path<V, A>, r: R, x: Option<A>)
    ensures Appending(self, keyPath).lens.put(r, x)
         == self.lens.put(r, if Read(self, r).Some? && x.Some?
                             then Some(keyPath.lens.put(Read(self, r).value, x.value))
                             else Read(self, r))
    ensures GetPut(self.lens) && (Read(self, r).None? || x.None?) ==> Appending(self, keyPath).lens.put(r, x) == r
    ensures Read(self, r).Some? && x.Some? ==>
              Appending(self, keyPath).lens.put(r, x)
              == self.lens.put(r, Some(keyPath.lens.put(Read(self, r).value, x.value)))
  {
    ComposePut(self.lens, Lift(keyPath.lens), r, x);
    if GetPut(self.lens) && (Read(self, r).None? || x.None?) {
      assert self.lens.put(r, self.lens.get(r)) == r;
    }
  }

  /** With lawful parts, a present value written through the appended path at
      a root whose intermediate is present is read back. */
  lemma AppendingPutGet<R(!new), V(!new), A(!new)>(self: Path<R, Option<V>>, keyPath: Path<V, A>, r: R, a: A)
    requires PutGet(self.lens) && PutGet(keyPath.lens)
    requires Read(self, r).Some?
    ensures Read(Appending(self, keyPath), Appending(self, keyPath).lens.put(r, Some(a))) == Some(a)
  {
    var v' := keyPath.lens.put(Read(self, r).value, a);
    ComposePut(self.lens, Lift(keyPath.lens), r, Some(a));
    assert self.lens.get(self.lens.put(r, Some(v'))) == Some(v');
    assert keyPath.lens.get(v') == a;
  }

  // ---------------------------------------------------------------------
  // Compositions the tests pin down

  /** Unwrapping a path that was already appended cannot create a missing
      intermediate value, even aggressively: the aggressive write reaches the
      lifted key path, which ignores writes into an absent root, so the base's
      setter only writes back the absent value it read. For a base obeying
      get-put (a stored property) the root is unchanged. */
  lemma UnwrappedAppendingCannotMaterialise<R(!new), V(!new), A(!new)>(
    self: Path<R, Option<V>>, keyPath: Path<V, A>, fallback: A, pathIdentity: HashToken, r: R, a: A)
    requires Read(self, r).None?
    ensures Unwrapped(Appending(self, keyPath), fallback, true, pathIdentity).lens.put(r, a)
         == self.lens.put(r, None)
    ensures GetPut(self.lens) ==> Unwrapped(Appending(self, keyPath), fallback, true, pathIdentity).lens.put(r, a) == r
  {
    var ap := Appending(self, keyPath);
    ComposePut(self.lens, Lift(keyPath.lens), r, Some(a));
    assert ap.lens.put(r, Some(a)) == self.lens.put(r, self.lens.get(r));
    assert ap.lens.get(r) == None;
    var f := ForceSetUnwrappedHashable(true, ForceHashable(fallback, pathIdentity));
    ComposePut(ap.lens, f, r, a);
  }

  /** Unwrapping aggressively and then appending a key path on the wrapped
      value does create a missing value: writing into an absent intermediate
      stores the fallback with the appended field set, and the read sees the
      fallback's field. */
  lemma AggressiveUnwrapThenAppendMaterialises<R(!new), V(!new), A(!new)>(
    p: Path<R, Option<V>>, fallback: V, pathIdentity: HashToken, field: Path<V, A>, r: R, a: A)
    requires Read(p, r).None?
    ensures Read(Append(Unwrapped(p, fallback, true, pathIdentity), field), r) == Read(field, fallback)
    ensures Append(Unwrapped(p, fallback, true, pathIdentity), field).lens.put(r, a)
         == p.lens.put(r, Some(field.lens.put(fallback, a)))
  {
    var u := Unwrapped(p, fallback, true, pathIdentity);
    var f := ForceSetUnwrappedHashable(true, ForceHashable(fallback, pathIdentity));
    ComposePut(u.lens, field.lens, r, a);
    ComposePut(p.lens, f, r, field.lens.put(fallback, a));
  }

  /** Non-aggressively, the same composition only writes the absent
      intermediate back through the base's setter; for a base obeying get-put
      (a stored property) the root is unchanged. */
  lemma NonAggressiveUnwrapThenAppendIsNoOp<R(!new), V(!new), A(!new)>(
    p: Path<R, Option<V>>, fallback: V, pathIdentity: HashToken, field: Path<V, A>, r: R, a: A)
    requires Read(p, r).None?
    ensures Append(Unwrapped(p, fallback, false, pathIdentity), field).lens.put(r, a) == p.lens.put(r, None)
    ensures GetPut(p.lens) ==> Append(Unwrapped(p, fallback, false, pathIdentity), field).lens.put(r, a) == r
  {
    var u := Unwrapped(p, fallback, false, pathIdentity);
    var f := ForceSetUnwrappedHashable(false, ForceHashable(fallback, pathIdentity));
    ComposePut(u.lens, field.lens, r, a);
    ComposePut(p.lens, f, r, field.lens.put(fallback, a));
    if GetPut(p.lens) {
      assert p.lens.put(r, p.lens.get(r)) == r;
    }
  }
}
