/** The unwrapping key path built from the mapper accessors
    (`unwrapPath(with:aggressive:)`), and the `uww` subscript on `Optional`
    that states the same behaviour directly. */
module KeyPathHelpers {
  import opened Optionals
  import opened Lenses
  import opened Hashing
  import opened KeyPathMappers
  import opened Mappable
  import opened MapperOptional
  import opened MapperHashable
  import opened OptionalSubscripts

  /** `subscript(uww:aggressive:)` on `Optional`: reading yields the wrapped
      value or the default's wrapped value; writing stores the new value when
      aggressive or when a value is present. */
  function Uww<W>(fallback: Hashed<W>, aggressive: bool): Lens<Option<W>, W> {
    Lens((s: Option<W>) => s.GetOr(fallback.wrappedValue),
         (s: Option<W>, v: W) => if aggressive || s.Some? then Some(v) else s)
  }

  /** The read is the present value, or the default's wrapped value. */
  lemma UwwRead<W>(fallback: Hashed<W>, aggressive: bool, s: Option<W>)
    ensures s.Some? ==> Uww(fallback, aggressive).get(s) == s.value
    ensures s.None? ==> Uww(fallback, aggressive).get(s) == fallback.wrappedValue
  {
  }

  /** The write changes `self` exactly when aggressive or present, and then
      makes it present with the new value; a performed write is read back. */
  lemma UwwWrite<W>(fallback: Hashed<W>, aggressive: bool, s: Option<W>, v: W)
    ensures aggressive || s.Some? ==> Uww(fallback, aggressive).put(s, v) == Some(v)
    ensures !aggressive && s.None? ==> Uww(fallback, aggressive).put(s, v) == s
    ensures aggressive || s.Some? ==> Uww(fallback, aggressive).get(Uww(fallback, aggressive).put(s, v)) == v
  {
  }

  /** The lens of `unwrapPath(with:aggressive:)` on a key path whose identity
      is `pathIdentity`:
      `\.[mapPath: \.[hashedBy: self][unwrappedWith: _hashed(fallback), aggressive: aggressive]].wrappedValue`. */
  function UnwrapLens<W>(pathIdentity: HashToken, fallback: W, aggressive: bool): Lens<Option<W>, W> {
    var mapperPath := Compose(HashedByOptional<W>(pathIdentity),
                              UnwrappedWith(Hashed(fallback, pathIdentity), aggressive));
    Compose(MapPath(mapperPath), WrappedValueLens())
  }

  /** The composed lens reads the wrapped value, or the fallback. */
  lemma UnwrapPathRead<W>(pathIdentity: HashToken, fallback: W, aggressive: bool, s: Option<W>)
    ensures UnwrapLens(pathIdentity, fallback, aggressive).get(s) == s.GetOr(fallback)
  {
    var mapperPath := Compose(HashedByOptional<W>(pathIdentity),
                              UnwrappedWith(Hashed(fallback, pathIdentity), aggressive));
    MapPathUnfolds(mapperPath, s, Hashed(fallback, pathIdentity));
  }

  /** The composed lens writes the new value as present when aggressive or
      when a value is present, and is otherwise a no-op. */
  lemma UnwrapPathWrite<W>(pathIdentity: HashToken, fallback: W, aggressive: bool, s: Option<W>, v: W)
    ensures UnwrapLens(pathIdentity, fallback, aggressive).put(s, v)
         == if aggressive || s.Some? then Some(v) else s
  {
    var hashed := HashedByOptional<W>(pathIdentity);
    var unwrap := UnwrappedWith(Hashed(fallback, pathIdentity), aggressive);
    var mapperPath := Compose(hashed, unwrap);
    var current := MapPath(mapperPath).get(s);
    MapPathUnfolds(mapperPath, s, Hashed(v, current.token));
    ComposePut(MapPath(mapperPath), WrappedValueLens(), s, v);
    ComposePut(hashed, unwrap, Mapper(s), Mapper(Hashed(v, current.token)));
  }

  /** `unwrapPath(with:aggressive:)`: a writable key path that, for every
      optional, reads the wrapped value or the fallback, and writes the new
      value as present when aggressive or when a value is present and is
      otherwise a no-op. */
  function UnwrapPath<W(!new)>(pathIdentity: HashToken, fallback: W, aggressive: bool): (q: Path<Option<W>, W>)
    ensures q.kind == Writable
    ensures forall s :: q.lens.get(s) == s.GetOr(fallback)
    ensures forall s, v :: q.lens.put(s, v) == if aggressive || s.Some? then Some(v) else s
  {
    var l := UnwrapLens(pathIdentity, fallback, aggressive);
    assert forall s :: l.get(s) == s.GetOr(fallback) by {
      forall s ensures l.get(s) == s.GetOr(fallback) {
        UnwrapPathRead(pathIdentity, fallback, aggressive, s);
      }
    }
    assert forall s, v :: l.put(s, v) == if aggressive || s.Some? then Some(v) else s by {
      forall s, v ensures l.put(s, v) == if aggressive || s.Some? then Some(v) else s {
        UnwrapPathWrite(pathIdentity, fallback, aggressive, s, v);
      }
    }
    Path(Writable, l)
  }

  /** The composed path and the `uww` subscript, and the unwrapping subscript
      of `unwrapped(with:aggressive:)`, are the same key path. */
  lemma UnwrapPathAgrees<W(!new)>(pathIdentity: HashToken, fallback: W, aggressive: bool, s: Option<W>, v: W)
    ensures Read(UnwrapPath(pathIdentity, fallback, aggressive), s) == Uww(Hashed(fallback, pathIdentity), aggressive).get(s)
    ensures Write(UnwrapPath(pathIdentity, fallback, aggressive), s, v) == Uww(Hashed(fallback, pathIdentity), aggressive).put(s, v)
    ensures Uww(Hashed(fallback, pathIdentity), aggressive).get(s) == ForceSetUnwrapped(aggressive, fallback).get(s)
    ensures Uww(Hashed(fallback, pathIdentity), aggressive).put(s, v) == ForceSetUnwrapped(aggressive, fallback).put(s, v)
  {
  }
}
