/** Swift key paths as lenses.

    A Swift `KeyPath<Root, Value>` reads a `Value` out of a `Root`; a writable
    one also rebuilds the `Root` around a new `Value`. With value semantics this
    is a pair of pure functions, `get` and `put`. The kind of key path
    (`KeyPath`, `WritableKeyPath`, `ReferenceWritableKeyPath`) is kept beside
    the pair as a tag, since the library's overloads compute it. */
module Lenses {

  /** The three classes of Swift key path. */
  datatype Kind = ReadOnly | Writable | ReferenceWritable {
    /** Whether a key path of this kind has a setter. */
    predicate CanWrite() {
      !ReadOnly?
    }
  }

  /** A getter and a setter that rebuilds the root. */
  datatype Lens<!R, !V> = Lens(get: R -> V, put: (R, V) -> R)

  /** A key path: a lens tagged with its kind. A read-only path carries a
      setter too: `Write` refuses it, and lemmas that look inside a composed
      key path's lens state its `put` for every kind. */
  datatype Path<!R, !V> = Path(kind: Kind, lens: Lens<R, V>)

  /** Reading a value through a key path: `root[keyPath: p]`. */
  function Read<R, V>(p: Path<R, V>, root: R): V {
    p.lens.get(root)
  }

  /** Writing a value through a key path: `root[keyPath: p] = v`.
      Only key paths that have a setter can be written through. */
  function Write<R, V>(p: Path<R, V>, root: R, v: V): R
    requires p.kind.CanWrite()
  {
    p.lens.put(root, v)
  }

  /** The read-modify-write of an `inout` access through a key path, as in
      `root[keyPath: p] += 1`: read, transform, write back. */
  function Modify<R, V>(l: Lens<R, V>, root: R, f: V -> V): R {
    l.put(root, f(l.get(root)))
  }

  // ---------------------------------------------------------------------
  // Lens laws

  /** Writing back what was read leaves the root unchanged. */
  ghost predicate GetPut<R(!new), V>(l: Lens<R, V>) {
    forall r :: l.put(r, l.get(r)) == r
  }

  /** Reading after a write returns the written value. */
  ghost predicate PutGet<R(!new), V(!new)>(l: Lens<R, V>) {
    forall r, v :: l.get(l.put(r, v)) == v
  }

  /** A second write overrides the first. */
  ghost predicate PutPut<R(!new), V(!new)>(l: Lens<R, V>) {
    forall r, v, w :: l.put(l.put(r, v), w) == l.put(r, w)
  }

  // ---------------------------------------------------------------------
  // Composition: Swift's `appending(path:)`

  /** The lens of `outer.appending(path: inner)`: read through `outer`, then
      through `inner`; write into the inner value and write that back through
      `outer`. */
  function Compose<A, B, C>(outer: Lens<A, B>, inner: Lens<B, C>): Lens<A, C> {
    Lens(a => inner.get(outer.get(a)),
         (a, c) => outer.put(a, inner.put(outer.get(a), c)))
  }

  /** The put of a composition writes the inner update back through the outer lens. */
  lemma ComposePut<A, B, C>(outer: Lens<A, B>, inner: Lens<B, C>, a: A, c: C)
    ensures Compose(outer, inner).put(a, c) == outer.put(a, inner.put(outer.get(a), c))
  {
  }

  /** The kind Swift gives `outer.appending(path: inner)`: a reference-writable
      appended path makes the result reference-writable; a writable one keeps
      the outer path's kind; a read-only one makes the result read-only. */
  function AppendKind(outer: Kind, inner: Kind): (k: Kind)
    ensures k.CanWrite() <==> inner.ReferenceWritable? || (inner.Writable? && outer.CanWrite())
    ensures k.ReferenceWritable? <==> inner.ReferenceWritable? || (inner.Writable? && outer.ReferenceWritable?)
  {
    match inner
    case ReadOnly => ReadOnly
    case ReferenceWritable => ReferenceWritable
    case Writable => outer
  }

  lemma ComposeGetPut<A(!new), B(!new), C>(outer: Lens<A, B>, inner: Lens<B, C>)
    requires GetPut(outer) && GetPut(inner)
    ensures GetPut(Compose(outer, inner))
  {
    var l := Compose(outer, inner);
    forall a ensures l.put(a, l.get(a)) == a {
      var b := outer.get(a);
      calc {
        l.put(a, l.get(a));
        outer.put(a, inner.put(b, inner.get(b)));
        { assert inner.put(b, inner.get(b)) == b; }
        outer.put(a, b);
      }
    }
  }

  lemma ComposePutGet<A(!new), B(!new), C(!new)>(outer: Lens<A, B>, inner: Lens<B, C>)
    requires PutGet(outer) && PutGet(inner)
    ensures PutGet(Compose(outer, inner))
  {
    var l := Compose(outer, inner);
    forall a, c ensures l.get(l.put(a, c)) == c {
      var b' := inner.put(outer.get(a), c);
      assert outer.get(outer.put(a, b')) == b';
    }
  }

  lemma ComposePutPut<A(!new), B(!new), C(!new)>(outer: Lens<A, B>, inner: Lens<B, C>)
    requires PutGet(outer) && PutPut(outer) && PutPut(inner)
    ensures PutPut(Compose(outer, inner))
  {
    var l := Compose(outer, inner);
    forall a, c, d ensures l.put(l.put(a, c), d) == l.put(a, d) {
      var b := outer.get(a);
      var b1 := inner.put(b, c);
      assert outer.get(outer.put(a, b1)) == b1;
      assert inner.put(b1, d) == inner.put(b, d);
      assert outer.put(outer.put(a, b1), inner.put(b, d)) == outer.put(a, inner.put(b, d));
    }
  }

  /** `appending(path:)` on tagged key paths: the kind follows Swift's rule;
      a read goes through `outer` and then `inner`; a write updates the inner
      value and writes it back through `outer`; and get-put and put-get carry
      over from the two parts. */
  function Append<A(!new), B(!new), C(!new)>(outer: Path<A, B>, inner: Path<B, C>): (p: Path<A, C>)
    ensures p.kind == AppendKind(outer.kind, inner.kind)
    ensures forall a :: p.lens.get(a) == inner.lens.get(outer.lens.get(a))
    ensures forall a, c :: p.lens.put(a, c) == outer.lens.put(a, inner.lens.put(outer.lens.get(a), c))
    ensures GetPut(outer.lens) && GetPut(inner.lens) ==> GetPut(p.lens)
    ensures PutGet(outer.lens) && PutGet(inner.lens) ==> PutGet(p.lens)
  {
    assert GetPut(outer.lens) && GetPut(inner.lens) ==> GetPut(Compose(outer.lens, inner.lens)) by {
      if GetPut(outer.lens) && GetPut(inner.lens) {
        ComposeGetPut(outer.lens, inner.lens);
      }
    }
    assert PutGet(outer.lens) && PutGet(inner.lens) ==> PutGet(Compose(outer.lens, inner.lens)) by {
      if PutGet(outer.lens) && PutGet(inner.lens) {
        ComposePutGet(outer.lens, inner.lens);
      }
    }
    Path(AppendKind(outer.kind, inner.kind), Compose(outer.lens, inner.lens))
  }
}
