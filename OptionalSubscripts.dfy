/** The subscripts the library adds to `Optional`: the unwrapping subscript
    with its two write policies, and the lift of a key path on `Wrapped` to a
    key path on `Optional<Wrapped>`.

    A Swift setter on a value type receives `self` inout and may replace it;
    each setter here is the `put` of a lens, which returns the new `self`. */
module OptionalSubscripts {
  import opened Optionals
  import opened Lenses
  import opened Hashing

  // ---------------------------------------------------------------------
  // subscript(_forceSet:unwrappedWith:)

  /** The key path `\Optional<W>.[_forceSet: forceSet, unwrappedWith: fallback]`.
      Reading yields the wrapped value or the fallback. Writing stores the new
      value when `forceSet` is set or a value is present, and otherwise leaves
      `self` alone. */
  function ForceSetUnwrapped<W>(forceSet: bool, fallback: W): Lens<Option<W>, W> {
    Lens((s: Option<W>) => s.GetOr(fallback),
         (s: Option<W>, v) => if forceSet then Some(v) else if s.Some? then Some(v) else s)
  }

  /** The overload whose fallback arrives wrapped in `_ForceHashable`. Its
      setter first performs a read whose result it discards. */
  function ForceSetUnwrappedHashable<W>(forceSet: bool, fallback: ForceHashable<W>): Lens<Option<W>, W> {
    Lens((s: Option<W>) => s.GetOr(fallback.value),
         (s: Option<W>, v) =>
           var _ := s.GetOr(fallback.value);
           if forceSet then Some(v) else if s.Some? then Some(v) else s)
  }

  /** Reading yields the present value, or the fallback when absent. */
  lemma ForceSetRead<W>(forceSet: bool, fallback: W, s: Option<W>)
    ensures s.Some? ==> ForceSetUnwrapped(forceSet, fallback).get(s) == s.value
    ensures s.None? ==> ForceSetUnwrapped(forceSet, fallback).get(s) == fallback
  {
  }

  /** The write policy: a write is performed exactly when it is forced or a
      value is present; a performed write makes the value present and holding
      the new value, a skipped one leaves `self` absent. */
  lemma ForceSetWritePolicy<W>(forceSet: bool, fallback: W, s: Option<W>, v: W)
    ensures forceSet || s.Some? ==> ForceSetUnwrapped(forceSet, fallback).put(s, v) == Some(v)
    ensures !forceSet && s.None? ==> ForceSetUnwrapped(forceSet, fallback).put(s, v) == None
  {
  }

  /** After a write, a read returns the written value unless the write was
      skipped, in which case it returns the fallback. */
  lemma ForceSetPutGet<W>(forceSet: bool, fallback: W, s: Option<W>, v: W)
    ensures var l := ForceSetUnwrapped(forceSet, fallback);
            l.get(l.put(s, v)) == if forceSet || s.Some? then v else fallback
  {
  }

  /** Reading and writing back is a no-op under the non-forcing policy; under
      the forcing policy it is a no-op exactly when a value is present, since
      writing back the fallback read from an absent value materialises it. */
  lemma ForceSetGetPut<W>(forceSet: bool, fallback: W, s: Option<W>)
    ensures var l := ForceSetUnwrapped(forceSet, fallback);
            l.put(s, l.get(s)) == s <==> !forceSet || s.Some?
  {
  }

  /** The `_ForceHashable` overload reads and writes exactly as the plain
      overload does with the wrapped fallback; the discarded read changes nothing. */
  lemma ForceSetHashableAgrees<W>(forceSet: bool, fallback: ForceHashable<W>, s: Option<W>, v: W)
    ensures ForceSetUnwrappedHashable(forceSet, fallback).get(s) == ForceSetUnwrapped(forceSet, fallback.value).get(s)
    ensures ForceSetUnwrappedHashable(forceSet, fallback).put(s, v) == ForceSetUnwrapped(forceSet, fallback.value).put(s, v)
  {
  }

  // ---------------------------------------------------------------------
  // subscript(_unwrappedKeyPath:)

  /** `\Optional<W>.self[_unwrappedKeyPath: l]`: read by optional chaining;
      write only when both the new value and `self` are present. */
  function Lift<W, V>(l: Lens<W, V>): Lens<Option<W>, Option<V>> {
    Lens((s: Option<W>) => s.Map(l.get),
         (s: Option<W>, nv: Option<V>) =>
           if nv.None? then s
           else if s.None? then s
           else Some(l.put(s.value, nv.value)))
  }

  /** `_keyPathOfOptionalRoot` and its writable and reference-writable
      siblings: the lifted key path keeps the kind of the key path it lifts;
      it reads absent exactly for an absent root and chains through
      otherwise; it ignores a write of an absent value or into an absent
      root, and otherwise rebuilds the wrapped root; and it keeps get-put. */
  function LiftPath<W(!new), V(!new)>(p: Path<W, V>): (q: Path<Option<W>, Option<V>>)
    ensures q.kind == p.kind
    ensures forall s: Option<W> :: q.lens.get(s).None? <==> s.None?
    ensures forall s: Option<W> :: s.Some? ==> q.lens.get(s) == Some(p.lens.get(s.value))
    ensures forall s: Option<W>, nv: Option<V> :: s.None? || nv.None? ==> q.lens.put(s, nv) == s
    ensures forall s: Option<W>, nv: Option<V> :: s.Some? && nv.Some? ==> q.lens.put(s, nv) == Some(p.lens.put(s.value, nv.value))
    ensures GetPut(p.lens) ==> GetPut(q.lens)
  {
    assert GetPut(p.lens) ==> GetPut(Lift(p.lens)) by {
      if GetPut(p.lens) {
        LiftGetPut(p.lens);
      }
    }
    Path(p.kind, Lift(p.lens))
  }

  /** The lifted read is absent for an absent root and chains through otherwise. */
  lemma LiftRead<W, V>(l: Lens<W, V>, s: Option<W>)
    ensures Lift(l).get(s).None? <==> s.None?
    ensures s.Some? ==> Lift(l).get(s) == Some(l.get(s.value))
  {
  }

  /** Writing an absent value, or writing into an absent root, is a no-op;
      otherwise the wrapped root is rebuilt by the lifted lens. */
  lemma LiftWrite<W, V>(l: Lens<W, V>, s: Option<W>, nv: Option<V>)
    ensures nv.None? ==> Lift(l).put(s, nv) == s
    ensures s.None? ==> Lift(l).put(s, nv) == None
    ensures s.Some? && nv.Some? ==> Lift(l).put(s, nv) == Some(l.put(s.value, nv.value))
  {
  }

  /** Lifting keeps get-put: reading and writing back never changes an
      optional root. */
  lemma LiftGetPut<W(!new), V>(l: Lens<W, V>)
    requires GetPut(l)
    ensures GetPut(Lift(l))
  {
    var k := Lift(l);
    forall s ensures k.put(s, k.get(s)) == s {
      if s.Some? {
        assert l.put(s.value, l.get(s.value)) == s.value;
      }
    }
  }

  /** A later write of a present value overrides an earlier write. (A later
      write of an absent value is a no-op, so it does not override.) */
  lemma LiftPutPut<W(!new), V(!new)>(l: Lens<W, V>, s: Option<W>, v: Option<V>, w: V)
    requires PutPut(l)
    ensures Lift(l).put(Lift(l).put(s, v), Some(w)) == Lift(l).put(s, Some(w))
  {
    if s.Some? && v.Some? {
      assert l.put(l.put(s.value, v.value), w) == l.put(s.value, w);
    }
  }

  /** Put-get holds for the lift exactly where a write is performed: a present
      root and a present value. It fails for an absent root. */
  lemma LiftPutGet<W, V>(l: Lens<W, V>, s: Option<W>, v: V)
    requires forall w :: l.get(l.put(w, v)) == v
    ensures Lift(l).get(Lift(l).put(s, Some(v))) == Some(v) <==> s.Some?
  {
  }
}
