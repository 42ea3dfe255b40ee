/** `KeyPathMappable`: any value can be addressed through key paths over
    `KeyPathMapper`s. The value is wrapped by `__map`, the mapper key path is
    applied, and the result is unwrapped by `.value`. */
module Mappable {
  import opened Lenses
  import opened KeyPathMappers

  /** The `__map` property: reading wraps `self`; writing replaces `self`
      with the written mapper's value. */
  function MapLens<S>(): Lens<S, Mapper<S>> {
    Lens((s: S) => Mapper(s), (s: S, m: Mapper<S>) => m.value)
  }

  /** `__map` is a lawful lens: wrapping and unwrapping are inverse. */
  lemma MapLensLaws<S(!new)>()
    ensures GetPut(MapLens<S>()) && PutGet(MapLens<S>()) && PutPut(MapLens<S>())
  {
  }

  /** The key path `\S.[mapPath: path]`, built as Swift evaluates
      `__map[keyPath: path].value`. */
  function MapPath<S, T>(path: Lens<Mapper<S>, Mapper<T>>): Lens<S, T> {
    Compose(Compose(MapLens(), path), ValueLens())
  }

  /** Reading through `mapPath` reads the mapper key path on the wrapped value
      and unwraps the result; writing wraps the new value, writes it through
      the mapper key path and unwraps the new root. */
  lemma MapPathUnfolds<S, T>(path: Lens<Mapper<S>, Mapper<T>>, s: S, t: T)
    ensures MapPath(path).get(s) == path.get(Mapper(s)).value
    ensures MapPath(path).put(s, t) == path.put(Mapper(s), Mapper(t)).value
  {
    ComposePut(MapLens(), path, s, path.get(Mapper(s)));
    ComposePut(Compose(MapLens(), path), ValueLens(), s, t);
  }

  /** Reading `__map` and writing it back leaves `self` unchanged. */
  lemma MapRoundTrip<S>(s: S)
    ensures MapLens<S>().put(s, MapLens<S>().get(s)) == s
    ensures MapLens<S>().get(s).value == s
  {
  }

  /** A lawful mapper key path gives a lawful `mapPath` key path. */
  lemma MapPathLaws<S(!new), T(!new)>(path: Lens<Mapper<S>, Mapper<T>>)
    requires GetPut(path) && PutGet(path) && PutPut(path)
    ensures GetPut(MapPath(path)) && PutGet(MapPath(path)) && PutPut(MapPath(path))
  {
    MapLensLaws<S>();
    ValueLensLaws<T>();
    ComposeGetPut(MapLens<S>(), path);
    ComposePutGet(MapLens<S>(), path);
    ComposePutPut(MapLens<S>(), path);
    ComposeGetPut(Compose(MapLens<S>(), path), ValueLens<T>());
    ComposePutGet(Compose(MapLens<S>(), path), ValueLens<T>());
    ComposePutPut(Compose(MapLens<S>(), path), ValueLens<T>());
  }

  /** `subscript(mapPath:)` on tagged key paths. It is writable exactly when
      the mapper key path is (a reference-writable one selects the writable
      overload); it reads and writes as `MapPathUnfolds` states for every
      root; and a lawful mapper key path gives a lawful result. */
  function MapPathOf<S(!new), T(!new)>(path: Path<Mapper<S>, Mapper<T>>): (q: Path<S, T>)
    ensures q.kind == SubscriptKind(path.kind)
    ensures forall s :: q.lens.get(s) == path.lens.get(Mapper(s)).value
    ensures forall s, t :: q.lens.put(s, t) == path.lens.put(Mapper(s), Mapper(t)).value
    ensures GetPut(path.lens) && PutGet(path.lens) && PutPut(path.lens) ==>
              GetPut(q.lens) && PutGet(q.lens) && PutPut(q.lens)
  {
    assert forall s, t :: MapPath(path.lens).put(s, t) == path.lens.put(Mapper(s), Mapper(t)).value by {
      forall s, t ensures MapPath(path.lens).put(s, t) == path.lens.put(Mapper(s), Mapper(t)).value {
        MapPathUnfolds(path.lens, s, t);
      }
    }
    assert GetPut(path.lens) && PutGet(path.lens) && PutPut(path.lens) ==>
             GetPut(MapPath(path.lens)) && PutGet(MapPath(path.lens)) && PutPut(MapPath(path.lens)) by {
      if GetPut(path.lens) && PutGet(path.lens) && PutPut(path.lens) {
        MapPathLaws(path.lens);
      }
    }
    Path(SubscriptKind(path.kind), MapPath(path.lens))
  }
}
