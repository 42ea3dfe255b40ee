/** The repository's test scenarios, replayed on the model: a root holding an
    optional struct property with an integer field (value types throughout),
    indexed access to an integer array, and a mutable optional mapper. */
module Scenarios {
  import opened Optionals
  import opened Lenses
  import opened Hashing
  import opened OptionalSubscripts
  import opened KeyPathOptional
  import opened KeyPathMappers
  import opened Mappable
  import opened MapperOptional
  import opened MapperCollection

  datatype Property = Property(value: int)
  datatype Root = Root(property: Option<Property>)

  /** `Root(value)` maps an optional integer to an optional property. */
  function MakeRoot(v: Option<int>): Root {
    Root(v.Map((x: int) => Property(x)))
  }

  /** `\Root.property` */
  function PropertyPath(): Path<Root, Option<Property>> {
    Path(Writable, Lens((r: Root) => r.property, (r: Root, p: Option<Property>) => Root(p)))
  }

  /** `\Property.value` */
  function PropertyValue(): Path<Property, int> {
    Path(Writable, Lens((p: Property) => p.value, (p: Property, v: int) => Property(v)))
  }

  const DefaultValue: int := 69
  const PropertyIdentity: HashToken := HashToken(1)
  const CombinedIdentity: HashToken := HashToken(2)

  /** `property.appending(path: propertyValue)` */
  function Combined(): Path<Root, Option<int>> {
    Appending(PropertyPath(), PropertyValue())
  }

  /** `combined.unwrapped(with: defaultValue, aggressive: aggressive)` */
  function CombinedUnwrapped(aggressive: bool): Path<Root, int> {
    Unwrapped(Combined(), DefaultValue, aggressive, CombinedIdentity)
  }

  /** `property.unwrapped(with: defaultProperty, aggressive: aggressive).appending(path: propertyValue)` */
  function UnwrappedThenValue(aggressive: bool): Path<Root, int> {
    Append(Unwrapped(PropertyPath(), Property(DefaultValue), aggressive, PropertyIdentity), PropertyValue())
  }

  /** The `\Root.property` key path obeys get-put. */
  lemma PropertyPathGetPut()
    ensures GetPut(PropertyPath().lens)
  {
  }

  /** All five key paths are writable, as the tests declare them. */
  lemma ScenarioKinds(aggressive: bool)
    ensures Combined().kind == Writable
    ensures CombinedUnwrapped(aggressive).kind == Writable
    ensures UnwrappedThenValue(aggressive).kind == Writable
  {
  }

  /** The combined path: reads nil and 100; writing 0 leaves `Root(nil)`
      unchanged and turns `Root(100)` into `Root(0)`. */
  lemma CombinedScenario()
    ensures Read(Combined(), MakeRoot(None)) == None
    ensures Read(Combined(), MakeRoot(Some(100))) == Some(100)
    ensures Write(Combined(), MakeRoot(None), Some(0)) == MakeRoot(None)
    ensures Write(Combined(), MakeRoot(Some(100)), Some(0)) == MakeRoot(Some(0))
  {
    PropertyPathGetPut();
    AppendingWrite(PropertyPath(), PropertyValue(), MakeRoot(None), Some(0));
    AppendingWrite(PropertyPath(), PropertyValue(), MakeRoot(Some(100)), Some(0));
  }

  /** Unwrapping the combined path, with either policy: reads 69 and 100;
      writing 0 leaves `Root(nil)` unchanged, because the aggressive write
      reaches a lifted key path whose root is absent, and turns `Root(100)`
      into `Root(0)`. */
  lemma CombinedUnwrappedScenario(aggressive: bool)
    ensures Read(CombinedUnwrapped(aggressive), MakeRoot(None)) == DefaultValue
    ensures Read(CombinedUnwrapped(aggressive), MakeRoot(Some(100))) == 100
    ensures Write(CombinedUnwrapped(aggressive), MakeRoot(None), 0) == MakeRoot(None)
    ensures Write(CombinedUnwrapped(aggressive), MakeRoot(Some(100)), 0) == MakeRoot(Some(0))
  {
    PropertyPathGetPut();
    UnwrappedRead(Combined(), DefaultValue, aggressive, CombinedIdentity, MakeRoot(None));
    UnwrappedRead(Combined(), DefaultValue, aggressive, CombinedIdentity, MakeRoot(Some(100)));
    CombinedScenario();
    ComposeGetPut(PropertyPath().lens, Lift(PropertyValue().lens));
    UnwrappedWrite(Combined(), DefaultValue, aggressive, CombinedIdentity, MakeRoot(None), 0);
    UnwrappedWrite(Combined(), DefaultValue, aggressive, CombinedIdentity, MakeRoot(Some(100)), 0);
    AppendingWrite(PropertyPath(), PropertyValue(), MakeRoot(Some(100)), Some(0));
  }

  /** Unwrapping the property and then appending its field: reads 69 and
      100; writing 0 into `Root(nil)` is a no-op without the aggressive policy
      and gives `Root(0)` with it; writing 0 into `Root(100)` gives `Root(0)`. */
  lemma UnwrappedThenValueScenario(aggressive: bool)
    ensures Read(UnwrappedThenValue(aggressive), MakeRoot(None)) == DefaultValue
    ensures Read(UnwrappedThenValue(aggressive), MakeRoot(Some(100))) == 100
    ensures Write(UnwrappedThenValue(aggressive), MakeRoot(None), 0)
         == if aggressive then MakeRoot(Some(0)) else MakeRoot(None)
    ensures Write(UnwrappedThenValue(aggressive), MakeRoot(Some(100)), 0) == MakeRoot(Some(0))
  {
    PropertyPathGetPut();
    var u := Unwrapped(PropertyPath(), Property(DefaultValue), aggressive, PropertyIdentity);
    UnwrappedRead(PropertyPath(), Property(DefaultValue), aggressive, PropertyIdentity, MakeRoot(None));
    UnwrappedRead(PropertyPath(), Property(DefaultValue), aggressive, PropertyIdentity, MakeRoot(Some(100)));
    ComposePut(u.lens, PropertyValue().lens, MakeRoot(None), 0);
    ComposePut(u.lens, PropertyValue().lens, MakeRoot(Some(100)), 0);
    UnwrappedWrite(PropertyPath(), Property(DefaultValue), aggressive, PropertyIdentity, MakeRoot(None), Property(0));
    UnwrappedWrite(PropertyPath(), Property(DefaultValue), aggressive, PropertyIdentity, MakeRoot(Some(100)), Property(0));
  }

  /** `array[mapPath: \.[unsafeIndex: 0]]` reads 0 from `[0, 1, 2, 3]`, and
      writing 1 through it gives `[1, 1, 2, 3]`. */
  lemma UnsafeIndexScenario()
    ensures UnsafeIndexGet(MapLens<seq<int>>().get([0, 1, 2, 3]), 0).value == 0
    ensures MapLens<seq<int>>().put([0, 1, 2, 3], UnsafeIndexPut(Mapper([0, 1, 2, 3]), 0, Mapper(1))) == [1, 1, 2, 3]
  {
  }

  /** `array[mapPath: \.[safeIndex: i]]` on `[0, 1, 2, 3]`: reads 0 at index
      0; writing nil at 0 or 1 at -1 changes nothing; writing 1 at 0 gives
      `[1, 1, 2, 3]`. */
  lemma SafeIndexScenario()
    ensures MapPath(SafeIndex<int>(0)).get([0, 1, 2, 3]) == Some(0)
    ensures MapPath(SafeIndex<int>(0)).put([0, 1, 2, 3], None) == [0, 1, 2, 3]
    ensures MapPath(SafeIndex<int>(-1)).put([0, 1, 2, 3], Some(1)) == [0, 1, 2, 3]
    ensures MapPath(SafeIndex<int>(0)).put([0, 1, 2, 3], Some(1)) == [1, 1, 2, 3]
  {
    MapPathUnfolds(SafeIndex<int>(0), [0, 1, 2, 3], None);
    MapPathUnfolds(SafeIndex<int>(-1), [0, 1, 2, 3], Some(1));
    MapPathUnfolds(SafeIndex<int>(0), [0, 1, 2, 3], Some(1));
    assert [0, 1, 2, 3][0 := 1] == [1, 1, 2, 3];
  }

  /** The optional mapper tests on a mutable `KeyPathMapper<Int?>`, through
      `\.[unwrappedWith: 0, aggressive: aggressive].value`. */
  method UnwrappingClient()
  {
    var lazy := Path(Writable, Compose(UnwrappedWith(0, false), ValueLens<int>()));
    var sut := new KeyPathMapper<Option<int>>(None);
    var x := sut.Map(lazy);
    assert x == 0;
    sut.SetMap(lazy, x + 1);
    assert sut.value == None;
    sut.SetMap(lazy, 1);
    assert sut.value == None;

    var eager := Path(Writable, Compose(UnwrappedWith(0, true), ValueLens<int>()));
    sut := new KeyPathMapper<Option<int>>(None);
    x := sut.Map(eager);
    assert x == 0;
    sut.SetMap(eager, x + 1);
    assert sut.value == Some(1);
    sut.SetMap(eager, 2);
    assert sut.value == Some(2);
  }
}
