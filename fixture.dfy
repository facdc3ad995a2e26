/**
 * The test fixture class of tests/Fixtures/TestClass.php as a descriptor, and
 * the outcomes tests/AttributesTest.php expects of it, proved of the model.
 */
module Fixture {
  import opened Wrappers
  import opened Reflection
  import opened Targets
  import opened Attributes

  /** An attribute object: its class and the constructor arguments bound to its fields. */
  datatype Instance = Instance(cls: Kind, arguments: seq<Argument>)

  /** `newInstance()` for the fixture's attributes, each of which only stores its arguments. */
  function NewInstance(d: Declaration): Instance
  {
    Instance(d.kind, d.arguments)
  }

  /** No attribute class of the fixture extends another, so IS_INSTANCEOF is class equality. */
  function IsSubKind(actual: Kind, requested: Kind): bool
  {
    actual == requested
  }

  /** `#[kind(field: value)]` */
  function Attr(kind: Kind, field: string, value: Value): Declaration
  {
    Declaration(kind, [Named(field, value)])
  }

  const Simple := "SimpleAttribute"
  const Repeatable := "RepeatableAttribute"
  const MethodKind := "MethodAttribute"
  const ParameterKind := "ParameterAttribute"
  const PropertyKind := "PropertyAttribute"
  const ConstantKind := "ConstantAttribute"
  const MultiTarget := "MultiTargetAttribute"

  const TestClassName := "Spatie\\Attributes\\Tests\\Fixtures\\TestClass"

  // The eleven attributes declared on the fixture, in source order.
  const NameTestClass := Attr(Simple, "name", Str("test-class"))
  const TagFirst := Attr(Repeatable, "tag", Str("first"))
  const TagSecond := Attr(Repeatable, "tag", Str("second"))
  const RouteHandle := Attr(MethodKind, "route", Str("/handle"))
  const TypeRequest := Attr(ParameterKind, "type", Str("request"))
  const TypeInt := Attr(ParameterKind, "type", Str("int"))
  const RouteProcess := Attr(MethodKind, "route", Str("/process"))
  const LabelProcessor := Attr(MultiTarget, "label", Str("processor"))
  const Fillable := Attr(PropertyKind, "fillable", Bool(true))
  const NotFillable := Attr(PropertyKind, "fillable", Bool(false))
  const ActiveStatus := Attr(ConstantKind, "description", Str("The active status"))

  const ClassAttributes := [NameTestClass, TagFirst, TagSecond]
  const Request := Parameter("request", [TypeRequest])
  const Id := Parameter("id", [TypeInt])
  const Handle := Method("handle", [RouteHandle], [Request, Id])
  const Process := Method("process", [RouteProcess, LabelProcessor], [])
  const PlainMethod := Method("plain", [], [])
  const NameProperty := Property("name", [Fillable])
  const SecretProperty := Property("secret", [NotFillable])
  const StatusActive := Constant("STATUS_ACTIVE", [ActiveStatus])

  const TestClass := Class(TestClassName, ClassAttributes,
                           [Handle, Process, PlainMethod], [NameProperty, SecretProperty], [StatusActive])

  lemma ClassLookup()
    ensures Get(TestClass, Simple, IsSubKind, NewInstance) == Some(Instance(Simple, [Named("name", Str("test-class"))]))
    ensures Has(TestClass, Simple, IsSubKind)
  {
    GetFirstMatch(TestClass, Simple, IsSubKind, NewInstance, 0);
  }

  /** The shape of the test class: one non-matching declaration followed by two matching ones. */
  lemma GetAllLastTwo(c: Class, x: Declaration, y: Declaration, z: Declaration, kind: Kind)
    requires c.attributes == [x, y, z]
    requires !IsSubKind(x.kind, kind) && IsSubKind(y.kind, kind) && IsSubKind(z.kind, kind)
    ensures GetAll(c, kind, IsSubKind, NewInstance) == [NewInstance(y), NewInstance(z)]
  {
    var ds := c.attributes;
    assert ds[1..] == [y, z] && ds[1..][1..] == [z] && ds[1..][1..][1..] == [];
    assert Filter([z], Some(kind), IsSubKind) == [z];
    assert Filter([y, z], Some(kind), IsSubKind) == [y] + [z];
    assert Filter(ds, Some(kind), IsSubKind) == [y, z];
  }

  lemma RepeatedLookup()
    ensures GetAll(TestClass, Repeatable, IsSubKind, NewInstance)
         == [Instance(Repeatable, [Named("tag", Str("first"))]), Instance(Repeatable, [Named("tag", Str("second"))])]
  {
    GetAllLastTwo(TestClass, NameTestClass, TagFirst, TagSecond, Repeatable);
  }

  lemma MethodLookup()
    ensures OnMethod(TestClass, "handle", MethodKind, IsSubKind, NewInstance)
         == Some(Instance(MethodKind, [Named("route", Str("/handle"))]))
  {
  }

  lemma MethodLookupMisses()
    ensures OnMethod(TestClass, "plain", MethodKind, IsSubKind, NewInstance) == None
    ensures OnMethod(TestClass, "nonExistent", MethodKind, IsSubKind, NewInstance) == None
  {
  }

  lemma PropertyLookups()
    ensures OnProperty(TestClass, "name", PropertyKind, IsSubKind, NewInstance)
         == Some(Instance(PropertyKind, [Named("fillable", Bool(true))]))
    ensures OnProperty(TestClass, "nonExistent", PropertyKind, IsSubKind, NewInstance) == None
  {
  }

  lemma ConstantLookups()
    ensures OnConstant(TestClass, "STATUS_ACTIVE", ConstantKind, IsSubKind, NewInstance)
         == Some(Instance(ConstantKind, [Named("description", Str("The active status"))]))
    ensures OnConstant(TestClass, "NON_EXISTENT", ConstantKind, IsSubKind, NewInstance) == None
  {
  }

  lemma ParameterLookup()
    ensures OnParameter(TestClass, "handle", "request", ParameterKind, IsSubKind, NewInstance)
         == Some(Instance(ParameterKind, [Named("type", Str("request"))]))
  {
  }

  lemma ParameterLookupMisses()
    ensures OnParameter(TestClass, "handle", "nonExistent", ParameterKind, IsSubKind, NewInstance) == None
    ensures OnParameter(TestClass, "nonExistent", "request", ParameterKind, IsSubKind, NewInstance) == None
  {
  }

  /** The records of one site under a filter. */
  function At(ds: seq<Declaration>, filter: Option<Kind>, site: Site): seq<AttributeTarget<Declaration>>
  {
    SiteTargets(Filter(ds, filter, IsSubKind), site, DisplayName(site))
  }

  lemma HandleParameterTargets(filter: Option<Kind>)
    ensures ParameterTargets("handle", Handle.parameters, filter, IsSubKind)
         == At(Request.attributes, filter, ParameterSite("handle", "request"))
          + At(Id.attributes, filter, ParameterSite("handle", "id"))
  {
    var ps := [Request, Id];
    assert ps[..1] == [Request] && [Request][..0] == [];
    var r := At(Request.attributes, filter, ParameterSite("handle", "request"));
    assert ParameterTargets("handle", [Request], filter, IsSubKind) == [] + r;
    assert [] + r == r;
  }

  lemma TestClassMethodTargets(filter: Option<Kind>)
    ensures MethodTargets(TestClass.methods, filter, IsSubKind)
         == TargetsOfMethod(Handle, filter, IsSubKind) + TargetsOfMethod(Process, filter, IsSubKind)
          + TargetsOfMethod(PlainMethod, filter, IsSubKind)
  {
    var ms := [Handle, Process, PlainMethod];
    assert ms[..2] == [Handle, Process] && ms[..2][..1] == [Handle] && [Handle][..0] == [];
    var h := TargetsOfMethod(Handle, filter, IsSubKind);
    assert MethodTargets([Handle], filter, IsSubKind) == [] + h;
    assert [] + h == h;
  }

  lemma TestClassPropertyTargets(filter: Option<Kind>)
    ensures PropertyTargets(TestClass.properties, filter, IsSubKind)
         == At(NameProperty.attributes, filter, PropertySite("name"))
          + At(SecretProperty.attributes, filter, PropertySite("secret"))
  {
    var ps := [NameProperty, SecretProperty];
    assert ps[..1] == [NameProperty] && [NameProperty][..0] == [];
    var n := At(NameProperty.attributes, filter, PropertySite("name"));
    assert PropertyTargets([NameProperty], filter, IsSubKind) == [] + n;
    assert [] + n == n;
  }

  lemma TestClassConstantTargets(filter: Option<Kind>)
    ensures ConstantTargets(TestClass.constants, filter, IsSubKind)
         == At(StatusActive.attributes, filter, ConstantSite("STATUS_ACTIVE"))
  {
    assert [StatusActive][..0] == [];
    var k := At(StatusActive.attributes, filter, ConstantSite("STATUS_ACTIVE"));
    assert [] + k == k;
  }

  /** The record a single declaration contributes at a site, if it passes the filter. */
  lemma AtOne(d: Declaration, filter: Option<Kind>, site: Site)
    ensures At([d], filter, site) == if Matches(d, filter, IsSubKind) then [AttributeTarget(d, site, DisplayName(site))] else []
  {
    assert [d][1..] == [];
  }

  lemma AtSplit(a: seq<Declaration>, b: seq<Declaration>, filter: Option<Kind>, site: Site)
    ensures At(a + b, filter, site) == At(a, filter, site) + At(b, filter, site)
  {
    FilterAppend(a, b, filter, IsSubKind);
    SiteTargetsAppend(Filter(a, filter, IsSubKind), Filter(b, filter, IsSubKind), site, DisplayName(site));
  }

  // What `find` visits on the fixture under a filter: one slot per declared attribute.

  function ClassSlots(filter: Option<Kind>): seq<AttributeTarget<Declaration>>
  {
    At([NameTestClass], filter, ClassSite(TestClassName))
      + At([TagFirst], filter, ClassSite(TestClassName))
      + At([TagSecond], filter, ClassSite(TestClassName))
  }

  function HandleSlots(filter: Option<Kind>): seq<AttributeTarget<Declaration>>
  {
    At([RouteHandle], filter, MethodSite("handle"))
      + At([TypeRequest], filter, ParameterSite("handle", "request"))
      + At([TypeInt], filter, ParameterSite("handle", "id"))
  }

  function ProcessSlots(filter: Option<Kind>): seq<AttributeTarget<Declaration>>
  {
    At([RouteProcess], filter, MethodSite("process")) + At([LabelProcessor], filter, MethodSite("process"))
  }

  function MemberSlots(filter: Option<Kind>): seq<AttributeTarget<Declaration>>
  {
    At([Fillable], filter, PropertySite("name"))
      + At([NotFillable], filter, PropertySite("secret"))
      + At([ActiveStatus], filter, ConstantSite("STATUS_ACTIVE"))
  }

  function Slots(filter: Option<Kind>): seq<AttributeTarget<Declaration>>
  {
    ClassSlots(filter) + HandleSlots(filter) + ProcessSlots(filter) + MemberSlots(filter)
  }

  /** A class with three class-level attributes contributes their slots in order. */
  lemma ClassTargetsOfThree(c: Class, x: Declaration, y: Declaration, z: Declaration, filter: Option<Kind>)
    requires c.attributes == [x, y, z]
    ensures ClassTargets(c, filter, IsSubKind)
         == At([x], filter, ClassSite(c.name)) + At([y], filter, ClassSite(c.name)) + At([z], filter, ClassSite(c.name))
  {
    var cs := ClassSite(c.name);
    calc {
      ClassTargets(c, filter, IsSubKind);
      At(c.attributes, filter, cs);
      { assert c.attributes == [x] + ([y] + [z]); }
      At([x] + ([y] + [z]), filter, cs);
      { AtSplit([x], [y] + [z], filter, cs); }
      At([x], filter, cs) + At([y] + [z], filter, cs);
      { AtSplit([y], [z], filter, cs); }
      At([x], filter, cs) + (At([y], filter, cs) + At([z], filter, cs));
      { AppendAssociative(At([x], filter, cs), At([y], filter, cs), At([z], filter, cs)); }
      At([x], filter, cs) + At([y], filter, cs) + At([z], filter, cs);
    }
  }

  /** A method with two attributes and no parameters contributes their slots in order. */
  lemma TargetsOfTwoAttributeMethod(m: Method, x: Declaration, y: Declaration, filter: Option<Kind>)
    requires m.attributes == [x, y] && m.parameters == []
    ensures TargetsOfMethod(m, filter, IsSubKind) == At([x], filter, MethodSite(m.name)) + At([y], filter, MethodSite(m.name))
  {
    AtSplit([x], [y], filter, MethodSite(m.name));
    assert [x] + [y] == m.attributes;
  }

  lemma ClassPart(filter: Option<Kind>)
    ensures ClassTargets(TestClass, filter, IsSubKind) == ClassSlots(filter)
  {
    ClassTargetsOfThree(TestClass, NameTestClass, TagFirst, TagSecond, filter);
  }

  lemma MethodPart(filter: Option<Kind>)
    ensures MethodTargets(TestClass.methods, filter, IsSubKind) == HandleSlots(filter) + ProcessSlots(filter)
  {
    var h, p := TargetsOfMethod(Handle, filter, IsSubKind), TargetsOfMethod(Process, filter, IsSubKind);
    assert h == HandleSlots(filter) by {
      HandleParameterTargets(filter);
      AppendAssociative(At([RouteHandle], filter, MethodSite("handle")),
                        At([TypeRequest], filter, ParameterSite("handle", "request")),
                        At([TypeInt], filter, ParameterSite("handle", "id")));
    }
    assert p == ProcessSlots(filter) by {
      TargetsOfTwoAttributeMethod(Process, RouteProcess, LabelProcessor, filter);
    }
    assert TargetsOfMethod(PlainMethod, filter, IsSubKind) == [];
    TestClassMethodTargets(filter);
  }

  lemma MemberPart(filter: Option<Kind>)
    ensures PropertyTargets(TestClass.properties, filter, IsSubKind) + ConstantTargets(TestClass.constants, filter, IsSubKind)
         == MemberSlots(filter)
  {
    TestClassPropertyTargets(filter);
    TestClassConstantTargets(filter);
  }

  lemma LocateTestClass(filter: Option<Kind>)
    ensures Locate(TestClass, filter, IsSubKind) == Slots(filter)
  {
    ClassPart(filter);
    MethodPart(filter);
    MemberPart(filter);
    var c, h, p := ClassSlots(filter), HandleSlots(filter), ProcessSlots(filter);
    var pt, kt := PropertyTargets(TestClass.properties, filter, IsSubKind), ConstantTargets(TestClass.constants, filter, IsSubKind);
    AppendAssociative(c + (h + p), pt, kt);
    AppendAssociative(c, h, p);
  }

  // The slots that a kind filter keeps, one lemma per group of sites.

  lemma ClassSlotsOf(k: Kind)
    ensures ClassSlots(Some(k))
         == (if k == Simple then [AttributeTarget(NameTestClass, ClassSite(TestClassName), TestClassName)] else [])
          + (if k == Repeatable then [AttributeTarget(TagFirst, ClassSite(TestClassName), TestClassName),
                                      AttributeTarget(TagSecond, ClassSite(TestClassName), TestClassName)] else [])
  {
    var cs := ClassSite(TestClassName);
    AtOne(NameTestClass, Some(k), cs);
    AtOne(TagFirst, Some(k), cs);
    AtOne(TagSecond, Some(k), cs);
  }

  lemma HandleSlotsOf(k: Kind)
    ensures HandleSlots(Some(k))
         == (if k == MethodKind then [AttributeTarget(RouteHandle, MethodSite("handle"), "handle")] else [])
          + (if k == ParameterKind then [AttributeTarget(TypeRequest, ParameterSite("handle", "request"), "handle.request"),
                                         AttributeTarget(TypeInt, ParameterSite("handle", "id"), "handle.id")] else [])
  {
    assert "handle" + "." + "request" == "handle.request" && "handle" + "." + "id" == "handle.id";
    AtOne(RouteHandle, Some(k), MethodSite("handle"));
    AtOne(TypeRequest, Some(k), ParameterSite("handle", "request"));
    AtOne(TypeInt, Some(k), ParameterSite("handle", "id"));
  }

  lemma ProcessSlotsOf(k: Kind)
    ensures ProcessSlots(Some(k))
         == (if k == MethodKind then [AttributeTarget(RouteProcess, MethodSite("process"), "process")] else [])
          + (if k == MultiTarget then [AttributeTarget(LabelProcessor, MethodSite("process"), "process")] else [])
  {
    AtOne(RouteProcess, Some(k), MethodSite("process"));
    AtOne(LabelProcessor, Some(k), MethodSite("process"));
  }

  lemma MemberSlotsOf(k: Kind)
    ensures MemberSlots(Some(k))
         == (if k == PropertyKind then [AttributeTarget(Fillable, PropertySite("name"), "name"),
                                        AttributeTarget(NotFillable, PropertySite("secret"), "secret")] else [])
          + (if k == ConstantKind then [AttributeTarget(ActiveStatus, ConstantSite("STATUS_ACTIVE"), "STATUS_ACTIVE")] else [])
  {
    AtOne(Fillable, Some(k), PropertySite("name"));
    AtOne(NotFillable, Some(k), PropertySite("secret"));
    AtOne(ActiveStatus, Some(k), ConstantSite("STATUS_ACTIVE"));
  }

  lemma FindMultiTarget()
    ensures MaterializeTargets(Locate(TestClass, Some(MultiTarget), IsSubKind), NewInstance)
         == [AttributeTarget(Instance(MultiTarget, [Named("label", Str("processor"))]), MethodSite("process"), "process")]
  {
    LocateTestClass(Some(MultiTarget));
    ClassSlotsOf(MultiTarget);
    HandleSlotsOf(MultiTarget);
    ProcessSlotsOf(MultiTarget);
    MemberSlotsOf(MultiTarget);
  }

  lemma FindParameterAttribute()
    ensures MaterializeTargets(Locate(TestClass, Some(ParameterKind), IsSubKind), NewInstance)
         == [ AttributeTarget(Instance(ParameterKind, [Named("type", Str("request"))]), ParameterSite("handle", "request"), "handle.request"),
              AttributeTarget(Instance(ParameterKind, [Named("type", Str("int"))]), ParameterSite("handle", "id"), "handle.id") ]
  {
    LocateTestClass(Some(ParameterKind));
    ClassSlotsOf(ParameterKind);
    HandleSlotsOf(ParameterKind);
    ProcessSlotsOf(ParameterKind);
    MemberSlotsOf(ParameterKind);
    MaterializePair(AttributeTarget(TypeRequest, ParameterSite("handle", "request"), "handle.request"),
                    AttributeTarget(TypeInt, ParameterSite("handle", "id"), "handle.id"));
  }

  lemma MethodKindSlots()
    ensures ClassSlots(Some(MethodKind)) == [] && MemberSlots(Some(MethodKind)) == []
    ensures HandleSlots(Some(MethodKind)) == [AttributeTarget(RouteHandle, MethodSite("handle"), "handle")]
    ensures ProcessSlots(Some(MethodKind)) == [AttributeTarget(RouteProcess, MethodSite("process"), "process")]
  {
    ClassSlotsOf(MethodKind);
    HandleSlotsOf(MethodKind);
    ProcessSlotsOf(MethodKind);
    MemberSlotsOf(MethodKind);
  }

  lemma Pair<T>(x: T, y: T)
    ensures [] + [x] + [y] + [] == [x, y]
  {
  }

  lemma MaterializePair(x: AttributeTarget<Declaration>, y: AttributeTarget<Declaration>)
    ensures MaterializeTargets([x, y], NewInstance)
         == [ AttributeTarget(Instance(x.attribute.kind, x.attribute.arguments), x.target, x.name),
              AttributeTarget(Instance(y.attribute.kind, y.attribute.arguments), y.target, y.name) ]
  {
  }

  lemma FindMethodAttribute()
    ensures MaterializeTargets(Locate(TestClass, Some(MethodKind), IsSubKind), NewInstance)
         == [ AttributeTarget(Instance(MethodKind, [Named("route", Str("/handle"))]), MethodSite("handle"), "handle"),
              AttributeTarget(Instance(MethodKind, [Named("route", Str("/process"))]), MethodSite("process"), "process") ]
  {
    LocateTestClass(Some(MethodKind));
    MethodKindSlots();
    var h, p := AttributeTarget(RouteHandle, MethodSite("handle"), "handle"), AttributeTarget(RouteProcess, MethodSite("process"), "process");
    Pair(h, p);
    MaterializePair(h, p);
  }

  /** Every attribute class used on the fixture is found by a `find` filtered on it. */
  lemma FindsEachClass(k: Kind)
    requires k in {Simple, Repeatable, MethodKind, ParameterKind, MultiTarget, PropertyKind, ConstantKind}
    ensures Locate(TestClass, Some(k), IsSubKind) != []
  {
    LocateTestClass(Some(k));
    ClassSlotsOf(k);
    HandleSlotsOf(k);
    ProcessSlotsOf(k);
    MemberSlotsOf(k);
  }

  /** Without a filter every attribute is found: eleven records. */
  lemma FindUnfilteredCount()
    ensures |MaterializeTargets(Locate(TestClass, None, IsSubKind), NewInstance)| == 11
  {
    LocateTestClass(None);
    var cs := ClassSite(TestClassName);
    AtOne(NameTestClass, None, cs);
    AtOne(TagFirst, None, cs);
    AtOne(TagSecond, None, cs);
    AtOne(RouteHandle, None, MethodSite("handle"));
    AtOne(TypeRequest, None, ParameterSite("handle", "request"));
    AtOne(TypeInt, None, ParameterSite("handle", "id"));
    AtOne(RouteProcess, None, MethodSite("process"));
    AtOne(LabelProcessor, None, MethodSite("process"));
    AtOne(Fillable, None, PropertySite("name"));
    AtOne(NotFillable, None, PropertySite("secret"));
    AtOne(ActiveStatus, None, ConstantSite("STATUS_ACTIVE"));
  }

  /** Without a filter the records cover all seven attribute classes. */
  lemma FindUnfilteredClasses(k: Kind)
    requires k in {Simple, Repeatable, MethodKind, ParameterKind, MultiTarget, PropertyKind, ConstantKind}
    ensures exists t :: t in MaterializeTargets(Locate(TestClass, None, IsSubKind), NewInstance) && t.attribute.cls == k
  {
    FindsEachClass(k);
    UnfilteredCoversKind(TestClass, k, IsSubKind, NewInstance);
  }
}
