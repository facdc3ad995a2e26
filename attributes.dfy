/**
 * The attribute lookup engine of src/Attributes.php: kind filtering, the
 * three result shapes (first-or-null, all, presence), the scoped lookups on
 * one member, and the `find` fan-out across a whole class.
 *
 * The host's subclass test behind IS_INSTANCEOF is the parameter
 * `isSubKind(actual, requested)`, and `newInstance()` is the parameter
 * `materialize`; both are taken as given total functions.
 */
module Attributes {
  import opened Wrappers
  import opened Reflection
  import opened Targets

  // ---------------------------------------------------------------------
  // Kind filtering: getAttributes($kind, IS_INSTANCEOF), or getAttributes()
  // ---------------------------------------------------------------------

  /** An absent filter matches every declaration; a kind matches itself and its subkinds. */
  predicate Matches(d: Declaration, filter: Option<Kind>, isSubKind: (Kind, Kind) -> bool)
  {
    filter.None? || isSubKind(d.kind, filter.value)
  }

  /** Some declaration in `ds` passes the filter. */
  ghost predicate AnyMatch(ds: seq<Declaration>, filter: Option<Kind>, isSubKind: (Kind, Kind) -> bool)
  {
    exists d :: d in ds && Matches(d, filter, isSubKind)
  }

  /** The number of declarations in `ds` that pass the filter. */
  function CountMatching(ds: seq<Declaration>, filter: Option<Kind>, isSubKind: (Kind, Kind) -> bool): nat
  {
    if ds == [] then 0
    else (if Matches(ds[0], filter, isSubKind) then 1 else 0) + CountMatching(ds[1..], filter, isSubKind)
  }

  /** The declarations of one site that pass the filter, in declaration order. */
  function Filter(ds: seq<Declaration>, filter: Option<Kind>, isSubKind: (Kind, Kind) -> bool): (r: seq<Declaration>)
    ensures |r| == CountMatching(ds, filter, isSubKind)
    ensures forall d :: d in r <==> d in ds && Matches(d, filter, isSubKind)
  {
    if ds == [] then []
    else
      assert ds == [ds[0]] + ds[1..];
      if Matches(ds[0], filter, isSubKind) then [ds[0]] + Filter(ds[1..], filter, isSubKind)
      else Filter(ds[1..], filter, isSubKind)
  }

  /** Filtering keeps order: the matches of `a + b` are those of `a`, then those of `b`. */
  lemma {:induction false} FilterAppend(a: seq<Declaration>, b: seq<Declaration>, filter: Option<Kind>, isSubKind: (Kind, Kind) -> bool)
    ensures Filter(a + b, filter, isSubKind) == Filter(a, filter, isSubKind) + Filter(b, filter, isSubKind)
  {
    if a != [] {
      assert (a + b)[0] == a[0] && (a + b)[1..] == a[1..] + b;
      FilterAppend(a[1..], b, filter, isSubKind);
      if Matches(a[0], filter, isSubKind) {
        calc {
          Filter(a + b, filter, isSubKind);
          [a[0]] + Filter(a[1..] + b, filter, isSubKind);
          [a[0]] + (Filter(a[1..], filter, isSubKind) + Filter(b, filter, isSubKind));
          ([a[0]] + Filter(a[1..], filter, isSubKind)) + Filter(b, filter, isSubKind);
        }
      }
    } else {
      assert a + b == b;
    }
  }

  /** The first match is the first declaration that passes the filter. */
  lemma {:induction false} FilterFirst(ds: seq<Declaration>, filter: Option<Kind>, isSubKind: (Kind, Kind) -> bool, i: nat)
    requires i < |ds| && Matches(ds[i], filter, isSubKind)
    requires forall j :: 0 <= j < i ==> !Matches(ds[j], filter, isSubKind)
    ensures Filter(ds, filter, isSubKind) != [] && Filter(ds, filter, isSubKind)[0] == ds[i]
  {
    if i > 0 {
      FilterFirst(ds[1..], filter, isSubKind, i - 1);
    }
  }

  /** Without a filter every declaration is kept. */
  lemma {:induction false} FilterUnfiltered(ds: seq<Declaration>, isSubKind: (Kind, Kind) -> bool)
    ensures Filter(ds, None, isSubKind) == ds
  {
    if ds != [] {
      FilterUnfiltered(ds[1..], isSubKind);
    }
  }

  lemma FilterEmpty(ds: seq<Declaration>, filter: Option<Kind>, isSubKind: (Kind, Kind) -> bool)
    ensures Filter(ds, filter, isSubKind) == [] <==> !AnyMatch(ds, filter, isSubKind)
  {
    var r := Filter(ds, filter, isSubKind);
    if r != [] {
      assert r[0] in r;
    }
  }

  // ---------------------------------------------------------------------
  // Result shapes: instantiateAll and firstFrom
  // ---------------------------------------------------------------------

  /** `instantiateAll`: one instance per matched declaration, in the same order. */
  function InstantiateAll<I>(matched: seq<Declaration>, materialize: Declaration -> I): (r: seq<I>)
    ensures |r| == |matched|
    ensures forall i :: 0 <= i < |matched| ==> r[i] == materialize(matched[i])
  {
    if matched == [] then [] else [materialize(matched[0])] + InstantiateAll(matched[1..], materialize)
  }

  /** `firstFrom`: null for no match, else the first element of what `instantiateAll` would give. */
  function FirstFrom<I>(matched: seq<Declaration>, materialize: Declaration -> I): (r: Option<I>)
    ensures r.None? <==> InstantiateAll(matched, materialize) == []
    ensures r.Some? ==> r.value == InstantiateAll(matched, materialize)[0]
  {
    if matched == [] then None else Some(materialize(matched[0]))
  }

  /**
   * `firstFrom(getAttributes(kind, IS_INSTANCEOF))`, the step every single-result
   * lookup ends with: an instance exactly when some declaration matches.
   */
  function FirstMatch<I>(ds: seq<Declaration>, kind: Kind, isSubKind: (Kind, Kind) -> bool, materialize: Declaration -> I): (r: Option<I>)
    ensures r.Some? <==> AnyMatch(ds, Some(kind), isSubKind)
  {
    FilterEmpty(ds, Some(kind), isSubKind);
    FirstFrom(Filter(ds, Some(kind), isSubKind), materialize)
  }

  // ---------------------------------------------------------------------
  // Class-level lookups: get, has, getAll
  // ---------------------------------------------------------------------

  function Get<I>(c: Class, kind: Kind, isSubKind: (Kind, Kind) -> bool, materialize: Declaration -> I): (r: Option<I>)
    ensures r.Some? <==> AnyMatch(c.attributes, Some(kind), isSubKind)
  {
    FirstMatch(c.attributes, kind, isSubKind, materialize)
  }

  /** `has` needs no materializer: it only asks whether the filtered list is empty. */
  function Has(c: Class, kind: Kind, isSubKind: (Kind, Kind) -> bool): (r: bool)
    ensures r <==> AnyMatch(c.attributes, Some(kind), isSubKind)
  {
    FilterEmpty(c.attributes, Some(kind), isSubKind);
    Filter(c.attributes, Some(kind), isSubKind) != []
  }

  function GetAll<I>(c: Class, kind: Kind, isSubKind: (Kind, Kind) -> bool, materialize: Declaration -> I): (r: seq<I>)
    ensures |r| == CountMatching(c.attributes, Some(kind), isSubKind)
    ensures forall i :: 0 <= i < |r| ==> exists d :: d in c.attributes && isSubKind(d.kind, kind) && r[i] == materialize(d)
    ensures forall d :: d in c.attributes && isSubKind(d.kind, kind) ==> exists i :: 0 <= i < |r| && r[i] == materialize(d)
  {
    var matched := Filter(c.attributes, Some(kind), isSubKind);
    assert forall i :: 0 <= i < |matched| ==> matched[i] in matched;
    assert forall d :: d in matched ==> exists i :: 0 <= i < |matched| && matched[i] == d;
    InstantiateAll(matched, materialize)
  }

  /** `get` returns the instance of the first matching declaration, never a later one. */
  lemma GetFirstMatch<I>(c: Class, kind: Kind, isSubKind: (Kind, Kind) -> bool, materialize: Declaration -> I, i: nat)
    requires i < |c.attributes| && isSubKind(c.attributes[i].kind, kind)
    requires forall j :: 0 <= j < i ==> !isSubKind(c.attributes[j].kind, kind)
    ensures Get(c, kind, isSubKind, materialize) == Some(materialize(c.attributes[i]))
  {
    FilterFirst(c.attributes, Some(kind), isSubKind, i);
  }

  /** The three shapes agree: `has` iff `getAll` is non-empty iff `get` is non-null. */
  lemma HasAgreesWithGetAndGetAll<I>(c: Class, kind: Kind, isSubKind: (Kind, Kind) -> bool, materialize: Declaration -> I)
    ensures Has(c, kind, isSubKind) <==> GetAll(c, kind, isSubKind, materialize) != []
    ensures Has(c, kind, isSubKind) <==> Get(c, kind, isSubKind, materialize).Some?
  {
  }

  /** `get` is the head of `getAll`, and null exactly when `getAll` is empty. */
  lemma GetIsHeadOfGetAll<I>(c: Class, kind: Kind, isSubKind: (Kind, Kind) -> bool, materialize: Declaration -> I)
    ensures GetAll(c, kind, isSubKind, materialize) == [] ==> Get(c, kind, isSubKind, materialize) == None
    ensures GetAll(c, kind, isSubKind, materialize) != [] ==>
      Get(c, kind, isSubKind, materialize) == Some(GetAll(c, kind, isSubKind, materialize)[0])
  {
  }

  /**
   * `getAll` keeps declaration order: splitting the class-level declarations
   * into a front and a back part splits the result the same way.
   */
  lemma GetAllInOrder<I>(c: Class, front: seq<Declaration>, back: seq<Declaration>, kind: Kind,
                         isSubKind: (Kind, Kind) -> bool, materialize: Declaration -> I)
    requires c.attributes == front + back
    ensures GetAll(c, kind, isSubKind, materialize)
         == InstantiateAll(Filter(front, Some(kind), isSubKind), materialize)
          + InstantiateAll(Filter(back, Some(kind), isSubKind), materialize)
  {
    FilterAppend(front, back, Some(kind), isSubKind);
    InstantiateAllAppend(Filter(front, Some(kind), isSubKind), Filter(back, Some(kind), isSubKind), materialize);
  }

  lemma InstantiateAllAppend<I>(a: seq<Declaration>, b: seq<Declaration>, materialize: Declaration -> I)
    ensures InstantiateAll(a + b, materialize) == InstantiateAll(a, materialize) + InstantiateAll(b, materialize)
  {
    var l, r := InstantiateAll(a + b, materialize), InstantiateAll(a, materialize) + InstantiateAll(b, materialize);
    assert |l| == |r|;
    forall i | 0 <= i < |l| ensures l[i] == r[i] {
      if i < |a| { assert (a + b)[i] == a[i]; } else { assert (a + b)[i] == b[i - |a|]; }
    }
  }

  /**
   * IS_INSTANCEOF matching is covariant: when the first declaration matching a
   * base kind is of a derived kind, a query for the base kind and a query for
   * the derived kind both return that declaration's instance.
   */
  lemma InstanceofCovariance<I>(c: Class, base: Kind, derived: Kind, isSubKind: (Kind, Kind) -> bool,
                                materialize: Declaration -> I, i: nat)
    requires i < |c.attributes| && c.attributes[i].kind == derived
    requires isSubKind(derived, base) && isSubKind(derived, derived)
    requires forall j :: 0 <= j < i ==> !isSubKind(c.attributes[j].kind, base)
    requires forall k :: isSubKind(k, derived) ==> isSubKind(k, base)
    ensures Get(c, base, isSubKind, materialize) == Some(materialize(c.attributes[i]))
    ensures Get(c, derived, isSubKind, materialize) == Some(materialize(c.attributes[i]))
  {
    GetFirstMatch(c, base, isSubKind, materialize, i);
    GetFirstMatch(c, derived, isSubKind, materialize, i);
  }

  // ---------------------------------------------------------------------
  // Scoped lookups: onMethod, onProperty, onConstant, onParameter, onFunction
  // ---------------------------------------------------------------------

  /** `onMethod`: null when the method is not declared, else the first match on it. */
  function OnMethod<I>(c: Class, methodName: string, kind: Kind, isSubKind: (Kind, Kind) -> bool, materialize: Declaration -> I): (r: Option<I>)
    ensures MethodNamed(c.methods, methodName).None? ==> r.None?
    ensures r.Some? <==> MethodNamed(c.methods, methodName).Some?
                         && AnyMatch(MethodNamed(c.methods, methodName).value.attributes, Some(kind), isSubKind)
  {
    match MethodNamed(c.methods, methodName)
    case None => None
    case Some(m) => FirstMatch(m.attributes, kind, isSubKind, materialize)
  }

  function OnProperty<I>(c: Class, property: string, kind: Kind, isSubKind: (Kind, Kind) -> bool, materialize: Declaration -> I): (r: Option<I>)
    ensures PropertyNamed(c.properties, property).None? ==> r.None?
    ensures r.Some? <==> PropertyNamed(c.properties, property).Some?
                         && AnyMatch(PropertyNamed(c.properties, property).value.attributes, Some(kind), isSubKind)
  {
    match PropertyNamed(c.properties, property)
    case None => None
    case Some(p) => FirstMatch(p.attributes, kind, isSubKind, materialize)
  }

  function OnConstant<I>(c: Class, constant: string, kind: Kind, isSubKind: (Kind, Kind) -> bool, materialize: Declaration -> I): (r: Option<I>)
    ensures ConstantNamed(c.constants, constant).None? ==> r.None?
    ensures r.Some? <==> ConstantNamed(c.constants, constant).Some?
                         && AnyMatch(ConstantNamed(c.constants, constant).value.attributes, Some(kind), isSubKind)
  {
    match ConstantNamed(c.constants, constant)
    case None => None
    case Some(k) => FirstMatch(k.attributes, kind, isSubKind, materialize)
  }

  /** The parameter `findParameter` returns: the first one, in declaration order, with that exact name. */
  function ParameterNamed(parameters: seq<Parameter>, name: string): (r: Option<Parameter>)
    ensures r.None? <==> forall i :: 0 <= i < |parameters| ==> parameters[i].name != name
    ensures r.Some? ==> r.value in parameters && r.value.name == name
  {
    if parameters == [] then None
    else if parameters[0].name == name then Some(parameters[0])
    else ParameterNamed(parameters[1..], name)
  }

  lemma {:induction false} ParameterNamedFirst(parameters: seq<Parameter>, name: string, i: nat)
    requires i < |parameters| && parameters[i].name == name
    requires forall j :: 0 <= j < i ==> parameters[j].name != name
    ensures ParameterNamed(parameters, name) == Some(parameters[i])
  {
    if i > 0 {
      ParameterNamedFirst(parameters[1..], name, i - 1);
    }
  }

  /** `findParameter`: a linear search that returns at the first parameter with the name. */
  method FindParameter(m: Method, name: string) returns (found: Option<Parameter>)
    ensures found.None? <==> forall i :: 0 <= i < |m.parameters| ==> m.parameters[i].name != name
    ensures found == ParameterNamed(m.parameters, name)
  {
    var i := 0;
    while i < |m.parameters|
      invariant i <= |m.parameters|
      invariant forall j :: 0 <= j < i ==> m.parameters[j].name != name
    {
      if m.parameters[i].name == name {
        ParameterNamedFirst(m.parameters, name, i);
        return Some(m.parameters[i]);
      }
      i := i + 1;
    }
    return None;
  }

  /**
   * `onParameter`: null when the method is not declared or has no parameter of
   * that name (the missing parameter reads as an empty declaration list).
   */
  function OnParameter<I>(c: Class, methodName: string, parameter: string, kind: Kind,
                          isSubKind: (Kind, Kind) -> bool, materialize: Declaration -> I): (r: Option<I>)
    ensures MethodNamed(c.methods, methodName).None? ==> r.None?
    ensures MethodNamed(c.methods, methodName).Some? && ParameterNamed(MethodNamed(c.methods, methodName).value.parameters, parameter).None?
            ==> r.None?
    ensures r.Some? <==> MethodNamed(c.methods, methodName).Some?
                         && ParameterNamed(MethodNamed(c.methods, methodName).value.parameters, parameter).Some?
                         && AnyMatch(ParameterNamed(MethodNamed(c.methods, methodName).value.parameters, parameter).value.attributes,
                                     Some(kind), isSubKind)
  {
    match MethodNamed(c.methods, methodName)
    case None => None
    case Some(m) =>
      var matched :=
        match ParameterNamed(m.parameters, parameter)
        case None => []
        case Some(p) => (FilterEmpty(p.attributes, Some(kind), isSubKind); Filter(p.attributes, Some(kind), isSubKind));
      FirstFrom(matched, materialize)
  }

  function OnFunction<I>(f: Function, kind: Kind, isSubKind: (Kind, Kind) -> bool, materialize: Declaration -> I): (r: Option<I>)
    ensures r.Some? <==> AnyMatch(f.attributes, Some(kind), isSubKind)
  {
    FirstMatch(f.attributes, kind, isSubKind, materialize)
  }

  /** A scoped lookup on a declared member is `get` applied to that member's own declarations. */
  lemma OnMethodFirstMatch<I>(c: Class, methodName: string, kind: Kind, isSubKind: (Kind, Kind) -> bool,
                              materialize: Declaration -> I, i: nat, k: nat)
    requires i < |c.methods| && c.methods[i].name == methodName
    requires forall j :: 0 <= j < i ==> c.methods[j].name != methodName
    requires k < |c.methods[i].attributes| && isSubKind(c.methods[i].attributes[k].kind, kind)
    requires forall j :: 0 <= j < k ==> !isSubKind(c.methods[i].attributes[j].kind, kind)
    ensures OnMethod(c, methodName, kind, isSubKind, materialize) == Some(materialize(c.methods[i].attributes[k]))
  {
    MethodNamedFirst(c.methods, methodName, i);
    FilterFirst(c.methods[i].attributes, Some(kind), isSubKind, k);
  }

  lemma OnPropertyFirstMatch<I>(c: Class, property: string, kind: Kind, isSubKind: (Kind, Kind) -> bool,
                                materialize: Declaration -> I, i: nat, k: nat)
    requires i < |c.properties| && c.properties[i].name == property
    requires forall j :: 0 <= j < i ==> c.properties[j].name != property
    requires k < |c.properties[i].attributes| && isSubKind(c.properties[i].attributes[k].kind, kind)
    requires forall j :: 0 <= j < k ==> !isSubKind(c.properties[i].attributes[j].kind, kind)
    ensures OnProperty(c, property, kind, isSubKind, materialize) == Some(materialize(c.properties[i].attributes[k]))
  {
    PropertyNamedFirst(c.properties, property, i);
    FilterFirst(c.properties[i].attributes, Some(kind), isSubKind, k);
  }

  lemma OnConstantFirstMatch<I>(c: Class, constant: string, kind: Kind, isSubKind: (Kind, Kind) -> bool,
                                materialize: Declaration -> I, i: nat, k: nat)
    requires i < |c.constants| && c.constants[i].name == constant
    requires forall j :: 0 <= j < i ==> c.constants[j].name != constant
    requires k < |c.constants[i].attributes| && isSubKind(c.constants[i].attributes[k].kind, kind)
    requires forall j :: 0 <= j < k ==> !isSubKind(c.constants[i].attributes[j].kind, kind)
    ensures OnConstant(c, constant, kind, isSubKind, materialize) == Some(materialize(c.constants[i].attributes[k]))
  {
    ConstantNamedFirst(c.constants, constant, i);
    FilterFirst(c.constants[i].attributes, Some(kind), isSubKind, k);
  }

  lemma OnFunctionFirstMatch<I>(f: Function, kind: Kind, isSubKind: (Kind, Kind) -> bool,
                                materialize: Declaration -> I, k: nat)
    requires k < |f.attributes| && isSubKind(f.attributes[k].kind, kind)
    requires forall j :: 0 <= j < k ==> !isSubKind(f.attributes[j].kind, kind)
    ensures OnFunction(f, kind, isSubKind, materialize) == Some(materialize(f.attributes[k]))
  {
    FilterFirst(f.attributes, Some(kind), isSubKind, k);
  }

  lemma OnParameterFirstMatch<I>(c: Class, methodName: string, parameter: string, kind: Kind, isSubKind: (Kind, Kind) -> bool,
                                 materialize: Declaration -> I, i: nat, p: nat, k: nat)
    requires i < |c.methods| && c.methods[i].name == methodName
    requires forall j :: 0 <= j < i ==> c.methods[j].name != methodName
    requires p < |c.methods[i].parameters| && c.methods[i].parameters[p].name == parameter
    requires forall j :: 0 <= j < p ==> c.methods[i].parameters[j].name != parameter
    requires k < |c.methods[i].parameters[p].attributes| && isSubKind(c.methods[i].parameters[p].attributes[k].kind, kind)
    requires forall j :: 0 <= j < k ==> !isSubKind(c.methods[i].parameters[p].attributes[j].kind, kind)
    ensures OnParameter(c, methodName, parameter, kind, isSubKind, materialize)
         == Some(materialize(c.methods[i].parameters[p].attributes[k]))
  {
    MethodNamedFirst(c.methods, methodName, i);
    ParameterNamedFirst(c.methods[i].parameters, parameter, p);
    FilterFirst(c.methods[i].parameters[p].attributes, Some(kind), isSubKind, k);
  }

  // ---------------------------------------------------------------------
  // find: the fan-out over every site of a class
  // ---------------------------------------------------------------------

  /** One record per declaration of a site, all tagged with that site and name. */
  function SiteTargets(ds: seq<Declaration>, site: Site, name: string): (r: seq<AttributeTarget<Declaration>>)
    ensures |r| == |ds|
    ensures forall i :: 0 <= i < |ds| ==> r[i] == AttributeTarget(ds[i], site, name)
  {
    if ds == [] then [] else [AttributeTarget(ds[0], site, name)] + SiteTargets(ds[1..], site, name)
  }

  function ClassTargets(c: Class, filter: Option<Kind>, isSubKind: (Kind, Kind) -> bool): seq<AttributeTarget<Declaration>>
  {
    SiteTargets(Filter(c.attributes, filter, isSubKind), ClassSite(c.name), c.name)
  }

  /** The records of one method: its own matches, then each parameter's, in parameter order. */
  function ParameterTargets(methodName: string, ps: seq<Parameter>, filter: Option<Kind>, isSubKind: (Kind, Kind) -> bool)
    : seq<AttributeTarget<Declaration>>
  {
    if ps == [] then []
    else
      var p := ps[|ps| - 1];
      ParameterTargets(methodName, ps[..|ps| - 1], filter, isSubKind)
        + SiteTargets(Filter(p.attributes, filter, isSubKind), ParameterSite(methodName, p.name), methodName + "." + p.name)
  }

  function TargetsOfMethod(m: Method, filter: Option<Kind>, isSubKind: (Kind, Kind) -> bool): seq<AttributeTarget<Declaration>>
  {
    SiteTargets(Filter(m.attributes, filter, isSubKind), MethodSite(m.name), m.name)
      + ParameterTargets(m.name, m.parameters, filter, isSubKind)
  }

  function MethodTargets(ms: seq<Method>, filter: Option<Kind>, isSubKind: (Kind, Kind) -> bool): seq<AttributeTarget<Declaration>>
  {
    if ms == [] then []
    else MethodTargets(ms[..|ms| - 1], filter, isSubKind) + TargetsOfMethod(ms[|ms| - 1], filter, isSubKind)
  }

  function PropertyTargets(ps: seq<Property>, filter: Option<Kind>, isSubKind: (Kind, Kind) -> bool): seq<AttributeTarget<Declaration>>
  {
    if ps == [] then []
    else
      var p := ps[|ps| - 1];
      PropertyTargets(ps[..|ps| - 1], filter, isSubKind)
        + SiteTargets(Filter(p.attributes, filter, isSubKind), PropertySite(p.name), p.name)
  }

  function ConstantTargets(ks: seq<Constant>, filter: Option<Kind>, isSubKind: (Kind, Kind) -> bool): seq<AttributeTarget<Declaration>>
  {
    if ks == [] then []
    else
      var k := ks[|ks| - 1];
      ConstantTargets(ks[..|ks| - 1], filter, isSubKind)
        + SiteTargets(Filter(k.attributes, filter, isSubKind), ConstantSite(k.name), k.name)
  }

  /**
   * What `find` visits, before materialization: class-level matches, then each
   * method (its own, then its parameters'), then properties, then constants.
   */
  function Locate(c: Class, filter: Option<Kind>, isSubKind: (Kind, Kind) -> bool): seq<AttributeTarget<Declaration>>
  {
    ClassTargets(c, filter, isSubKind)
      + MethodTargets(c.methods, filter, isSubKind)
      + PropertyTargets(c.properties, filter, isSubKind)
      + ConstantTargets(c.constants, filter, isSubKind)
  }

  /** `newInstance()` applied to each record's declaration; site and name are kept. */
  function MaterializeTargets<I>(ts: seq<AttributeTarget<Declaration>>, materialize: Declaration -> I): (r: seq<AttributeTarget<I>>)
    ensures |r| == |ts|
    ensures forall i :: 0 <= i < |ts| ==>
      r[i] == AttributeTarget(materialize(ts[i].attribute), ts[i].target, ts[i].name)
  {
    if ts == [] then []
    else
      var t := ts[|ts| - 1];
      MaterializeTargets(ts[..|ts| - 1], materialize) + [AttributeTarget(materialize(t.attribute), t.target, t.name)]
  }

  // Properties of what `find` visits

  function ParameterMatchCount(ps: seq<Parameter>, filter: Option<Kind>, isSubKind: (Kind, Kind) -> bool): nat
  {
    if ps == [] then 0
    else ParameterMatchCount(ps[..|ps| - 1], filter, isSubKind) + CountMatching(ps[|ps| - 1].attributes, filter, isSubKind)
  }

  function MethodMatchCount(ms: seq<Method>, filter: Option<Kind>, isSubKind: (Kind, Kind) -> bool): nat
  {
    if ms == [] then 0
    else
      var m := ms[|ms| - 1];
      MethodMatchCount(ms[..|ms| - 1], filter, isSubKind)
        + CountMatching(m.attributes, filter, isSubKind) + ParameterMatchCount(m.parameters, filter, isSubKind)
  }

  function PropertyMatchCount(ps: seq<Property>, filter: Option<Kind>, isSubKind: (Kind, Kind) -> bool): nat
  {
    if ps == [] then 0
    else PropertyMatchCount(ps[..|ps| - 1], filter, isSubKind) + CountMatching(ps[|ps| - 1].attributes, filter, isSubKind)
  }

  function ConstantMatchCount(ks: seq<Constant>, filter: Option<Kind>, isSubKind: (Kind, Kind) -> bool): nat
  {
    if ks == [] then 0
    else ConstantMatchCount(ks[..|ks| - 1], filter, isSubKind) + CountMatching(ks[|ks| - 1].attributes, filter, isSubKind)
  }

  /** The number of declarations, over every site of the class, that pass the filter. */
  function MatchCount(c: Class, filter: Option<Kind>, isSubKind: (Kind, Kind) -> bool): nat
  {
    CountMatching(c.attributes, filter, isSubKind)
      + MethodMatchCount(c.methods, filter, isSubKind)
      + PropertyMatchCount(c.properties, filter, isSubKind)
      + ConstantMatchCount(c.constants, filter, isSubKind)
  }

  /** Without a filter, every declaration passes. */
  lemma {:induction false} CountMatchingUnfiltered(ds: seq<Declaration>, isSubKind: (Kind, Kind) -> bool)
    ensures CountMatching(ds, None, isSubKind) == |ds|
  {
    if ds != [] {
      CountMatchingUnfiltered(ds[1..], isSubKind);
    }
  }

  lemma {:induction false} ParameterTargetsLength(methodName: string, ps: seq<Parameter>, filter: Option<Kind>, isSubKind: (Kind, Kind) -> bool)
    ensures |ParameterTargets(methodName, ps, filter, isSubKind)| == ParameterMatchCount(ps, filter, isSubKind)
  {
    if ps != [] {
      ParameterTargetsLength(methodName, ps[..|ps| - 1], filter, isSubKind);
    }
  }

  lemma {:induction false} MethodTargetsLength(ms: seq<Method>, filter: Option<Kind>, isSubKind: (Kind, Kind) -> bool)
    ensures |MethodTargets(ms, filter, isSubKind)| == MethodMatchCount(ms, filter, isSubKind)
  {
    if ms != [] {
      var m := ms[|ms| - 1];
      MethodTargetsLength(ms[..|ms| - 1], filter, isSubKind);
      ParameterTargetsLength(m.name, m.parameters, filter, isSubKind);
    }
  }

  lemma {:induction false} PropertyTargetsLength(ps: seq<Property>, filter: Option<Kind>, isSubKind: (Kind, Kind) -> bool)
    ensures |PropertyTargets(ps, filter, isSubKind)| == PropertyMatchCount(ps, filter, isSubKind)
  {
    if ps != [] {
      PropertyTargetsLength(ps[..|ps| - 1], filter, isSubKind);
    }
  }

  lemma {:induction false} ConstantTargetsLength(ks: seq<Constant>, filter: Option<Kind>, isSubKind: (Kind, Kind) -> bool)
    ensures |ConstantTargets(ks, filter, isSubKind)| == ConstantMatchCount(ks, filter, isSubKind)
  {
    if ks != [] {
      ConstantTargetsLength(ks[..|ks| - 1], filter, isSubKind);
    }
  }

  /** `find` yields exactly one record per matching declaration, over all sites. */
  lemma LocateLength(c: Class, filter: Option<Kind>, isSubKind: (Kind, Kind) -> bool)
    ensures |Locate(c, filter, isSubKind)| == MatchCount(c, filter, isSubKind)
  {
    MethodTargetsLength(c.methods, filter, isSubKind);
    PropertyTargetsLength(c.properties, filter, isSubKind);
    ConstantTargetsLength(c.constants, filter, isSubKind);
  }

  /** The declaration `d` is attached to `site` in class `c`. */
  ghost predicate DeclaredAt(c: Class, site: Site, d: Declaration)
  {
    match site
    case ClassSite(n) => n == c.name && d in c.attributes
    case MethodSite(mn) => exists m :: m in c.methods && m.name == mn && d in m.attributes
    case ParameterSite(mn, pn) =>
      exists m, p :: m in c.methods && p in m.parameters && m.name == mn && p.name == pn && d in p.attributes
    case PropertySite(pn) => exists p :: p in c.properties && p.name == pn && d in p.attributes
    case ConstantSite(kn) => exists k :: k in c.constants && k.name == kn && d in k.attributes
  }

  /** Every record names its site by the site's display name and holds a matching declaration made there. */
  ghost predicate Sound(c: Class, filter: Option<Kind>, isSubKind: (Kind, Kind) -> bool, ts: seq<AttributeTarget<Declaration>>)
  {
    forall t :: t in ts ==>
      t.name == DisplayName(t.target) && Matches(t.attribute, filter, isSubKind) && DeclaredAt(c, t.target, t.attribute)
  }

  lemma {:induction false} ParameterTargetsSound(c: Class, m: Method, ps: seq<Parameter>, filter: Option<Kind>, isSubKind: (Kind, Kind) -> bool)
    requires m in c.methods && forall p :: p in ps ==> p in m.parameters
    ensures Sound(c, filter, isSubKind, ParameterTargets(m.name, ps, filter, isSubKind))
  {
    if ps != [] {
      var p := ps[|ps| - 1];
      ParameterTargetsSound(c, m, ps[..|ps| - 1], filter, isSubKind);
      assert p in m.parameters;
    }
  }

  lemma {:induction false} MethodTargetsSound(c: Class, ms: seq<Method>, filter: Option<Kind>, isSubKind: (Kind, Kind) -> bool)
    requires forall m :: m in ms ==> m in c.methods
    ensures Sound(c, filter, isSubKind, MethodTargets(ms, filter, isSubKind))
  {
    if ms != [] {
      var m := ms[|ms| - 1];
      MethodTargetsSound(c, ms[..|ms| - 1], filter, isSubKind);
      assert m in c.methods;
      ParameterTargetsSound(c, m, m.parameters, filter, isSubKind);
    }
  }

  lemma SoundAppend(c: Class, filter: Option<Kind>, isSubKind: (Kind, Kind) -> bool, a: seq<AttributeTarget<Declaration>>, b: seq<AttributeTarget<Declaration>>)
    requires Sound(c, filter, isSubKind, a) && Sound(c, filter, isSubKind, b)
    ensures Sound(c, filter, isSubKind, a + b)
  {
    forall t | t in a + b
      ensures t.name == DisplayName(t.target) && Matches(t.attribute, filter, isSubKind) && DeclaredAt(c, t.target, t.attribute)
    {
      assert t in a || t in b;
    }
  }

  lemma {:induction false} PropertyTargetsSound(c: Class, ps: seq<Property>, filter: Option<Kind>, isSubKind: (Kind, Kind) -> bool)
    requires forall p :: p in ps ==> p in c.properties
    ensures Sound(c, filter, isSubKind, PropertyTargets(ps, filter, isSubKind))
  {
    if ps != [] {
      var p := ps[|ps| - 1];
      PropertyTargetsSound(c, ps[..|ps| - 1], filter, isSubKind);
      assert p in c.properties;
      var site := SiteTargets(Filter(p.attributes, filter, isSubKind), PropertySite(p.name), p.name);
      forall t | t in site
        ensures t.name == DisplayName(t.target) && Matches(t.attribute, filter, isSubKind) && DeclaredAt(c, t.target, t.attribute)
      {
        assert t.attribute in p.attributes;
      }
      SoundAppend(c, filter, isSubKind, PropertyTargets(ps[..|ps| - 1], filter, isSubKind), site);
    }
  }

  lemma {:induction false} ConstantTargetsSound(c: Class, ks: seq<Constant>, filter: Option<Kind>, isSubKind: (Kind, Kind) -> bool)
    requires forall k :: k in ks ==> k in c.constants
    ensures Sound(c, filter, isSubKind, ConstantTargets(ks, filter, isSubKind))
  {
    if ks != [] {
      var k := ks[|ks| - 1];
      ConstantTargetsSound(c, ks[..|ks| - 1], filter, isSubKind);
      assert k in c.constants;
      var site := SiteTargets(Filter(k.attributes, filter, isSubKind), ConstantSite(k.name), k.name);
      forall t | t in site
        ensures t.name == DisplayName(t.target) && Matches(t.attribute, filter, isSubKind) && DeclaredAt(c, t.target, t.attribute)
      {
        assert t.attribute in k.attributes;
      }
      SoundAppend(c, filter, isSubKind, ConstantTargets(ks[..|ks| - 1], filter, isSubKind), site);
    }
  }

  /**
   * Every `find` record carries a declaration of the class that passes the
   * filter, the site it was declared at, and that site's display name
   * (`<method>.<parameter>` for a parameter).
   */
  lemma LocateSound(c: Class, filter: Option<Kind>, isSubKind: (Kind, Kind) -> bool)
    ensures Sound(c, filter, isSubKind, Locate(c, filter, isSubKind))
  {
    MethodTargetsSound(c, c.methods, filter, isSubKind);
    PropertyTargetsSound(c, c.properties, filter, isSubKind);
    ConstantTargetsSound(c, c.constants, filter, isSubKind);
  }

  /** The records whose declaration is of the requested kind or a subkind of it, in order. */
  function Restrict(ts: seq<AttributeTarget<Declaration>>, kind: Kind, isSubKind: (Kind, Kind) -> bool): (r: seq<AttributeTarget<Declaration>>)
    ensures forall t :: t in r <==> t in ts && isSubKind(t.attribute.kind, kind)
  {
    if ts == [] then []
    else
      assert ts == [ts[0]] + ts[1..];
      (if isSubKind(ts[0].attribute.kind, kind) then [ts[0]] else []) + Restrict(ts[1..], kind, isSubKind)
  }

  lemma {:induction false} RestrictAppend(a: seq<AttributeTarget<Declaration>>, b: seq<AttributeTarget<Declaration>>, kind: Kind, isSubKind: (Kind, Kind) -> bool)
    ensures Restrict(a + b, kind, isSubKind) == Restrict(a, kind, isSubKind) + Restrict(b, kind, isSubKind)
  {
    if a == [] {
      assert a + b == b;
    } else {
      assert (a + b)[0] == a[0] && (a + b)[1..] == a[1..] + b;
      RestrictAppend(a[1..], b, kind, isSubKind);
      AppendAssociative(if isSubKind(a[0].attribute.kind, kind) then [a[0]] else [],
                        Restrict(a[1..], kind, isSubKind), Restrict(b, kind, isSubKind));
    }
  }

  /** On one site, restricting the unfiltered records by kind gives the filtered records. */
  lemma {:induction false} RestrictSite(ds: seq<Declaration>, site: Site, name: string, kind: Kind, isSubKind: (Kind, Kind) -> bool)
    ensures Restrict(SiteTargets(ds, site, name), kind, isSubKind) == SiteTargets(Filter(ds, Some(kind), isSubKind), site, name)
  {
    if ds != [] {
      var t := AttributeTarget(ds[0], site, name);
      assert SiteTargets(ds, site, name)[0] == t;
      assert SiteTargets(ds, site, name)[1..] == SiteTargets(ds[1..], site, name);
      RestrictSite(ds[1..], site, name, kind, isSubKind);
      if isSubKind(ds[0].kind, kind) {
        SiteTargetsAppend([ds[0]], Filter(ds[1..], Some(kind), isSubKind), site, name);
      }
    }
  }

  lemma RestrictUnfilteredSite(ds: seq<Declaration>, site: Site, name: string, kind: Kind, isSubKind: (Kind, Kind) -> bool)
    ensures Restrict(SiteTargets(Filter(ds, None, isSubKind), site, name), kind, isSubKind)
         == SiteTargets(Filter(ds, Some(kind), isSubKind), site, name)
  {
    FilterUnfiltered(ds, isSubKind);
    RestrictSite(ds, site, name, kind, isSubKind);
  }

  lemma {:induction false} ParameterTargetsRestrict(methodName: string, ps: seq<Parameter>, kind: Kind, isSubKind: (Kind, Kind) -> bool)
    ensures Restrict(ParameterTargets(methodName, ps, None, isSubKind), kind, isSubKind) == ParameterTargets(methodName, ps, Some(kind), isSubKind)
  {
    if ps != [] {
      var p := ps[|ps| - 1];
      ParameterTargetsRestrict(methodName, ps[..|ps| - 1], kind, isSubKind);
      RestrictAppend(ParameterTargets(methodName, ps[..|ps| - 1], None, isSubKind),
                     SiteTargets(Filter(p.attributes, None, isSubKind), ParameterSite(methodName, p.name), methodName + "." + p.name),
                     kind, isSubKind);
      RestrictUnfilteredSite(p.attributes, ParameterSite(methodName, p.name), methodName + "." + p.name, kind, isSubKind);
    }
  }

  lemma {:induction false} MethodTargetsRestrict(ms: seq<Method>, kind: Kind, isSubKind: (Kind, Kind) -> bool)
    ensures Restrict(MethodTargets(ms, None, isSubKind), kind, isSubKind) == MethodTargets(ms, Some(kind), isSubKind)
  {
    if ms != [] {
      var m := ms[|ms| - 1];
      var own := SiteTargets(Filter(m.attributes, None, isSubKind), MethodSite(m.name), m.name);
      MethodTargetsRestrict(ms[..|ms| - 1], kind, isSubKind);
      RestrictAppend(MethodTargets(ms[..|ms| - 1], None, isSubKind), TargetsOfMethod(m, None, isSubKind), kind, isSubKind);
      RestrictAppend(own, ParameterTargets(m.name, m.parameters, None, isSubKind), kind, isSubKind);
      RestrictUnfilteredSite(m.attributes, MethodSite(m.name), m.name, kind, isSubKind);
      ParameterTargetsRestrict(m.name, m.parameters, kind, isSubKind);
    }
  }

  lemma {:induction false} PropertyTargetsRestrict(ps: seq<Property>, kind: Kind, isSubKind: (Kind, Kind) -> bool)
    ensures Restrict(PropertyTargets(ps, None, isSubKind), kind, isSubKind) == PropertyTargets(ps, Some(kind), isSubKind)
  {
    if ps != [] {
      var p := ps[|ps| - 1];
      PropertyTargetsRestrict(ps[..|ps| - 1], kind, isSubKind);
      RestrictAppend(PropertyTargets(ps[..|ps| - 1], None, isSubKind),
                     SiteTargets(Filter(p.attributes, None, isSubKind), PropertySite(p.name), p.name), kind, isSubKind);
      RestrictUnfilteredSite(p.attributes, PropertySite(p.name), p.name, kind, isSubKind);
    }
  }

  lemma {:induction false} ConstantTargetsRestrict(ks: seq<Constant>, kind: Kind, isSubKind: (Kind, Kind) -> bool)
    ensures Restrict(ConstantTargets(ks, None, isSubKind), kind, isSubKind) == ConstantTargets(ks, Some(kind), isSubKind)
  {
    if ks != [] {
      var k := ks[|ks| - 1];
      ConstantTargetsRestrict(ks[..|ks| - 1], kind, isSubKind);
      RestrictAppend(ConstantTargets(ks[..|ks| - 1], None, isSubKind),
                     SiteTargets(Filter(k.attributes, None, isSubKind), ConstantSite(k.name), k.name), kind, isSubKind);
      RestrictUnfilteredSite(k.attributes, ConstantSite(k.name), k.name, kind, isSubKind);
    }
  }

  /**
   * A filtered `find` is the unfiltered `find` restricted to the records whose
   * declaration is of the requested kind or a subkind, with order preserved.
   */
  lemma LocateRestrict(c: Class, kind: Kind, isSubKind: (Kind, Kind) -> bool)
    ensures Locate(c, Some(kind), isSubKind) == Restrict(Locate(c, None, isSubKind), kind, isSubKind)
  {
    var ct, mt, pt, kt := ClassTargets(c, None, isSubKind), MethodTargets(c.methods, None, isSubKind),
                          PropertyTargets(c.properties, None, isSubKind), ConstantTargets(c.constants, None, isSubKind);
    RestrictAppend(ct + mt + pt, kt, kind, isSubKind);
    RestrictAppend(ct + mt, pt, kind, isSubKind);
    RestrictAppend(ct, mt, kind, isSubKind);
    RestrictUnfilteredSite(c.attributes, ClassSite(c.name), c.name, kind, isSubKind);
    MethodTargetsRestrict(c.methods, kind, isSubKind);
    PropertyTargetsRestrict(c.properties, kind, isSubKind);
    ConstantTargetsRestrict(c.constants, kind, isSubKind);
  }

  /** Each record of a filtered `find` is also a record of the unfiltered one, of a matching kind. */
  lemma LocateFilteredInUnfiltered(c: Class, kind: Kind, isSubKind: (Kind, Kind) -> bool, t: AttributeTarget<Declaration>)
    requires t in Locate(c, Some(kind), isSubKind)
    ensures t in Locate(c, None, isSubKind) && isSubKind(t.attribute.kind, kind)
  {
    LocateRestrict(c, kind, isSubKind);
  }

  /** When a filtered `find` is not empty, the unfiltered one materializes a declaration of that kind. */
  lemma UnfilteredCoversKind<I>(c: Class, kind: Kind, isSubKind: (Kind, Kind) -> bool, materialize: Declaration -> I)
    requires Locate(c, Some(kind), isSubKind) != []
    ensures exists d: Declaration :: isSubKind(d.kind, kind)
                     && exists t :: t in MaterializeTargets(Locate(c, None, isSubKind), materialize) && t.attribute == materialize(d)
  {
    var t := Locate(c, Some(kind), isSubKind)[0];
    LocateFilteredInUnfiltered(c, kind, isSubKind, t);
    var ts := Locate(c, None, isSubKind);
    var i :| 0 <= i < |ts| && ts[i] == t;
    assert MaterializeTargets(ts, materialize)[i].attribute == materialize(t.attribute);
  }

  lemma SiteTargetsContain(ds: seq<Declaration>, site: Site, name: string, d: Declaration)
    requires d in ds
    ensures AttributeTarget(d, site, name) in SiteTargets(ds, site, name)
  {
    var i :| 0 <= i < |ds| && ds[i] == d;
    assert SiteTargets(ds, site, name)[i] == AttributeTarget(d, site, name);
  }

  lemma {:induction false} ParameterTargetsContain(methodName: string, ps: seq<Parameter>, p: Parameter, d: Declaration,
                                                   filter: Option<Kind>, isSubKind: (Kind, Kind) -> bool)
    requires p in ps && d in p.attributes && Matches(d, filter, isSubKind)
    ensures AttributeTarget(d, ParameterSite(methodName, p.name), methodName + "." + p.name)
            in ParameterTargets(methodName, ps, filter, isSubKind)
  {
    var last := ps[|ps| - 1];
    if p == last {
      SiteTargetsContain(Filter(p.attributes, filter, isSubKind), ParameterSite(methodName, p.name), methodName + "." + p.name, d);
    } else {
      assert ps == ps[..|ps| - 1] + [last];
      ParameterTargetsContain(methodName, ps[..|ps| - 1], p, d, filter, isSubKind);
    }
  }

  lemma {:induction false} MethodTargetsContain(ms: seq<Method>, i: nat, t: AttributeTarget<Declaration>,
                                                filter: Option<Kind>, isSubKind: (Kind, Kind) -> bool)
    requires i < |ms| && t in TargetsOfMethod(ms[i], filter, isSubKind)
    ensures t in MethodTargets(ms, filter, isSubKind)
  {
    var init := ms[..|ms| - 1];
    if i < |ms| - 1 {
      assert init[i] == ms[i];
      MethodTargetsContain(init, i, t, filter, isSubKind);
    }
  }

  lemma {:induction false} PropertyTargetsContain(ps: seq<Property>, p: Property, d: Declaration,
                                                  filter: Option<Kind>, isSubKind: (Kind, Kind) -> bool)
    requires p in ps && d in p.attributes && Matches(d, filter, isSubKind)
    ensures AttributeTarget(d, PropertySite(p.name), p.name) in PropertyTargets(ps, filter, isSubKind)
  {
    var last := ps[|ps| - 1];
    if p == last {
      SiteTargetsContain(Filter(p.attributes, filter, isSubKind), PropertySite(p.name), p.name, d);
    } else {
      assert ps == ps[..|ps| - 1] + [last];
      PropertyTargetsContain(ps[..|ps| - 1], p, d, filter, isSubKind);
    }
  }

  lemma {:induction false} ConstantTargetsContain(ks: seq<Constant>, k: Constant, d: Declaration,
                                                  filter: Option<Kind>, isSubKind: (Kind, Kind) -> bool)
    requires k in ks && d in k.attributes && Matches(d, filter, isSubKind)
    ensures AttributeTarget(d, ConstantSite(k.name), k.name) in ConstantTargets(ks, filter, isSubKind)
  {
    var last := ks[|ks| - 1];
    if k == last {
      SiteTargetsContain(Filter(k.attributes, filter, isSubKind), ConstantSite(k.name), k.name, d);
    } else {
      assert ks == ks[..|ks| - 1] + [last];
      ConstantTargetsContain(ks[..|ks| - 1], k, d, filter, isSubKind);
    }
  }

  /**
   * Every declaration of the class that passes the filter, at whatever site,
   * comes back as a record of that site under the site's display name; with
   * no filter, that is every declaration.
   */
  lemma LocateComplete(c: Class, filter: Option<Kind>, isSubKind: (Kind, Kind) -> bool, site: Site, d: Declaration)
    requires DeclaredAt(c, site, d) && Matches(d, filter, isSubKind)
    ensures AttributeTarget(d, site, DisplayName(site)) in Locate(c, filter, isSubKind)
  {
    var ct, mt, pt, kt := ClassTargets(c, filter, isSubKind), MethodTargets(c.methods, filter, isSubKind),
                          PropertyTargets(c.properties, filter, isSubKind), ConstantTargets(c.constants, filter, isSubKind);
    var t := AttributeTarget(d, site, DisplayName(site));
    match site
    case ClassSite(_) =>
      SiteTargetsContain(Filter(c.attributes, filter, isSubKind), site, c.name, d);
      assert t in ct;
    case MethodSite(mn) =>
      var m :| m in c.methods && m.name == mn && d in m.attributes;
      var i :| 0 <= i < |c.methods| && c.methods[i] == m;
      SiteTargetsContain(Filter(m.attributes, filter, isSubKind), site, m.name, d);
      MethodTargetsContain(c.methods, i, t, filter, isSubKind);
      assert t in mt;
    case ParameterSite(mn, pn) =>
      var m, p :| m in c.methods && p in m.parameters && m.name == mn && p.name == pn && d in p.attributes;
      var i :| 0 <= i < |c.methods| && c.methods[i] == m;
      ParameterTargetsContain(m.name, m.parameters, p, d, filter, isSubKind);
      MethodTargetsContain(c.methods, i, t, filter, isSubKind);
      assert t in mt;
    case PropertySite(pn) =>
      var p :| p in c.properties && p.name == pn && d in p.attributes;
      PropertyTargetsContain(c.properties, p, d, filter, isSubKind);
      assert t in pt;
    case ConstantSite(kn) =>
      var k :| k in c.constants && k.name == kn && d in k.attributes;
      ConstantTargetsContain(c.constants, k, d, filter, isSubKind);
      assert t in kt;
  }

  /** A class with no attribute declared anywhere, like the tests' plain class. */
  ghost predicate Plain(c: Class)
  {
    && c.attributes == []
    && (forall m :: m in c.methods ==> m.attributes == [] && forall p :: p in m.parameters ==> p.attributes == [])
    && (forall p :: p in c.properties ==> p.attributes == [])
    && (forall k :: k in c.constants ==> k.attributes == [])
  }

  /** On a plain class every lookup comes back null, false or empty, and `find` finds nothing. */
  lemma PlainClassFindsNothing<I>(c: Class, filter: Option<Kind>, kind: Kind, methodName: string, parameterName: string,
                                  isSubKind: (Kind, Kind) -> bool, materialize: Declaration -> I)
    requires Plain(c)
    ensures Locate(c, filter, isSubKind) == []
    ensures !Has(c, kind, isSubKind) && Get(c, kind, isSubKind, materialize) == None && GetAll(c, kind, isSubKind, materialize) == []
    ensures OnMethod(c, methodName, kind, isSubKind, materialize) == None
    ensures OnParameter(c, methodName, parameterName, kind, isSubKind, materialize) == None
  {
    LocateSound(c, filter, isSubKind);
    var ts := Locate(c, filter, isSubKind);
    if ts != [] {
      var t := ts[0];
      match t.target
      case ClassSite(_) => assert false;
      case MethodSite(_) => assert false;
      case ParameterSite(_, _) => assert false;
      case PropertySite(_) => assert false;
      case ConstantSite(_) => assert false;
    }
  }

  lemma MaterializeTargetsAppend<I>(a: seq<AttributeTarget<Declaration>>, b: seq<AttributeTarget<Declaration>>, materialize: Declaration -> I)
    ensures MaterializeTargets(a + b, materialize) == MaterializeTargets(a, materialize) + MaterializeTargets(b, materialize)
  {
    var l, r := MaterializeTargets(a + b, materialize), MaterializeTargets(a, materialize) + MaterializeTargets(b, materialize);
    forall i | 0 <= i < |l| ensures l[i] == r[i] {
      if i < |a| { assert (a + b)[i] == a[i]; } else { assert (a + b)[i] == b[i - |a|]; }
    }
  }

  lemma SiteTargetsAppend(a: seq<Declaration>, b: seq<Declaration>, site: Site, name: string)
    ensures SiteTargets(a + b, site, name) == SiteTargets(a, site, name) + SiteTargets(b, site, name)
  {
    var l, r := SiteTargets(a + b, site, name), SiteTargets(a, site, name) + SiteTargets(b, site, name);
    forall i | 0 <= i < |l| ensures l[i] == r[i] {
      if i < |a| { assert (a + b)[i] == a[i]; } else { assert (a + b)[i] == b[i - |a|]; }
    }
  }

  lemma CollectStep<I>(located: seq<AttributeTarget<Declaration>>, matched: seq<Declaration>, k: nat,
                        site: Site, name: string, materialize: Declaration -> I)
    requires k < |matched|
    ensures MaterializeTargets(located + SiteTargets(matched[..k + 1], site, name), materialize)
         == MaterializeTargets(located + SiteTargets(matched[..k], site, name), materialize)
          + [AttributeTarget(materialize(matched[k]), site, name)]
  {
    ghost var before := located + SiteTargets(matched[..k], site, name);
    ghost var t := AttributeTarget(matched[k], site, name);
    assert matched[..k + 1] == matched[..k] + [matched[k]];
    SiteTargetsAppend(matched[..k], [matched[k]], site, name);
    assert located + SiteTargets(matched[..k + 1], site, name) == before + [t];
    MaterializeTargetsAppend(before, [t], materialize);
  }

  /**
   * One `foreach ($site->getAttributes(...$args) as $attr)` loop of `find`:
   * appends a record for each matching declaration of the site.
   */
  method Collect<I>(results: seq<AttributeTarget<I>>, ghost located: seq<AttributeTarget<Declaration>>,
                    attributes: seq<Declaration>, filter: Option<Kind>, isSubKind: (Kind, Kind) -> bool,
                    site: Site, name: string, materialize: Declaration -> I)
    returns (out: seq<AttributeTarget<I>>)
    requires results == MaterializeTargets(located, materialize)
    ensures out == MaterializeTargets(located + SiteTargets(Filter(attributes, filter, isSubKind), site, name), materialize)
  {
    var matched := Filter(attributes, filter, isSubKind);
    out := results;
    for k := 0 to |matched|
      invariant out == MaterializeTargets(located + SiteTargets(matched[..k], site, name), materialize)
    {
      CollectStep(located, matched, k, site, name, materialize);
      out := out + [AttributeTarget(materialize(matched[k]), site, name)];
    }
    assert matched[..|matched|] == matched;
  }

  lemma AppendAssociative<T>(a: seq<T>, b: seq<T>, c: seq<T>)
    ensures (a + b) + c == a + (b + c)
  {
  }

  lemma ParameterTargetsStep(methodName: string, ps: seq<Parameter>, j: nat, filter: Option<Kind>, isSubKind: (Kind, Kind) -> bool)
    requires j < |ps|
    ensures ParameterTargets(methodName, ps[..j + 1], filter, isSubKind)
         == ParameterTargets(methodName, ps[..j], filter, isSubKind)
          + SiteTargets(Filter(ps[j].attributes, filter, isSubKind), ParameterSite(methodName, ps[j].name), methodName + "." + ps[j].name)
  {
    assert ps[..j + 1][..j] == ps[..j];
  }

  lemma MethodTargetsStep(ms: seq<Method>, i: nat, filter: Option<Kind>, isSubKind: (Kind, Kind) -> bool)
    requires i < |ms|
    ensures MethodTargets(ms[..i + 1], filter, isSubKind) == MethodTargets(ms[..i], filter, isSubKind) + TargetsOfMethod(ms[i], filter, isSubKind)
  {
    assert ms[..i + 1][..i] == ms[..i];
  }

  lemma PropertyTargetsStep(ps: seq<Property>, i: nat, filter: Option<Kind>, isSubKind: (Kind, Kind) -> bool)
    requires i < |ps|
    ensures PropertyTargets(ps[..i + 1], filter, isSubKind)
         == PropertyTargets(ps[..i], filter, isSubKind) + SiteTargets(Filter(ps[i].attributes, filter, isSubKind), PropertySite(ps[i].name), ps[i].name)
  {
    assert ps[..i + 1][..i] == ps[..i];
  }

  lemma ConstantTargetsStep(ks: seq<Constant>, i: nat, filter: Option<Kind>, isSubKind: (Kind, Kind) -> bool)
    requires i < |ks|
    ensures ConstantTargets(ks[..i + 1], filter, isSubKind)
         == ConstantTargets(ks[..i], filter, isSubKind) + SiteTargets(Filter(ks[i].attributes, filter, isSubKind), ConstantSite(ks[i].name), ks[i].name)
  {
    assert ks[..i + 1][..i] == ks[..i];
  }

  /** The body of `find`'s loop over methods: the method's own matches, then each parameter's. */
  method CollectMethod<I>(results: seq<AttributeTarget<I>>, ghost located: seq<AttributeTarget<Declaration>>,
                          m: Method, filter: Option<Kind>, isSubKind: (Kind, Kind) -> bool, materialize: Declaration -> I)
    returns (out: seq<AttributeTarget<I>>)
    requires results == MaterializeTargets(located, materialize)
    ensures out == MaterializeTargets(located + TargetsOfMethod(m, filter, isSubKind), materialize)
  {
    ghost var own := SiteTargets(Filter(m.attributes, filter, isSubKind), MethodSite(m.name), m.name);
    out := Collect(results, located, m.attributes, filter, isSubKind, MethodSite(m.name), m.name, materialize);
    ghost var done := located + own;
    assert done + ParameterTargets(m.name, m.parameters[..0], filter, isSubKind) == done;

    for j := 0 to |m.parameters|
      invariant out == MaterializeTargets(done, materialize)
      invariant done == (located + own) + ParameterTargets(m.name, m.parameters[..j], filter, isSubKind)
    {
      var p := m.parameters[j];
      var name := m.name + "." + p.name;
      ghost var step := SiteTargets(Filter(p.attributes, filter, isSubKind), ParameterSite(m.name, p.name), name);
      out := Collect(out, done, p.attributes, filter, isSubKind, ParameterSite(m.name, p.name), name, materialize);
      ParameterTargetsStep(m.name, m.parameters, j, filter, isSubKind);
      AppendAssociative(located + own, ParameterTargets(m.name, m.parameters[..j], filter, isSubKind), step);
      done := done + step;
    }
    assert m.parameters[..|m.parameters|] == m.parameters;
    AppendAssociative(located, own, ParameterTargets(m.name, m.parameters, filter, isSubKind));
  }

  /** `find`'s loop over the methods, in the order `getMethods()` lists them. */
  method CollectMethods<I>(results: seq<AttributeTarget<I>>, ghost located: seq<AttributeTarget<Declaration>>,
                           ms: seq<Method>, filter: Option<Kind>, isSubKind: (Kind, Kind) -> bool, materialize: Declaration -> I)
    returns (out: seq<AttributeTarget<I>>)
    requires results == MaterializeTargets(located, materialize)
    ensures out == MaterializeTargets(located + MethodTargets(ms, filter, isSubKind), materialize)
  {
    out := results;
    ghost var done := located;
    assert located + MethodTargets(ms[..0], filter, isSubKind) == located;
    for i := 0 to |ms|
      invariant out == MaterializeTargets(done, materialize)
      invariant done == located + MethodTargets(ms[..i], filter, isSubKind)
    {
      out := CollectMethod(out, done, ms[i], filter, isSubKind, materialize);
      MethodTargetsStep(ms, i, filter, isSubKind);
      AppendAssociative(located, MethodTargets(ms[..i], filter, isSubKind), TargetsOfMethod(ms[i], filter, isSubKind));
      done := done + TargetsOfMethod(ms[i], filter, isSubKind);
    }
    assert ms[..|ms|] == ms;
  }

  /** `find`'s loop over the properties. */
  method CollectProperties<I>(results: seq<AttributeTarget<I>>, ghost located: seq<AttributeTarget<Declaration>>,
                              ps: seq<Property>, filter: Option<Kind>, isSubKind: (Kind, Kind) -> bool, materialize: Declaration -> I)
    returns (out: seq<AttributeTarget<I>>)
    requires results == MaterializeTargets(located, materialize)
    ensures out == MaterializeTargets(located + PropertyTargets(ps, filter, isSubKind), materialize)
  {
    out := results;
    ghost var done := located;
    assert located + PropertyTargets(ps[..0], filter, isSubKind) == located;
    for i := 0 to |ps|
      invariant out == MaterializeTargets(done, materialize)
      invariant done == located + PropertyTargets(ps[..i], filter, isSubKind)
    {
      var p := ps[i];
      ghost var step := SiteTargets(Filter(p.attributes, filter, isSubKind), PropertySite(p.name), p.name);
      out := Collect(out, done, p.attributes, filter, isSubKind, PropertySite(p.name), p.name, materialize);
      PropertyTargetsStep(ps, i, filter, isSubKind);
      AppendAssociative(located, PropertyTargets(ps[..i], filter, isSubKind), step);
      done := done + step;
    }
    assert ps[..|ps|] == ps;
  }

  /** `find`'s loop over the class constants. */
  method CollectConstants<I>(results: seq<AttributeTarget<I>>, ghost located: seq<AttributeTarget<Declaration>>,
                             ks: seq<Constant>, filter: Option<Kind>, isSubKind: (Kind, Kind) -> bool, materialize: Declaration -> I)
    returns (out: seq<AttributeTarget<I>>)
    requires results == MaterializeTargets(located, materialize)
    ensures out == MaterializeTargets(located + ConstantTargets(ks, filter, isSubKind), materialize)
  {
    out := results;
    ghost var done := located;
    assert located + ConstantTargets(ks[..0], filter, isSubKind) == located;
    for i := 0 to |ks|
      invariant out == MaterializeTargets(done, materialize)
      invariant done == located + ConstantTargets(ks[..i], filter, isSubKind)
    {
      var k := ks[i];
      ghost var step := SiteTargets(Filter(k.attributes, filter, isSubKind), ConstantSite(k.name), k.name);
      out := Collect(out, done, k.attributes, filter, isSubKind, ConstantSite(k.name), k.name, materialize);
      ConstantTargetsStep(ks, i, filter, isSubKind);
      AppendAssociative(located, ConstantTargets(ks[..i], filter, isSubKind), step);
      done := done + step;
    }
    assert ks[..|ks|] == ks;
  }

  /**
   * `find`: grows the result list site by site — the class, each method with
   * its parameters, each property, each constant — and returns it.
   */
  method Find<I>(c: Class, filter: Option<Kind>, isSubKind: (Kind, Kind) -> bool, materialize: Declaration -> I)
    returns (results: seq<AttributeTarget<I>>)
    ensures results == MaterializeTargets(Locate(c, filter, isSubKind), materialize)
  {
    ghost var located := ClassTargets(c, filter, isSubKind);
    results := Collect([], [], c.attributes, filter, isSubKind, ClassSite(c.name), c.name, materialize);
    assert [] + located == located;
    results := CollectMethods(results, located, c.methods, filter, isSubKind, materialize);
    located := located + MethodTargets(c.methods, filter, isSubKind);
    results := CollectProperties(results, located, c.properties, filter, isSubKind, materialize);
    located := located + PropertyTargets(c.properties, filter, isSubKind);
    results := CollectConstants(results, located, c.constants, filter, isSubKind, materialize);
  }
}
