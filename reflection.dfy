/**
 * A structural descriptor of a PHP class or function, as the reflection API
 * exposes it to the attribute reader: the attribute declarations at every
 * site, and the methods, properties and constants of a class in the order
 * `getMethods()`, `getProperties()` and `getReflectionConstants()` list them.
 */
module Reflection {
  import opened Wrappers

  /** An attribute class, by name. */
  type Kind = string

  /** A constant expression passed to an attribute's constructor. */
  datatype Value = Str(s: string) | Bool(b: bool) | Int(i: int)

  datatype Argument = Positional(value: Value) | Named(name: string, value: Value)

  /** One `#[Kind(arguments)]` declaration, as a ReflectionAttribute holds it before `newInstance()`. */
  datatype Declaration = Declaration(kind: Kind, arguments: seq<Argument>)

  datatype Parameter = Parameter(name: string, attributes: seq<Declaration>)

  datatype Method = Method(name: string, attributes: seq<Declaration>, parameters: seq<Parameter>)

  datatype Property = Property(name: string, attributes: seq<Declaration>)

  datatype Constant = Constant(name: string, attributes: seq<Declaration>)

  datatype Class = Class(
    name: string,
    attributes: seq<Declaration>,
    methods: seq<Method>,
    properties: seq<Property>,
    constants: seq<Constant>)

  /** A free function, as `new ReflectionFunction($name)` describes it. */
  datatype Function = Function(name: string, attributes: seq<Declaration>)

  /** `hasMethod` and `getMethod`: the method declared under that name, if any. */
  function MethodNamed(methods: seq<Method>, name: string): (r: Option<Method>)
    ensures r.None? <==> forall i :: 0 <= i < |methods| ==> methods[i].name != name
    ensures r.Some? ==> r.value in methods && r.value.name == name
  {
    if methods == [] then None
    else if methods[0].name == name then Some(methods[0])
    else MethodNamed(methods[1..], name)
  }

  /** `hasProperty` and `getProperty`. */
  function PropertyNamed(properties: seq<Property>, name: string): (r: Option<Property>)
    ensures r.None? <==> forall i :: 0 <= i < |properties| ==> properties[i].name != name
    ensures r.Some? ==> r.value in properties && r.value.name == name
  {
    if properties == [] then None
    else if properties[0].name == name then Some(properties[0])
    else PropertyNamed(properties[1..], name)
  }

  /** `hasConstant` and `getReflectionConstant`. */
  function ConstantNamed(constants: seq<Constant>, name: string): (r: Option<Constant>)
    ensures r.None? <==> forall i :: 0 <= i < |constants| ==> constants[i].name != name
    ensures r.Some? ==> r.value in constants && r.value.name == name
  {
    if constants == [] then None
    else if constants[0].name == name then Some(constants[0])
    else ConstantNamed(constants[1..], name)
  }

  /** The lookup finds the first member carrying the name, never a later one. */
  lemma {:induction false} MethodNamedFirst(methods: seq<Method>, name: string, i: nat)
    requires i < |methods| && methods[i].name == name
    requires forall j :: 0 <= j < i ==> methods[j].name != name
    ensures MethodNamed(methods, name) == Some(methods[i])
  {
    if i > 0 {
      MethodNamedFirst(methods[1..], name, i - 1);
    }
  }

  lemma {:induction false} PropertyNamedFirst(properties: seq<Property>, name: string, i: nat)
    requires i < |properties| && properties[i].name == name
    requires forall j :: 0 <= j < i ==> properties[j].name != name
    ensures PropertyNamed(properties, name) == Some(properties[i])
  {
    if i > 0 {
      PropertyNamedFirst(properties[1..], name, i - 1);
    }
  }

  lemma {:induction false} ConstantNamedFirst(constants: seq<Constant>, name: string, i: nat)
    requires i < |constants| && constants[i].name == name
    requires forall j :: 0 <= j < i ==> constants[j].name != name
    ensures ConstantNamed(constants, name) == Some(constants[i])
  {
    if i > 0 {
      ConstantNamedFirst(constants[1..], name, i - 1);
    }
  }
}
