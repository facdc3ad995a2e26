# php-attribute-reader in Dafny

A model of the lookup engine of spatie/php-attribute-reader. The engine is the
static `Attributes` facade, which reads PHP 8 attributes through reflection. It
also covers the `AttributeTarget` record that `find` returns.

The reflection of a class becomes plain data (`reflection.dfy`):

- a class has a name, its class-level attribute declarations, and ordered
  sequences of methods, properties and constants;
- a method has a name, attribute declarations and ordered parameters;
- a function has attribute declarations;
- a declaration is an attribute kind (its class name) with its arguments.

Two things PHP's engine decides are parameters of every operation:

- `isSubKind(actual, requested)` is the relation behind
  `ReflectionAttribute::IS_INSTANCEOF`;
- `materialize(declaration)` stands for `newInstance()`.

Modules:

- `Wrappers`: `Option`, standing for PHP's nullable results.
- `Reflection`: the descriptor, plus the engine's member lookups
  (`hasMethod`/`getMethod` and the property and constant equivalents).
- `Targets`: the site tag and display name that replace the live reflection
  handle in `AttributeTarget`.
- `Attributes`: `src/Attributes.php`.
  - The pure lookups are functions: `get`, `has`, `getAll`, `onMethod`,
    `onProperty`, `onConstant`, `onParameter`, `onFunction`, `firstFrom` and
    `instantiateAll`.
  - `findParameter` is a method with a loop and an early return.
  - `find` is a method with loops that grow the result sequence.
  - `find` is proved equal to `MaterializeTargets(Locate(...))`. `Locate` is a
    recursive definition of what `find` visits, and the ordering, counting,
    naming, soundness, completeness and restriction properties are proved
    about it.
- `Fixture`: the test class of `tests/Fixtures/TestClass.php`, with the
  outcomes `tests/AttributesTest.php` expects of it. It uses an exact-class
  subkind relation and an instance that records its class and arguments.

## Model

| member | source | states |
|---|---|---|
| Reflection.MethodNamed | src/Attributes.php:55-59 | `hasMethod` fails exactly when no method has the name; `getMethod` returns a declared method of that name |
| Reflection.MethodNamedFirst | src/Attributes.php:55-59 | the method found is the first one declared under that name |
| Reflection.PropertyNamed | src/Attributes.php:73-77 | `hasProperty` fails exactly when no property has the name; otherwise a declared property of that name is returned |
| Reflection.PropertyNamedFirst | src/Attributes.php:73-77 | the property found is the first one declared under that name |
| Reflection.ConstantNamed | src/Attributes.php:91-95 | `hasConstant` fails exactly when no constant has the name; otherwise a declared constant of that name is returned |
| Reflection.ConstantNamedFirst | src/Attributes.php:91-95 | the constant found is the first one declared under that name |
| Attributes.Filter | src/Attributes.php:20 | `getAttributes($kind, IS_INSTANCEOF)` keeps exactly the declarations whose kind is the requested kind or a subkind; its length is the number of matches |
| Attributes.FilterAppend | src/Attributes.php:138 | filtering keeps declaration order: the filter of a concatenation is the concatenation of the filters |
| Attributes.FilterFirst | src/Attributes.php:179-186 | the head of the filtered list is the first matching declaration, not a later one |
| Attributes.FilterUnfiltered | src/Attributes.php:138 | `getAttributes()` with no arguments returns every declaration |
| Attributes.FilterEmpty | src/Attributes.php:27-30 | the filtered list is empty exactly when no declaration matches |
| Attributes.InstantiateAll | src/Attributes.php:192-195 | `instantiateAll` gives one instance per declaration: same length, and element i is the instance of declaration i |
| Attributes.InstantiateAllAppend | src/Attributes.php:192-195 | `instantiateAll` keeps order across a concatenation |
| Attributes.FirstFrom | src/Attributes.php:179-186 | `firstFrom` is null exactly when `instantiateAll` of the same list is empty, otherwise its first element |
| Attributes.Get | src/Attributes.php:18-21 | `get` is non-null exactly when some class-level declaration matches the kind |
| Attributes.GetFirstMatch | src/Attributes.php:18-21 | `get` returns the instance of the first matching class-level declaration |
| Attributes.Has | src/Attributes.php:27-30 | `has` is true exactly when some class-level declaration matches; it takes no materializer, so it instantiates nothing |
| Attributes.GetAll | src/Attributes.php:39-42 | `getAll` has one element per matching declaration, each element is the instance of a matching declaration, and every match is instantiated |
| Attributes.GetAllInOrder | src/Attributes.php:39-42 | `getAll` keeps declaration order: splitting the declarations splits the result the same way |
| Attributes.HasAgreesWithGetAndGetAll | src/Attributes.php:18-42 | `has` iff `getAll` is non-empty iff `get` is non-null |
| Attributes.GetIsHeadOfGetAll | src/Attributes.php:18-42 | `get` is null when `getAll` is empty and is `getAll[0]` otherwise |
| Attributes.InstanceofCovariance | src/Attributes.php:20 | with IS_INSTANCEOF, a query for a parent kind finds a child-kind declaration, and a query for the child kind finds the same one |
| Attributes.OnMethod | src/Attributes.php:51-60 | null whenever the method is not declared, whatever the kind; non-null exactly when the method exists and one of its declarations matches |
| Attributes.OnMethodFirstMatch | src/Attributes.php:51-60 | `onMethod` returns the instance of the first match on the first method of that name |
| Attributes.OnProperty | src/Attributes.php:69-78 | null whenever the property is not declared; non-null exactly when it exists and one of its declarations matches |
| Attributes.OnConstant | src/Attributes.php:87-96 | null whenever the constant is not declared; non-null exactly when it exists and one of its declarations matches |
| Attributes.OnPropertyFirstMatch | src/Attributes.php:69-78 | `onProperty` returns the instance of the first match on the first property of that name |
| Attributes.OnConstantFirstMatch | src/Attributes.php:87-96 | `onConstant` returns the instance of the first match on the first constant of that name |
| Attributes.ParameterNamed | src/Attributes.php:197-206 | the search fails exactly when no parameter has the name; otherwise it finds a parameter of that name |
| Attributes.ParameterNamedFirst | src/Attributes.php:197-206 | the search returns the first parameter, in declaration order, with that name |
| Attributes.FindParameter | src/Attributes.php:197-206 | the loop with early return fails exactly when no parameter has the name, and its result is the first parameter of that name |
| Attributes.OnParameter | src/Attributes.php:105-114 | null when the method is absent; null when the method has no parameter of that name; otherwise non-null exactly when one of that parameter's declarations matches |
| Attributes.OnParameterFirstMatch | src/Attributes.php:105-114 | `onParameter` returns the first match on the first parameter of that name, on the first method of that name |
| Attributes.OnFunction | src/Attributes.php:122-125 | `onFunction` is non-null exactly when one of the function's declarations matches |
| Attributes.OnFunctionFirstMatch | src/Attributes.php:122-125 | `onFunction` returns the instance of the function's first matching declaration |
| Attributes.SiteTargets | src/Attributes.php:140-142 | one record per declaration of a site, in order, each carrying that site and its display name |
| Attributes.SiteTargetsAppend | src/Attributes.php:140-142 | the records of a concatenation are the concatenation of the records |
| Attributes.MaterializeTargets | src/Attributes.php:141-164 | each record's declaration is instantiated while its site and name are kept, with length and order unchanged |
| Attributes.MaterializeTargetsAppend | src/Attributes.php:141-164 | instantiating records keeps order across a concatenation |
| Attributes.CountMatchingUnfiltered | src/Attributes.php:138 | with no filter, every declaration counts as a match |
| Attributes.ParameterTargetsLength | src/Attributes.php:149-153 | the parameter records of a method number exactly the matches on its parameters |
| Attributes.MethodTargetsLength | src/Attributes.php:144-154 | the method records number exactly the matches on methods and their parameters |
| Attributes.PropertyTargetsLength | src/Attributes.php:156-160 | the property records number exactly the matches on properties |
| Attributes.ConstantTargetsLength | src/Attributes.php:162-166 | the constant records number exactly the matches on constants |
| Attributes.LocateLength | src/Attributes.php:134-169 | `find` returns exactly as many records as there are matches over all sites |
| Attributes.SoundAppend | src/Attributes.php:137-168 | appending two lists of well-formed records gives a list of well-formed records |
| Attributes.ParameterTargetsSound | src/Attributes.php:149-153 | every parameter record names a matching declaration of that parameter, and its name is `method.parameter` |
| Attributes.MethodTargetsSound | src/Attributes.php:144-154 | every method or parameter record names a matching declaration at its site, with the site's display name |
| Attributes.PropertyTargetsSound | src/Attributes.php:156-160 | every property record names a matching declaration of that property, with its name |
| Attributes.ConstantTargetsSound | src/Attributes.php:162-166 | every constant record names a matching declaration of that constant, with its name |
| Attributes.LocateSound | src/Attributes.php:134-169 | every `find` record holds a declaration that matches the filter and is declared at the record's site; its name is the class, method, property or constant name, or `method.parameter` |
| Attributes.SiteTargetsContain | src/Attributes.php:140-142 | every declaration of a site has its record |
| Attributes.ParameterTargetsContain | src/Attributes.php:149-153 | every matching declaration on a parameter has its `method.parameter` record |
| Attributes.MethodTargetsContain | src/Attributes.php:144-154 | every matching declaration on a method or on one of its parameters has its record |
| Attributes.PropertyTargetsContain | src/Attributes.php:156-160 | every matching declaration on a property has its record |
| Attributes.ConstantTargetsContain | src/Attributes.php:162-166 | every matching declaration on a constant has its record |
| Attributes.LocateComplete | src/Attributes.php:134-169 | every matching declaration anywhere in the class has its record in `find`, so nothing is skipped |
| Attributes.Restrict | src/Attributes.php:138 | restricting records to a kind keeps exactly those whose declaration is of that kind or a subkind |
| Attributes.RestrictAppend | src/Attributes.php:138 | restriction keeps order across a concatenation |
| Attributes.RestrictSite | src/Attributes.php:138 | restricting a site's records equals filtering its declarations first |
| Attributes.RestrictUnfilteredSite | src/Attributes.php:138 | restricting a site's unfiltered records equals its filtered records |
| Attributes.ParameterTargetsRestrict | src/Attributes.php:149-153 | for parameters, filtered records are the unfiltered records restricted to the kind |
| Attributes.MethodTargetsRestrict | src/Attributes.php:144-154 | for methods and parameters, filtered records are the unfiltered records restricted to the kind |
| Attributes.PropertyTargetsRestrict | src/Attributes.php:156-160 | for properties, filtered records are the unfiltered records restricted to the kind |
| Attributes.ConstantTargetsRestrict | src/Attributes.php:162-166 | for constants, filtered records are the unfiltered records restricted to the kind |
| Attributes.LocateRestrict | src/Attributes.php:138-166 | `find(C, K)` is `find(C, null)` restricted to records of kind K or a subkind, in the same order |
| Attributes.LocateFilteredInUnfiltered | src/Attributes.php:138 | each record of a filtered `find` is a record of the unfiltered one, of a matching kind |
| Attributes.UnfilteredCoversKind | src/Attributes.php:138-166 | if a filtered `find` is non-empty, the unfiltered `find` contains an instance of a declaration of that kind |
| Attributes.PlainClassFindsNothing | tests/AttributesTest.php:223-225 | on a class with no attributes, `find` is empty under any filter, `has` is false, `get` is null, `getAll` is empty, and `onMethod`/`onParameter` are null |
| Attributes.CollectStep | src/Attributes.php:140-142 | appending one instantiated record extends the instantiated prefix by one declaration |
| Attributes.Collect | src/Attributes.php:140-142 | one `foreach` over a site's filtered declarations appends exactly their instantiated records to the results |
| Attributes.ParameterTargetsStep | src/Attributes.php:149-153 | one more parameter appends exactly that parameter's records |
| Attributes.MethodTargetsStep | src/Attributes.php:144-154 | one more method appends exactly that method's records |
| Attributes.PropertyTargetsStep | src/Attributes.php:156-160 | one more property appends exactly that property's records |
| Attributes.ConstantTargetsStep | src/Attributes.php:162-166 | one more constant appends exactly that constant's records |
| Attributes.CollectMethod | src/Attributes.php:145-153 | one method's iteration appends its own records, then each parameter's in parameter order |
| Attributes.CollectMethods | src/Attributes.php:144-154 | the method loop appends the records of all methods, in order |
| Attributes.CollectProperties | src/Attributes.php:156-160 | the property loop appends the records of all properties, in order |
| Attributes.CollectConstants | src/Attributes.php:162-166 | the constant loop appends the records of all constants, in order |
| Attributes.Find | src/Attributes.php:134-169 | the result of `find` is the instantiation of class records, then each method's (its own, then each parameter's), then properties', then constants' |
| Fixture.ClassLookup | tests/AttributesTest.php:19-44 | on the test class, `get(SimpleAttribute)` is `test-class` and `has(SimpleAttribute)` is true |
| Fixture.RepeatedLookup | tests/AttributesTest.php:48-56 | `getAll(RepeatableAttribute)` on the test class is `first` then `second` |
| Fixture.MethodLookup | tests/AttributesTest.php:65-71 | `onMethod('handle', MethodAttribute)` has route `/handle` |
| Fixture.MethodLookupMisses | tests/AttributesTest.php:73-79 | `onMethod` is null for `plain`, which has no attribute, and for a missing method |
| Fixture.PropertyLookups | tests/AttributesTest.php:83-93 | `onProperty('name')` is fillable; a missing property gives null |
| Fixture.ConstantLookups | tests/AttributesTest.php:97-107 | `onConstant('STATUS_ACTIVE')` carries its description; a missing constant gives null |
| Fixture.ParameterLookup | tests/AttributesTest.php:111-117 | `onParameter('handle', 'request')` has type `request` |
| Fixture.ParameterLookupMisses | tests/AttributesTest.php:119-125 | `onParameter` is null for a missing parameter and for a missing method |
| Fixture.LocateTestClass | tests/Fixtures/TestClass.php:13-38 | under any filter, `find` on the test class visits its eleven declarations in class, method, parameter, property and constant order |
| Fixture.FindMultiTarget | tests/AttributesTest.php:161-172 | `find(MultiTargetAttribute)` is one record, `processor` on method `process` |
| Fixture.FindParameterAttribute | tests/AttributesTest.php:174-183 | `find(ParameterAttribute)` is `handle.request` then `handle.id`, with their parameter sites |
| Fixture.FindMethodAttribute | tests/AttributesTest.php:185-197 | `find(MethodAttribute)` is `handle` then `process`, each on its method site |
| Fixture.FindsEachClass | tests/AttributesTest.php:210-220 | each of the seven attribute classes used on the test class is found by a `find` filtered on it |
| Fixture.FindUnfilteredCount | tests/AttributesTest.php:203-208 | `find` without a filter returns eleven records |
| Fixture.FindUnfilteredClasses | tests/AttributesTest.php:210-220 | the unfiltered records include an instance of each of the seven attribute classes |

## Left out

- Resolving a class name or an object to its reflection (`reflect`, src/Attributes.php:171-174) is not modelled. The `ReflectionException` for an unknown class or function is left out too. The descriptor is an input, so it always exists. The tests that pass an object instead of a class name are covered by the class-name lemmas.
- The requested kind is assumed to name an existing attribute class. PHP's `getAttributes` with IS_INSTANCEOF throws when the name is not a loadable class, so `get`, `has`, `getAll`, a filtered `find` and every `on*` lookup that gets as far as `getAttributes` throw there. The model returns null, false or an empty list instead.
- `newInstance()` is the abstract `materialize`. Constructor argument binding, variadic arguments and any error the constructor throws are not modelled. They belong to the PHP engine and to the attribute classes.
- The subclass relation behind IS_INSTANCEOF is the abstract `isSubKind`. Inheritance between attribute classes is therefore a parameter. The fixture attribute classes extend no other attribute class, so `Fixture` uses class equality. Kinds in `Fixture` are the short class names.
- Which methods and properties the engine lists (inherited ones included) and their order are given sequences in the descriptor. PHP's case-insensitive method lookup is not modelled: `Reflection.MethodNamed` compares names exactly.
- `AttributeTarget::toArray` (src/AttributeTarget.php:21-24) is left out. It returns the attribute object's public properties, and objects are abstract here.
- The `TARGET_*` and `IS_REPEATABLE` flags of the attribute classes are left out. PHP enforces them when it instantiates an attribute, not this library.
- The live reflection handle in `AttributeTarget` is replaced by a site tag (class, method, parameter, property or constant) that carries the names needed to locate the declaration.
- The fixture classes `ChildTestClass`, `PlainClass` and the function `testFunction` are not part of this model. Their tests are covered by general lemmas instead: `Attributes.InstanceofCovariance` for the child class, `Attributes.PlainClassFindsNothing` for the plain class, and for `testFunction` both `Attributes.OnFunctionFirstMatch` (the instance found) and `Attributes.OnFunction` (null when nothing matches).
- The fixture attribute classes (tests/Fixtures/Attributes and tests/TestSupport/Attributes) are plain data holders. In `Fixture` each one is an instance recording its class and its named arguments.
- The source's single `find` method is split into `Find` and one helper method per loop (`Collect`, `CollectMethod`, `CollectMethods`, `CollectProperties`, `CollectConstants`). The loops and their order are unchanged.
