# immutable-base: a verified model of `create`

`create(defaults, props)` in `immutable.js` generates a class of read-only
records. The class's property list is the caller's `props` followed by every own
key of `defaults` that the list lacks. Each instance holds exactly one
non-writable field per listed name. Updates go through `merge`, which builds a
new instance of the receiver's class, and through one `set<Name>` setter per
property.

The model has five modules:

- `Values` (values.dfy) models JavaScript values. It covers three things: whether `typeof` calls a value an `'object'`, the own enumerable properties that `Object.assign` copies, and reads of a missing key giving `undefined`. A value's own properties are all there is: inherited properties (such as `toString` on `Object.prototype`) and non-enumerable own properties are not modelled.
- `PropertyList` (property_list.dfy) models the loop in `create` that pushes the missing keys onto `props`. `AppendOwnKeys` is that loop and uses `IndexOf`. It is proved against the specification function `WithOwnKeys`, and `Missing` gives an independent reference definition of the keys that get appended.
- `Resolution` (resolution.dfy) models the constructor's argument handling. It covers the choice between the object form and the positional form, the rebinding of the captured defaults, the per-field value choice, and the loop that defines each field once. A name defined a second time with a different value throws a `TypeError`, as `Object.defineProperty` does for a non-writable, non-configurable property. The lemmas state what the constructor, `merge` and the setters produce.
- `Setters` (setters.dfy) models the setter-name derivation and the table of setters that the installation loop leaves on the prototype.
- `Immutable` (immutable.dfy) models the generated class itself, `ImmutableClass`. Its `props` is fixed. Its `defaults` is the captured variable that the constructor rebinds. Its `setters` are the prototype's setter table. The module also holds `Create`, `New` (the constructor), `Merge` and `CallSetter`. An `Instance` is an immutable value that pairs its class object with its fields, so a field cannot change after construction.

`Scenarios` (scenarios.dfy) holds client code for the situations that the repository's test file describes. Its results follow from the contracts above alone.

Behaviour the model makes explicit:

- **Object-form construction changes the defaults for later constructions.** It rebinds the class's captured `defaults` to the merged object (immutable.js:24). `merge` and every setter construct in the object form, so after `i.setAttr2(3)` a plain `new C()` has `attr2 == 3`. `Scenarios.SetterLeaksIntoDefaults` proves this.
- **Names that differ only in the case of their first letter share one setter.** For example, `"a"` and `"A"` both map to `setA`, and the later name wins (`Setters.CaseCollisionShadowsSetter`).
- **A caller-supplied `props` with a repeated name can make the constructor throw.** Positional arguments that give the two copies of the name different values cause the second `defineProperty` to throw (`Scenarios.RepeatedNameRejected`). The object form and the no-argument form never throw.
- **Arguments past the last property are ignored only while the call stays positional.** The form is decided from the whole argument list, so adding an argument after a single object turns that object into a positional value (`Resolution.ExtraArgumentCanSwitchForm`).

## Model

| member | source | states |
|---|---|---|
| PropertyList.WithOwnKeys | immutable.js:7-12 | the property list after the loop: each key, in order, is appended when the list built so far lacks it |
| PropertyList.IndexOf | immutable.js:11 | returns -1 exactly when the key is absent, and otherwise the first position holding the key |
| PropertyList.AppendOwnKeys | immutable.js:7-12 | the in-place push loop yields `WithOwnKeys(props, keys)`, the list the properties below describe |
| PropertyList.CallerPropsArePrefix | immutable.js:5-12 | the caller's `props` remain, unchanged, as a prefix of the property list |
| PropertyList.ListedNames | immutable.js:7-12 | a name is in the list if and only if it is one of the caller's names or an own key of the defaults |
| PropertyList.NoKeyListedTwice | immutable.js:11 | a key that is already listed is never pushed again, so a list with no repeats gains none |
| PropertyList.AppendsMissingKeysInOrder | immutable.js:7-12 | the list is `props` followed by exactly the absent keys, in key order |
| PropertyList.EveryDefaultListed | immutable.js:7-11 | every own key of `defaults` ends up in the property list |
| Resolution.IsObjectForm | immutable.js:23 | the call takes the object form exactly when it has one argument and `typeof` calls that argument an `'object'` |
| Resolution.ReboundDefaults | immutable.js:23-27 | the defaults after the form check: the old defaults overridden by the argument's own properties in the object form, unchanged otherwise |
| Resolution.FieldValue | immutable.js:31 | the value for position `i`: the argument at `i` when one was passed, otherwise the default of `props[i]`, and undefined when there is none |
| Resolution.Define | immutable.js:30-34 | defines the names left to right; a name already defined with a different value throws, as `Object.defineProperty` does on a non-writable, non-configurable property |
| Resolution.Construct | immutable.js:18-35 | the constructor's outcome: `Define` over the property list with the values chosen from the rebound defaults and the arguments of the form taken |
| Resolution.DefineProperties | immutable.js:30-34 | the field loop yields the left-to-right definition of each `props[i]` with the value chosen at line 31 |
| Resolution.DefineSucceedsUnlessClash | immutable.js:33 | defining succeeds if and only if no name gets two different values; on success the fields are exactly the names, each holding the value given at every one of its positions |
| Resolution.DefinedFields | immutable.js:30-34 | a successful definition holds exactly the listed names, each with the value given at every one of its positions |
| Resolution.NoClashIsDefined | immutable.js:33 | when no name is given two different values, defining never throws |
| Resolution.DistinctNamesNeverClash | immutable.js:30-34 | with distinct property names every construction succeeds |
| Resolution.NoArgumentsGiveDefaults | immutable.js:30-31 | with no arguments every field equals its default (undefined if none), and the defaults stay the same |
| Resolution.PositionalArguments | immutable.js:29-34 | positional form: field `props[i]` is `args[i]` when `i < args.length` and otherwise the default; it fails only on a clash; the defaults stay the same |
| Resolution.ExtraArgumentsIgnored | immutable.js:30-31 | positional arguments beyond `props.length` do not affect the fields |
| Resolution.ExtraArgumentCanSwitchForm | immutable.js:23-31 | `new C(o)` takes field `a` from `o`, while `new C(o, x)` stores `o` itself in `a` |
| Resolution.ObjectFormOverrides | immutable.js:23-33 | object form: each field is the argument's value where it has the key and otherwise the default; other keys of the argument never become fields; the defaults become the old defaults overridden by the argument; no failure |
| Resolution.ObjectFormPersists | immutable.js:24 | after an object-form construction, a construction with no arguments yields the same fields |
| Resolution.MergeArgument | immutable.js:38 | the argument `merge` passes is an object holding the receiver's keys and the partial's keys, so the constructor takes the object form |
| Resolution.MergeOverrides | immutable.js:37-39 | merge: each field equals the partial's value where it has the key and otherwise the receiver's value; the fields are exactly the properties; the defaults take in the receiver's fields and the partial |
| Resolution.MergeNothingCopies | immutable.js:38 | merging an empty partial reproduces the receiver's fields |
| Resolution.SingleKeyMerge | immutable.js:47 | `merge({[prop]: v})` changes only `prop`, to `v` |
| Values.Assign | immutable.js:24 | `Object.assign({}, target, source)`: the keys of both, each with the source's value where the source has it and the target's value otherwise |
| Setters.SetterName | immutable.js:44 | `"set"`, then the first character of the name upper-cased, then the rest of the name |
| Setters.SetterTable | immutable.js:43-49 | the setters on the prototype after the loop: for each name in order, its setter name is bound to it, replacing an earlier binding |
| Setters.UpperAscii | immutable.js:44 | upper-cases an ASCII lower-case letter and leaves every other character as it is |
| Setters.SetterNameParts | immutable.js:44 | the setter name is "set", then the upper-cased first character, then the rest of the name, so it is three characters longer than the property name; for the empty name it is just "set" |
| Setters.SetterNamesCollide | immutable.js:44 | two names share a setter name if and only if they are equal or differ only in the case of their first character |
| Setters.SetterForEveryProperty | immutable.js:43-49 | after the installation loop there is a setter for every property and no other |
| Setters.SetterSetsLastCollidingProperty | immutable.js:43-49 | a setter sets the last listed property that produces its name |
| Setters.SetterSetsItsProperty | immutable.js:43-48 | when no other property shares its setter name, a property's setter sets that property |
| Setters.CaseCollisionShadowsSetter | immutable.js:44-45 | properties "a" and "A" leave one setter, `setA`, and it sets "A" |
| Immutable.ImmutableClass.constructor | immutable.js:16 | a class over the given property list and defaults, with no setters yet |
| Immutable.ImmutableClass.InstallSetters | immutable.js:43-49 | the loop adds the setter table of the property list to the prototype |
| Immutable.ImmutableClass.New | immutable.js:18-35 | the defaults are rebound as the object form requires; the outcome is the constructed instance of this class, whose fields are exactly the properties, or the redefinition TypeError |
| Immutable.Create | immutable.js:5-53 | a fresh class whose property list is `WithOwnKeys(props, keys)` and lists every default's key, whose defaults are the given defaults, and whose prototype holds the setter table |
| Immutable.Merge | immutable.js:37-39 | a proper instance merges into a new instance of the same class object, with each field overridden by the partial; the class's defaults become the old defaults merged with the receiver's fields and the partial |
| Immutable.CallSetter | immutable.js:45-48 | calling a setter equals `merge({[prop]: v})` for the property it sets, which yields the receiver's fields with only that one changed, in the same class; a name with no setter is a TypeError and changes nothing |
| Scenarios.PositionalAndDefaults | test/immutable.test.js:20-32 | `new C(x, y)` gives `{attr1: x, attr2: y}` and `new C()` gives the defaults |
| Scenarios.SetterCopies | test/immutable.test.js:46-57 | `setAttr2(v)` returns an instance of the same class with only `attr2` changed, and the receiver keeps its fields |
| Scenarios.SetterLeaksIntoDefaults | immutable.js:24 | after a setter call, a no-argument construction returns the value that was set instead of the original default |
| Scenarios.RepeatedNameRejected | immutable.js:33 | with props `["a", "a"]`, `new C(1, 2)` throws on redefining "a" |

## Left out

- The `debug` logging calls (immutable.js:1, 8-10, 14, 19, 25, 32, 46) are left out. They have no effect on behaviour.
- Aliasing is not modelled. `create` pushes onto the caller's own `props` array and keeps it. It also reads the caller's `defaults` object by reference until the first object-form construction. The model treats both as values copied at `create`, so a caller who mutates either afterwards is not modelled.
- Property-name enumeration order is not modelled. `Object.getOwnPropertyNames` order (integer-like keys first) is taken as the given `ownKeys` sequence.
- Value equality is approximate. Values are compared by structure, which stands in for `SameValue`. The model does not capture object identity (two distinct objects with equal properties), `NaN`, or `+0`/`-0`.
- `typeof` is abstract. `Null` and `Object` are the values it calls `'object'`. `Date`, arrays and other object kinds are objects known only by their own enumerable properties.
- The partial passed to `merge` is a map of properties. A `null`, `undefined` or primitive partial, which `Object.assign` skips or spreads, is not modelled.
- Inherited and non-enumerable properties of the defaults object are not modelled. The read `defaults[props[i]]` (immutable.js:31) walks the prototype chain, so a property named `toString`, `valueOf` or `constructor` with no default gets the inherited `Object.prototype` member; the model gives it `undefined`. A non-enumerable own property of `defaults` is listed by `Object.getOwnPropertyNames` (immutable.js:7) but dropped by `Object.assign` at the first object-form construction (immutable.js:24); the model keeps it.
- Prototype lookup is reduced to the setter table. A property whose name shadows `merge`, `constructor` or a setter is not modelled.
- Hand-written subclasses, their transient fields, and `instanceof` are left out. "Same class" means the same class object. Any extra keys a subclass adds would be ignored keys in the object form.
- Writes to fields are not modelled, in either strict or non-strict mode. An instance is an immutable value, so no write can change a field.
- `extend`, `getImmutablePropertyNames`, function-valued defaults and a callable module export are not in immutable.js, which exports only `create`. They are not part of this model.
- Setters.UpperAscii: upper-cases only ASCII `a`-`z`. JavaScript's `toUpperCase` also maps other letters, and for some characters (such as `ß`) it returns more than one character.
- Immutable.Create: the `defaults = {}` and `props = []` default parameters are modelled by passing an empty map and an empty sequence.
