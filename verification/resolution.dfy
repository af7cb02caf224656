/** What the generated class's constructor does with its arguments: pick the
    object form or the positional form, choose a value per property, and define
    each property once as a read-only field. */
module Resolution {
  import opened Values
  import opened PropertyList

  /** `arguments.length === 1 && typeof arguments[0] === 'object'` */
  predicate IsObjectForm(args: seq<Value>) {
    |args| == 1 && TypeofIsObject(args[0])
  }

  /** The constructor's captured `defaults` after the argument check: the object
      form rebinds it to a fresh merge of the old defaults and the argument. */
  function ReboundDefaults(defaults: map<string, Value>, args: seq<Value>): map<string, Value> {
    if IsObjectForm(args) then Assign(defaults, OwnEnumerable(args[0])) else defaults
  }

  /** The arguments the field loop reads: none in the object form. */
  function BoundArguments(args: seq<Value>): seq<Value> {
    if IsObjectForm(args) then [] else args
  }

  /** The value chosen for position `i`: the argument at `i` if one was passed
      (even an explicit undefined), otherwise the default of that name. */
  function FieldValue(props: seq<string>, defaults: map<string, Value>, args: seq<Value>, i: nat): Value
    requires i < |props|
  {
    if i < |args| then args[i] else Lookup(defaults, props[i])
  }

  /** The value chosen for every position of `props`. */
  function FieldValues(props: seq<string>, defaults: map<string, Value>, args: seq<Value>): seq<Value> {
    seq(|props|, i requires 0 <= i < |props| => FieldValue(props, defaults, args, i))
  }

  /** The outcome of defining the fields: either the instance's fields, or the
      TypeError of `Object.defineProperty` on redefining a non-writable,
      non-configurable property with a different value. */
  datatype Construction = Built(fields: map<string, Value>) | CannotRedefine(name: string)

  /** Defining `names[i]` as `vals[i]` left to right, as the index loop does. */
  function Define(names: seq<string>, vals: seq<Value>): Construction
    requires |names| == |vals|
    decreases |names|
  {
    if names == [] then Built(map[])
    else
      var n := |names| - 1;
      match Define(names[..n], vals[..n])
      case CannotRedefine(x) => CannotRedefine(x)
      case Built(m) =>
        if names[n] in m && m[names[n]] != vals[n] then CannotRedefine(names[n])
        else Built(m[names[n] := vals[n]])
  }

  /** Some name is defined twice with two different values. */
  ghost predicate Clash(names: seq<string>, vals: seq<Value>)
    requires |names| == |vals|
  {
    exists i, j :: 0 <= i < j < |names| && names[i] == names[j] && vals[i] != vals[j]
  }

  /** The constructor's fields for `args`, given the class's current defaults. */
  function Construct(props: seq<string>, defaults: map<string, Value>, args: seq<Value>): Construction {
    Define(props, FieldValues(props, ReboundDefaults(defaults, args), BoundArguments(args)))
  }

  /** The loop of the constructor: one `Object.defineProperty` per position. */
  method DefineProperties(props: seq<string>, defaults: map<string, Value>, args: seq<Value>)
    returns (r: Construction)
    ensures r == Define(props, FieldValues(props, defaults, args))
  {
    ghost var vals := FieldValues(props, defaults, args);
    var fields: map<string, Value> := map[];
    for i := 0 to |props|
      invariant Define(props[..i], vals[..i]) == Built(fields)
    {
      assert props[..i + 1][..i] == props[..i] && vals[..i + 1][..i] == vals[..i];
      var value := if i < |args| then args[i] else Lookup(defaults, props[i]);
      if props[i] in fields && fields[props[i]] != value {
        assert Define(props[..i + 1], vals[..i + 1]) == CannotRedefine(props[i]);
        assert props[..|props|] == props && vals[..|props|] == vals;
        PrefixFailureSticks(props, vals, i + 1);
        return CannotRedefine(props[i]);
      }
      fields := fields[props[i] := value];
    }
    assert props[..|props|] == props && vals[..|props|] == vals;
    r := Built(fields);
  }

  /** Once a prefix fails, the whole definition fails with the same error. */
  lemma {:induction false} PrefixFailureSticks(names: seq<string>, vals: seq<Value>, k: nat)
    requires |names| == |vals| && k <= |names|
    requires Define(names[..k], vals[..k]).CannotRedefine?
    ensures Define(names, vals) == Define(names[..k], vals[..k])
    decreases |names| - k
  {
    if k < |names| {
      assert names[..k + 1][..k] == names[..k] && vals[..k + 1][..k] == vals[..k];
      PrefixFailureSticks(names, vals, k + 1);
    } else {
      assert names[..k] == names && vals[..k] == vals;
    }
  }

  /** A successful definition holds exactly the listed names, each with the
      value given at every one of its positions. */
  lemma {:induction false} DefinedFields(names: seq<string>, vals: seq<Value>)
    requires |names| == |vals| && Define(names, vals).Built?
    ensures forall x :: x in Define(names, vals).fields <==> x in names
    ensures forall i :: 0 <= i < |names| ==> Define(names, vals).fields[names[i]] == vals[i]
    decreases |names|
  {
    if names != [] {
      var n := |names| - 1;
      var ns, vs := names[..n], vals[..n];
      assert Define(ns, vs).Built?;
      DefinedFields(ns, vs);
      assert names == ns + [names[n]];
      var m := Define(ns, vs).fields;
      forall i | 0 <= i < |names| ensures Define(names, vals).fields[names[i]] == vals[i] {
        if i < n && names[i] == names[n] {
          assert ns[i] == names[i] && m[ns[i]] == vs[i];
        } else if i < n {
          assert ns[i] == names[i] && m[ns[i]] == vs[i];
        }
      }
    }
  }

  /** Names that never get two different values are always defined. */
  lemma {:induction false} NoClashIsDefined(names: seq<string>, vals: seq<Value>)
    requires |names| == |vals| && !Clash(names, vals)
    ensures Define(names, vals).Built?
    decreases |names|
  {
    if names != [] {
      var n := |names| - 1;
      var ns, vs := names[..n], vals[..n];
      assert !Clash(ns, vs) by {
        forall i, j | 0 <= i < j < n && ns[i] == ns[j] ensures vs[i] == vs[j] {
          assert names[i] == names[j];
        }
      }
      NoClashIsDefined(ns, vs);
      DefinedFields(ns, vs);
      var m := Define(ns, vs).fields;
      if names[n] in m {
        var i :| 0 <= i < n && ns[i] == names[n];
        assert names[i] == names[n] && m[names[n]] == vals[i];
      }
    }
  }

  /** Definition succeeds exactly when no name gets two different values; then
      every listed name is a field holding the value given at each of its
      positions, and nothing else is a field. */
  lemma DefineSucceedsUnlessClash(names: seq<string>, vals: seq<Value>)
    requires |names| == |vals|
    ensures Define(names, vals).Built? <==> !Clash(names, vals)
    ensures Define(names, vals).Built? ==>
      (forall x :: x in Define(names, vals).fields <==> x in names) &&
      (forall i :: 0 <= i < |names| ==> Define(names, vals).fields[names[i]] == vals[i])
  {
    if Define(names, vals).Built? {
      DefinedFields(names, vals);
    } else if !Clash(names, vals) {
      NoClashIsDefined(names, vals);
    }
  }

  /** Names without repeats never clash, whatever the values. */
  lemma DistinctNamesNeverClash(names: seq<string>, vals: seq<Value>)
    requires |names| == |vals| && NoDuplicates(names)
    ensures Define(names, vals).Built?
  {
    DefineSucceedsUnlessClash(names, vals);
  }

  /** With no arguments every field holds its default, and the stored defaults
      stay as they are. */
  lemma NoArgumentsGiveDefaults(props: seq<string>, defaults: map<string, Value>)
    ensures ReboundDefaults(defaults, []) == defaults
    ensures Construct(props, defaults, []).Built?
    ensures forall p :: p in Construct(props, defaults, []).fields <==> p in props
    ensures forall p :: p in props ==> Construct(props, defaults, []).fields[p] == Lookup(defaults, p)
  {
    var vals := FieldValues(props, defaults, []);
    DefineSucceedsUnlessClash(props, vals);
  }

  /** Positional form: the field at position `i` holds `args[i]` when that many
      arguments were passed and the default otherwise; construction fails only
      when a repeated name is handed two different values. */
  lemma PositionalArguments(props: seq<string>, defaults: map<string, Value>, args: seq<Value>)
    requires !IsObjectForm(args)
    ensures ReboundDefaults(defaults, args) == defaults
    ensures Construct(props, defaults, args).Built? <==> !Clash(props, FieldValues(props, defaults, args))
    ensures NoDuplicates(props) ==> Construct(props, defaults, args).Built?
    ensures Construct(props, defaults, args).Built? ==>
      (forall p :: p in Construct(props, defaults, args).fields <==> p in props) &&
      (forall i :: 0 <= i < |props| ==>
        Construct(props, defaults, args).fields[props[i]] ==
          if i < |args| then args[i] else Lookup(defaults, props[i]))
  {
    DefineSucceedsUnlessClash(props, FieldValues(props, defaults, args));
  }

  /** Arguments past the last property are never read, as long as they do not
      turn a positional call into an object-form one. */
  lemma ExtraArgumentsIgnored(props: seq<string>, defaults: map<string, Value>, args: seq<Value>, extra: seq<Value>)
    requires |props| <= |args|
    requires !IsObjectForm(args) && !IsObjectForm(args + extra)
    ensures Construct(props, defaults, args + extra) == Construct(props, defaults, args)
  {
    assert FieldValues(props, defaults, args + extra) == FieldValues(props, defaults, args);
  }

  /** One extra argument after a single object makes the call positional: the
      object itself becomes the first field instead of supplying its properties. */
  lemma ExtraArgumentCanSwitchForm(own: map<string, Value>, x: Value)
    requires "a" in own
    ensures Construct(["a"], map[], [Object(own)]) == Built(map["a" := own["a"]])
    ensures Construct(["a"], map[], [Object(own), x]) == Built(map["a" := Object(own)])
  {
    ObjectFormOverrides(["a"], map[], Object(own));
    PositionalArguments(["a"], map[], [Object(own), x]);
  }

  /** Object form: a field takes the argument's property of that name when it
      has one and the stored default otherwise; the argument's other keys never
      become fields; the stored defaults become the defaults overridden by the
      argument. Object-form construction never fails. */
  lemma ObjectFormOverrides(props: seq<string>, defaults: map<string, Value>, o: Value)
    requires TypeofIsObject(o)
    ensures ReboundDefaults(defaults, [o]) == Assign(defaults, OwnEnumerable(o))
    ensures Construct(props, defaults, [o]).Built?
    ensures forall p :: p in Construct(props, defaults, [o]).fields <==> p in props
    ensures forall p :: p in props ==>
      Construct(props, defaults, [o]).fields[p] ==
        if p in OwnEnumerable(o) then OwnEnumerable(o)[p] else Lookup(defaults, p)
  {
    var d := ReboundDefaults(defaults, [o]);
    var vals := FieldValues(props, d, []);
    assert vals == FieldValues(props, d, BoundArguments([o]));
    DefineSucceedsUnlessClash(props, vals);
  }

  /** After an object-form construction, a construction with no arguments
      returns the same fields: the overrides have become the class's defaults. */
  lemma ObjectFormPersists(props: seq<string>, defaults: map<string, Value>, o: Value)
    requires TypeofIsObject(o)
    ensures Construct(props, ReboundDefaults(defaults, [o]), []) == Construct(props, defaults, [o])
  {
    assert FieldValues(props, ReboundDefaults(defaults, [o]), []) ==
           FieldValues(props, ReboundDefaults(defaults, [o]), BoundArguments([o]));
  }

  /** The object that `merge` hands to the constructor:
      `Object.assign({}, this, partial)`. */
  function MergeArgument(fields: map<string, Value>, partial: map<string, Value>): (arg: Value)
    ensures TypeofIsObject(arg)
    ensures OwnEnumerable(arg).Keys == fields.Keys + partial.Keys
  {
    Object(Assign(fields, partial))
  }

  /** `merge`: every property the receiver holds is copied, then overridden by
      `partial` where it has that key; the class defaults take in both. */
  lemma MergeOverrides(props: seq<string>, defaults: map<string, Value>,
                       fields: map<string, Value>, partial: map<string, Value>)
    requires forall p :: p in props ==> p in fields
    ensures ReboundDefaults(defaults, [MergeArgument(fields, partial)]) == defaults + fields + partial
    ensures Construct(props, defaults, [MergeArgument(fields, partial)]).Built?
    ensures forall p :: p in Construct(props, defaults, [MergeArgument(fields, partial)]).fields <==> p in props
    ensures forall p :: p in props ==>
      Construct(props, defaults, [MergeArgument(fields, partial)]).fields[p] ==
        if p in partial then partial[p] else fields[p]
  {
    ObjectFormOverrides(props, defaults, MergeArgument(fields, partial));
  }

  /** Merging nothing copies an instance's fields. */
  lemma MergeNothingCopies(props: seq<string>, defaults: map<string, Value>, fields: map<string, Value>)
    requires forall p :: p in fields <==> p in props
    ensures Construct(props, defaults, [MergeArgument(fields, map[])]) == Built(fields)
  {
    MergeOverrides(props, defaults, fields, map[]);
  }

  /** A setter merges a single key: that property takes the new value and every
      other property keeps the receiver's. */
  lemma SingleKeyMerge(props: seq<string>, defaults: map<string, Value>,
                       fields: map<string, Value>, prop: string, v: Value)
    requires prop in props
    requires forall p :: p in fields <==> p in props
    ensures Construct(props, defaults, [MergeArgument(fields, map[prop := v])]) == Built(fields[prop := v])
  {
    MergeOverrides(props, defaults, fields, map[prop := v]);
  }
}
