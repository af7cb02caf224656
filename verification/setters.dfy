/** The setter methods `create` installs on the generated class's prototype,
    one per listed property, named `set` + the capitalised property name. */
module Setters {

  /** `toUpperCase` on one character, for ASCII letters only. */
  function UpperAscii(c: char): (u: char)
    ensures 'a' <= c <= 'z' ==> 'A' <= u <= 'Z' && u as int == c as int - 32
    ensures !('a' <= c <= 'z') ==> u == c
  {
    if 'a' <= c <= 'z' then (c as int - 32) as char else c
  }

  /** `"set" + prop.slice(0, 1).toUpperCase() + prop.slice(1)`; slicing an empty
      name gives empty strings, so the empty name's setter is just "set". */
  function SetterName(prop: string): string {
    if prop == [] then "set" else "set" + [UpperAscii(prop[0])] + prop[1..]
  }

  /** The setter name is three characters longer than the property name: "set",
      then the upper-cased first character, then the rest of the name. */
  lemma SetterNameParts(prop: string)
    ensures |SetterName(prop)| == |prop| + 3
    ensures SetterName(prop)[..3] == "set"
    ensures |prop| > 0 ==> SetterName(prop)[3] == UpperAscii(prop[0]) && SetterName(prop)[4..] == prop[1..]
  {
  }

  /** Two names share a setter exactly when they are equal or differ only in the
      case of their first letter. */
  lemma SetterNamesCollide(a: string, b: string)
    ensures SetterName(a) == SetterName(b) <==>
      a == b || (|a| > 0 && |b| > 0 && UpperAscii(a[0]) == UpperAscii(b[0]) && a[1..] == b[1..])
  {
    SetterNameParts(a);
    SetterNameParts(b);
    if SetterName(a) == SetterName(b) && |a| > 0 {
      assert SetterName(a)[3] == SetterName(b)[3];
      assert SetterName(a)[4..] == SetterName(b)[4..];
    }
    if |a| > 0 && |b| > 0 && UpperAscii(a[0]) == UpperAscii(b[0]) && a[1..] == b[1..] {
      assert SetterName(a) == "set" + [UpperAscii(a[0])] + a[1..];
    }
  }

  /** The prototype's setters after the loop has installed one per name of
      `props`, in order: a later name whose setter name is taken replaces the
      earlier setter. Each entry maps a setter name to the property it sets. */
  function SetterTable(props: seq<string>): map<string, string>
    decreases |props|
  {
    if props == [] then map[]
    else
      var last := props[|props| - 1];
      SetterTable(props[..|props| - 1])[SetterName(last) := last]
  }

  /** There is a setter for every listed property, and no other setter. */
  lemma {:induction false} SetterForEveryProperty(props: seq<string>)
    ensures forall p :: p in props ==> SetterName(p) in SetterTable(props)
    ensures forall name :: name in SetterTable(props) ==> exists p :: p in props && SetterName(p) == name
    decreases |props|
  {
    if props != [] {
      var init := props[..|props| - 1];
      SetterForEveryProperty(init);
      assert props == init + [props[|props| - 1]];
    }
  }

  /** `props[k]` is the last listed property whose setter is called `name`. */
  ghost predicate LastWithSetter(props: seq<string>, name: string, k: int) {
    0 <= k < |props| && SetterName(props[k]) == name &&
    forall j :: k < j < |props| ==> SetterName(props[j]) != name
  }

  /** The setter of that name sets the LAST listed property that produces it. */
  lemma {:induction false} SetterSetsLastCollidingProperty(props: seq<string>, name: string)
    requires name in SetterTable(props)
    ensures exists k :: LastWithSetter(props, name, k) && SetterTable(props)[name] == props[k]
    decreases |props|
  {
    assert props != [];
    var n := |props| - 1;
    var init := props[..n];
    assert SetterTable(props) == SetterTable(init)[SetterName(props[n]) := props[n]];
    if SetterName(props[n]) == name {
      assert LastWithSetter(props, name, n);
    } else {
      SetterSetsLastCollidingProperty(init, name);
      var k :| LastWithSetter(init, name, k) && SetterTable(init)[name] == init[k];
      forall j | k < j < |props| ensures SetterName(props[j]) != name {
        if j < n {
          assert props[j] == init[j];
        }
      }
      assert LastWithSetter(props, name, k);
      assert SetterTable(props)[name] == props[k];
    }
  }

  /** When no other listed property shares its setter name, a property's setter
      sets that property. */
  lemma SetterSetsItsProperty(props: seq<string>, p: string)
    requires p in props
    requires forall q :: q in props && SetterName(q) == SetterName(p) ==> q == p
    ensures SetterName(p) in SetterTable(props) && SetterTable(props)[SetterName(p)] == p
  {
    SetterForEveryProperty(props);
    SetterSetsLastCollidingProperty(props, SetterName(p));
  }

  /** Properties "a" and "A" share the setter `setA`, which sets only "A": the
      property "a" is left without a setter of its own. */
  lemma CaseCollisionShadowsSetter()
    ensures SetterTable(["a", "A"]) == map["setA" := "A"]
  {
    assert ["a", "A"][..1] == ["a"];
    assert SetterName("a") == "setA";
    assert SetterName("A") == "setA";
  }
}
