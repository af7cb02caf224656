/** The ordered property list that `create` builds: the caller's names, then the
    own keys of the defaults object that the list does not yet hold. */
module PropertyList {

  predicate NoDuplicates(s: seq<string>) {
    forall i, j :: 0 <= i < j < |s| ==> s[i] != s[j]
  }

  /** `keys` lists exactly the own property names of `defaults`, each once: what
      `Object.getOwnPropertyNames(defaults)` returns. */
  ghost predicate OwnKeysOf<V>(keys: seq<string>, defaults: map<string, V>) {
    NoDuplicates(keys) && forall k :: k in defaults <==> k in keys
  }

  /** The list after the loop has visited `keys` in order, pushing each key that
      `props.indexOf(key) < 0` reports missing. */
  function WithOwnKeys(props: seq<string>, keys: seq<string>): seq<string>
    decreases |keys|
  {
    if keys == [] then props
    else
      var front := WithOwnKeys(props, keys[..|keys| - 1]);
      var key := keys[|keys| - 1];
      if key in front then front else front + [key]
  }

  /** Reference definition: the keys that `props` lacks, in key order. */
  function Missing(props: seq<string>, keys: seq<string>): seq<string> {
    if keys == [] then []
    else (if keys[0] in props then [] else [keys[0]]) + Missing(props, keys[1..])
  }

  /** `Array.prototype.indexOf`: the first position of `key` in `s`, or -1. */
  method IndexOf(s: seq<string>, key: string) returns (r: int)
    ensures -1 <= r < |s|
    ensures r == -1 <==> key !in s
    ensures 0 <= r ==> s[r] == key && forall j :: 0 <= j < r ==> s[j] != key
  {
    r := 0;
    while r < |s|
      invariant 0 <= r <= |s|
      invariant forall j :: 0 <= j < r ==> s[j] != key
    {
      if s[r] == key {
        return;
      }
      r := r + 1;
    }
    r := -1;
  }

  /** The loop of `create` that grows the property list by an in-place push. */
  method AppendOwnKeys(props: seq<string>, keys: seq<string>) returns (merged: seq<string>)
    ensures merged == WithOwnKeys(props, keys)
  {
    merged := props;
    for i := 0 to |keys|
      invariant merged == WithOwnKeys(props, keys[..i])
    {
      var key := keys[i];
      assert keys[..i + 1][..i] == keys[..i];
      var at := IndexOf(merged, key);
      if at < 0 {
        merged := merged + [key];
      }
    }
    assert keys[..|keys|] == keys;
  }

  /** The caller's names stay in front, unchanged. */
  lemma {:induction false} CallerPropsArePrefix(props: seq<string>, keys: seq<string>)
    ensures |props| <= |WithOwnKeys(props, keys)|
    ensures WithOwnKeys(props, keys)[..|props|] == props
    decreases |keys|
  {
    if keys != [] {
      CallerPropsArePrefix(props, keys[..|keys| - 1]);
    }
  }

  /** A name is in the list exactly when it is a caller's name or a key. */
  lemma {:induction false} ListedNames(props: seq<string>, keys: seq<string>)
    ensures forall x :: x in WithOwnKeys(props, keys) <==> x in props || x in keys
    decreases |keys|
  {
    if keys != [] {
      var init := keys[..|keys| - 1];
      ListedNames(props, init);
      assert keys == init + [keys[|keys| - 1]];
    }
  }

  /** A key already listed is never pushed again, so a list that starts without
      repeats ends without repeats. */
  lemma {:induction false} NoKeyListedTwice(props: seq<string>, keys: seq<string>)
    requires NoDuplicates(props)
    ensures NoDuplicates(WithOwnKeys(props, keys))
    decreases |keys|
  {
    if keys != [] {
      NoKeyListedTwice(props, keys[..|keys| - 1]);
    }
  }

  lemma {:induction false} MissingSnoc(props: seq<string>, keys: seq<string>, key: string)
    ensures Missing(props, keys + [key]) == Missing(props, keys) + (if key in props then [] else [key])
    decreases |keys|
  {
    if keys == [] {
      assert [] + [key] == [key];
    } else {
      assert (keys + [key])[1..] == keys[1..] + [key];
      MissingSnoc(props, keys[1..], key);
    }
  }

  /** With distinct keys (as own property names are), the list is the caller's
      names followed by the absent keys in key order. */
  lemma {:induction false} AppendsMissingKeysInOrder(props: seq<string>, keys: seq<string>)
    requires NoDuplicates(keys)
    ensures WithOwnKeys(props, keys) == props + Missing(props, keys)
    decreases |keys|
  {
    if keys == [] {
      assert props + [] == props;
    } else {
      var init := keys[..|keys| - 1];
      var key := keys[|keys| - 1];
      assert keys == init + [key];
      AppendsMissingKeysInOrder(props, init);
      ListedNames(props, init);
      assert key !in init;
      MissingSnoc(props, init, key);
    }
  }

  /** Every own key of the defaults object ends up in the list. */
  lemma EveryDefaultListed<V>(props: seq<string>, keys: seq<string>, defaults: map<string, V>)
    requires OwnKeysOf(keys, defaults)
    ensures forall k :: k in defaults ==> k in WithOwnKeys(props, keys)
  {
    ListedNames(props, keys);
  }
}
