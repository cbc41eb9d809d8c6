/** The two merge-patch documents the client sends to the etcd operator
    resource, as structured JSON, together with the exact byte text the
    client sends. A merge patch changes exactly the leaf paths it mentions,
    so the leaf paths of a body say which fields of the resource it touches. */
module EtcdPatch {
  import opened Errors

  datatype Json =
    | Null
    | Bool(b: bool)
    | Object(members: seq<Member>)

  datatype Member = Member(key: string, value: Json)

  /** The JSON text in the layout the client's literals use: `"key": value`
      members separated by ", " inside braces. */
  function Text(j: Json): string
    decreases j, 1
  {
    match j
    case Null => "null"
    case Bool(b) => if b then "true" else "false"
    case Object(ms) => "{" + MembersText(j, ms) + "}"
  }

  function MembersText(j: Json, ms: seq<Member>): string
    requires forall m :: m in ms ==> m.value < j
    decreases j, 0, |ms|
  {
    if ms == [] then ""
    else
      var first := "\"" + ms[0].key + "\": " + Text(ms[0].value);
      if |ms| == 1 then first else first + ", " + MembersText(j, ms[1..])
  }

  /** The value at `path`, following the first member with each key. */
  function Get(j: Json, path: seq<string>): Option<Json>
    decreases j
  {
    if path == [] then Some(j)
    else match j
      case Object(ms) =>
        var i := FirstWithKey(ms, path[0]);
        if i < |ms| then Get(ms[i].value, path[1..]) else None
      case _ => None
  }

  function FirstWithKey(ms: seq<Member>, key: string): (i: nat)
    ensures i <= |ms|
    ensures i < |ms| ==> ms[i].key == key
    ensures forall k :: 0 <= k < i ==> ms[k].key != key
  {
    if ms == [] then 0
    else if ms[0].key == key then 0
    else 1 + FirstWithKey(ms[1..], key)
  }

  /** The leaf paths of a patch: the paths of every null or scalar in it. */
  function Paths(j: Json): set<seq<string>>
    decreases j
  {
    match j
    case Null => {[]}
    case Bool(_) => {[]}
    case Object(ms) =>
      set i, p | 0 <= i < |ms| && p in Paths(ms[i].value) :: [ms[i].key] + p
  }

  function Single(key: string, value: Json): Json {
    Object([Member(key, value)])
  }

  const OverridesKey := "unsupportedConfigOverrides"
  const UnsafeFlagKey := "useUnsupportedUnsafeNonHANonProductionUnstableEtcd"
  const OverridesPath: seq<string> := ["spec", OverridesKey]
  const UnsafeFlagPath: seq<string> := ["spec", OverridesKey, UnsafeFlagKey]

  /** The enable body; `Text` gives
      `{"spec": {"unsupportedConfigOverrides": {"useUnsupportedUnsafeNonHANonProductionUnstableEtcd": true}}}`. */
  function EnableOverride(): Json {
    Single("spec", Single(OverridesKey, Single(UnsafeFlagKey, Bool(true))))
  }

  /** The disable body; `Text` gives `{"spec": {"unsupportedConfigOverrides": null}}`. */
  function DisableOverride(): Json {
    Single("spec", Single(OverridesKey, Null))
  }

  /** The byte text `PatchEtcd` sends,
      `{"spec": {"unsupportedConfigOverrides": {"useUnsupportedUnsafeNonHANonProductionUnstableEtcd": true}}}`,
      spelled with the two key constants. */
  const PatchData: string :=
    "{\"spec\": {\"" + OverridesKey + "\": {\"" + UnsafeFlagKey + "\": true}}}"

  /** The byte text `UnPatchEtcd` sends, `{"spec": {"unsupportedConfigOverrides": null}}`. */
  const UnPatchData: string := "{\"spec\": {\"" + OverridesKey + "\": null}}"

  lemma SingleText(key: string, value: Json)
    ensures Text(Single(key, value)) == "{\"" + key + "\": " + Text(value) + "}"
  {
    var j := Single(key, value);
    assert MembersText(j, j.members) == "\"" + key + "\": " + Text(value);
  }

  lemma SinglePaths(key: string, value: Json)
    ensures Paths(Single(key, value)) == set p | p in Paths(value) :: [key] + p
  {
    var ms := [Member(key, value)];
    var r := set p | p in Paths(value) :: [key] + p;
    forall q | q in Paths(Object(ms)) ensures q in r {
      var i, p :| 0 <= i < |ms| && p in Paths(ms[i].value) && q == [ms[i].key] + p;
    }
    forall p | p in Paths(value) ensures [key] + p in Paths(Object(ms)) {
      assert ms[0].value == value;
    }
  }

  lemma SingleGet(key: string, value: Json, path: seq<string>)
    ensures Get(Single(key, value), [key] + path) == Get(value, path)
  {
    assert ([key] + path)[1..] == path;
  }

  lemma NestedText(outer: string, inner: string, value: Json)
    ensures Text(Single(outer, Single(inner, value)))
         == "{\"" + outer + "\": {\"" + inner + "\": " + Text(value) + "}}"
  {
    SingleText(inner, value);
    SingleText(outer, Single(inner, value));
  }

  // FlagText and TextLayout take the keys and the inner text as parameters
  // pinned by their requires, not as literals: the solver then reasons
  // about the concatenation without unfolding the long string constants,
  // which it cannot do within its resource limit.
  lemma FlagText(spec: string, overrides: string, flag: string)
    requires spec == "spec" && overrides == OverridesKey && flag == UnsafeFlagKey
    ensures Text(Single(spec, Single(overrides, Single(flag, Bool(true))))) == PatchData
  {
    var leaf := Single(flag, Bool(true));
    NestedText(spec, overrides, leaf);
    SingleText(flag, Bool(true));
    var t := Text(leaf);
    assert t == "{\"" + UnsafeFlagKey + "\": " + "true" + "}";
    assert Text(Single(spec, Single(overrides, leaf)))
        == "{\"" + "spec" + "\": {\"" + OverridesKey + "\": " + t + "}}";
    TextLayout(t);
  }

  lemma TextLayout(t: string)
    requires t == "{\"" + UnsafeFlagKey + "\": " + "true" + "}"
    ensures "{\"" + "spec" + "\": {\"" + OverridesKey + "\": " + t + "}}" == PatchData
  {
    var head := "{\"spec\": {\"";
    var tail := "\": {\"" + UnsafeFlagKey + "\": true}}}";
    assert "{\"" + "spec" + "\": {\"" == head;
    assert "\": " + t + "}}" == tail by {
      assert "\": " + "{\"" == "\": {\"";
      assert "\": " + "true" + "}" + "}}" == "\": true}}}";
    }
    assert PatchData == head + OverridesKey + tail;
  }

  lemma EnableOverrideText()
    ensures Text(EnableOverride()) == PatchData
  {
    FlagText("spec", OverridesKey, UnsafeFlagKey);
  }

  lemma DisableOverrideText()
    ensures Text(DisableOverride()) == UnPatchData
  {
    NestedText("spec", OverridesKey, Null);
  }

  lemma EnableOverrideLeaves()
    ensures Get(EnableOverride(), UnsafeFlagPath) == Some(Bool(true))
    ensures Paths(EnableOverride()) == {UnsafeFlagPath}
  {
    var flag := Single(UnsafeFlagKey, Bool(true));
    var overrides := Single(OverridesKey, flag);
    SinglePaths(UnsafeFlagKey, Bool(true));
    SinglePaths(OverridesKey, flag);
    SinglePaths("spec", overrides);
    assert Paths(flag) == {[UnsafeFlagKey]} by {
      assert [UnsafeFlagKey] + [] == [UnsafeFlagKey];
    }
    assert Paths(overrides) == {[OverridesKey, UnsafeFlagKey]} by {
      assert [OverridesKey] + [UnsafeFlagKey] == [OverridesKey, UnsafeFlagKey];
    }
    assert ["spec"] + [OverridesKey, UnsafeFlagKey] == UnsafeFlagPath;
    SingleGet(UnsafeFlagKey, Bool(true), []);
    SingleGet(OverridesKey, flag, [UnsafeFlagKey]);
    SingleGet("spec", overrides, [OverridesKey, UnsafeFlagKey]);
    assert [UnsafeFlagKey] + [] == [UnsafeFlagKey];
    assert [OverridesKey] + [UnsafeFlagKey] == [OverridesKey, UnsafeFlagKey];
  }

  lemma DisableOverrideLeaves()
    ensures Get(DisableOverride(), OverridesPath) == Some(Null)
    ensures Paths(DisableOverride()) == {OverridesPath}
  {
    var overrides := Single(OverridesKey, Null);
    SinglePaths(OverridesKey, Null);
    SinglePaths("spec", overrides);
    assert Paths(overrides) == {[OverridesKey]} by {
      assert [OverridesKey] + [] == [OverridesKey];
    }
    assert ["spec"] + [OverridesKey] == OverridesPath;
    SingleGet(OverridesKey, Null, []);
    SingleGet("spec", overrides, [OverridesKey]);
    assert [OverridesKey] + [] == [OverridesKey];
  }

  /** The enable body is the text the client sends, sets the unsafe flag to
      true, and touches nothing but that flag. */
  lemma EnableOverrideIsPatchData()
    ensures Text(EnableOverride()) == PatchData
    ensures Get(EnableOverride(), UnsafeFlagPath) == Some(Bool(true))
    ensures Paths(EnableOverride()) == {UnsafeFlagPath}
  {
    EnableOverrideText();
    EnableOverrideLeaves();
  }

  /** The disable body is the text the client sends, sets the overrides map
      to null, and touches nothing but that map. */
  lemma DisableOverrideIsUnPatchData()
    ensures Text(DisableOverride()) == UnPatchData
    ensures Get(DisableOverride(), OverridesPath) == Some(Null)
    ensures Paths(DisableOverride()) == {OverridesPath}
  {
    DisableOverrideText();
    DisableOverrideLeaves();
  }

  /** Both bodies stay inside `spec.unsupportedConfigOverrides`: every field
      either patch touches lies under that path. */
  lemma PatchesStayInsideOverrides()
    ensures forall p :: p in Paths(EnableOverride()) ==> StartsWithPath(p, OverridesPath)
    ensures forall p :: p in Paths(DisableOverride()) ==> StartsWithPath(p, OverridesPath)
  {
    EnableOverrideIsPatchData();
    DisableOverrideIsUnPatchData();
    assert UnsafeFlagPath[..2] == OverridesPath;
  }

  predicate StartsWithPath(p: seq<string>, prefix: seq<string>) {
    |prefix| <= |p| && p[..|prefix|] == prefix
  }
}
