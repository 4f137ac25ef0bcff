/** PresetBuilder: the `psave` command that stores the device's current state as a preset. */
module PresetBuilders {
  import opened Wrappers
  import opened Numerics
  import opened Strings
  import opened Json

  /** The preset slots a save can address. */
  const MinPresetId: int := 1
  const MaxPresetId: int := 250

  /** A JObject held by reference: whoever holds it sees every later write. */
  class JsonObject {
    var props: Props

    constructor(props: Props)
      ensures this.props == props
    {
      this.props := props;
    }
  }

  /** What the two-argument constructor writes: psave clamped to a slot, then the name unless it is blank. */
  function PresetHeader(presetId: Int32, name: Option<string>): (r: Props)
    ensures Lookup(r, "psave") == Some(JInt(Clamp(presetId, MinPresetId, MaxPresetId)))
    ensures MinPresetId <= Clamp(presetId, MinPresetId, MaxPresetId) <= MaxPresetId
    ensures "n" in Keys(r) <==> !IsNullOrWhiteSpace(name)
    ensures !IsNullOrWhiteSpace(name) ==> Lookup(r, "n") == Some(JStr(name.value))
    ensures Keys(r) <= {"psave", "n"}
    ensures r[0] == ("psave", JInt(Clamp(presetId, MinPresetId, MaxPresetId)))
  {
    var saved := [("psave", JInt(Clamp(presetId, MinPresetId, MaxPresetId)))];
    KeysSingle("psave", JInt(Clamp(presetId, MinPresetId, MaxPresetId)));
    if !IsNullOrWhiteSpace(name) then
      PutAppends(saved, "n", JStr(name.value));
      PutKeys(saved, "n", JStr(name.value));
      Put(saved, "n", JStr(name.value))
    else saved
  }

  /** The header with an API command merged over it, as the three-argument constructor leaves it. */
  function PresetWithCommand(presetId: Int32, name: Option<string>, apiCommand: Props): (r: Props)
    ensures Keys(r) == Keys(PresetHeader(presetId, name)) + Keys(apiCommand)
  {
    MergeKeys(PresetHeader(presetId, name), apiCommand);
    MergeProps(PresetHeader(presetId, name), apiCommand)
  }

  /** A command that names no header key keeps the clamped slot and the name. */
  lemma CommandKeepsHeader(presetId: Int32, name: Option<string>, apiCommand: Props, k: string)
    requires k !in Keys(apiCommand)
    ensures Lookup(PresetWithCommand(presetId, name, apiCommand), k) == Lookup(PresetHeader(presetId, name), k)
  {
    MergeKeepsUnnamed(PresetHeader(presetId, name), apiCommand, k);
  }

  /**
   * The command is merged after the header, so a scalar `psave` or `n` in it
   * overrides the builder's own value (a `psave` outside 1..250 included).
   */
  lemma CommandOverridesHeader(presetId: Int32, name: Option<string>, apiCommand: Props, k: string, v: Json)
    requires UniqueKeys(apiCommand)
    requires Lookup(apiCommand, k) == Some(v) && (v.JInt? || v.JBool? || v.JStr?)
    ensures Lookup(PresetWithCommand(presetId, name, apiCommand), k) == Some(v)
  {
    MergeScalarWins(PresetHeader(presetId, name), apiCommand, k, v);
  }

  class PresetBuilder {
    /** The `_preset` object; Build hands out this very object. */
    const preset: JsonObject

    /** Every write keeps psave: the key is only ever added or overwritten. */
    ghost predicate Valid()
      reads this, preset
    {
      "psave" in Keys(preset.props)
    }

    /** `new PresetBuilder(presetId, name)`. */
    constructor(presetId: Int32, name: Option<string>)
      ensures fresh(preset)
      ensures preset.props == PresetHeader(presetId, name)
      ensures Valid()
    {
      preset := new JsonObject(PresetHeader(presetId, name));
    }

    /** `new PresetBuilder(presetId, name, apiCommand)`. */
    constructor WithCommand(presetId: Int32, name: Option<string>, apiCommand: Props)
      ensures fresh(preset)
      ensures preset.props == PresetWithCommand(presetId, name, apiCommand)
      ensures Valid()
    {
      preset := new JsonObject(PresetWithCommand(presetId, name, apiCommand));
    }

    /** `_preset[k] = v`: k takes v, every other property is left alone, no key disappears. */
    method Write(k: string, v: Json)
      modifies preset
      ensures preset.props == Put(old(preset.props), k, v)
      ensures Lookup(preset.props, k) == Some(v)
      ensures forall k' :: k' != k ==> Lookup(preset.props, k') == Lookup(old(preset.props), k')
      ensures Keys(preset.props) == Keys(old(preset.props)) + {k}
      ensures old(Valid()) ==> Valid()
    {
      PutKeys(preset.props, k, v);
      preset.props := Put(preset.props, k, v);
    }

    /** `IncludeBrightness(include)`: `ib`. */
    method IncludeBrightness(included: bool) returns (r: PresetBuilder)
      modifies preset
      ensures r == this
      ensures preset.props == Put(old(preset.props), "ib", JBool(included))
      ensures Keys(preset.props) == Keys(old(preset.props)) + {"ib"}
      ensures old(Valid()) ==> Valid()
    {
      Write("ib", JBool(included));
      r := this;
    }

    /** `IncludeSegments(save)`: `sb`. */
    method IncludeSegments(save: bool) returns (r: PresetBuilder)
      modifies preset
      ensures r == this
      ensures preset.props == Put(old(preset.props), "sb", JBool(save))
      ensures Keys(preset.props) == Keys(old(preset.props)) + {"sb"}
      ensures old(Valid()) ==> Valid()
    {
      Write("sb", JBool(save));
      r := this;
    }

    /** `CheckedSegmentsOnly(segmentsOnly)`: `sc`. */
    method CheckedSegmentsOnly(segmentsOnly: bool) returns (r: PresetBuilder)
      modifies preset
      ensures r == this
      ensures preset.props == Put(old(preset.props), "sc", JBool(segmentsOnly))
      ensures Keys(preset.props) == Keys(old(preset.props)) + {"sc"}
      ensures old(Valid()) ==> Valid()
    {
      Write("sc", JBool(segmentsOnly));
      r := this;
    }

    /** `QuickLoadLabel(label)`: `ql`, written as JSON null for a null label. */
    method QuickLoadLabel(labelText: Option<string>) returns (r: PresetBuilder)
      modifies preset
      ensures r == this
      ensures preset.props == Put(old(preset.props), "ql", LabelValue(labelText))
      ensures Keys(preset.props) == Keys(old(preset.props)) + {"ql"}
      ensures old(Valid()) ==> Valid()
    {
      Write("ql", LabelValue(labelText));
      r := this;
    }

    /** `Build()`: the builder's own object, not a copy. */
    method Build() returns (r: JsonObject)
      ensures r == preset
    {
      r := preset;
    }
  }

  /** The JSON value of a nullable label. */
  function LabelValue(labelText: Option<string>): (r: Json)
    ensures labelText.None? <==> r == JNull
    ensures labelText.Some? ==> r == JStr(labelText.value)
  {
    if labelText.Some? then JStr(labelText.value) else JNull
  }

  /**
   * An object taken from Build before a setter call sees that call: the
   * result is shared with the builder.
   */
  method BuildThenInclude(builder: PresetBuilder, included: bool) returns (built: JsonObject)
    modifies builder.preset
    ensures built == builder.preset
    ensures Lookup(built.props, "ib") == Some(JBool(included))
  {
    built := builder.Build();
    var _ := builder.IncludeBrightness(included);
  }
}
