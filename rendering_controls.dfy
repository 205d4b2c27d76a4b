/**
 * The rendering-controls panel: eight slider and checkbox handlers that
 * parse the input, check it against a bound, and on acceptance update
 * both the value the panel displays and one of three settings records
 * owned by the parent component.
 *
 * Parsing is not modelled: a handler receives the result of parsing the
 * input text, with `None` standing for NaN.
 */
module RenderingControls {
  import opened Wrappers

  /** A field value of a settings record: a number or a flag. */
  datatype Value = Number(n: real) | Flag(b: bool)

  /** A settings record, keyed by field name. */
  type Record = map<string, Value>

  /** The lower bound a handler checks a parsed number against. */
  datatype Bound = Above(low: real) | AtLeast(least: real) | Unbounded

  const LightBound: Bound := Above(0.0)
  const BloomBound: Bound := AtLeast(0.0)
  const ResolutionBound: Bound := AtLeast(0.5)
  /** Reflectivity, metalness and roughness are not range checked. */
  const MaterialBound: Bound := Unbounded
  /** Smallest shadow map size the shadow handler commits. */
  const MinShadowSize: int := 512

  predicate Admits(bound: Bound, x: real) {
    match bound
    case Above(low) => x > low
    case AtLeast(least) => x >= least
    case Unbounded => true
  }

  /** The value a handler commits, or `None` when it ignores the input. */
  function Validate(parsed: Option<real>, bound: Bound): (r: Option<real>)
    ensures r.Some? <==> parsed.Some? && Admits(bound, parsed.value)
    ensures r.Some? ==> r == parsed
  {
    if parsed.Some? && Admits(bound, parsed.value) then parsed else None
  }

  /** The shadow handler works on a parsed integer with a lower bound only. */
  function ValidateShadow(parsed: Option<int>): (r: Option<int>)
    ensures r.Some? <==> parsed.Some? && parsed.value >= MinShadowSize
    ensures r.Some? ==> r == parsed
  {
    if parsed.Some? && parsed.value >= MinShadowSize then parsed else None
  }

  /** Spreading the previous record and overriding one field. */
  function Merge(prev: Record, key: string, v: Value): (r: Record)
    ensures key in r && r[key] == v
    ensures r.Keys == prev.Keys + {key}
    ensures forall k :: k in prev && k != key ==> r[k] == prev[k]
  {
    prev[key := v]
  }

  /** The record the bloom handler installs, replacing the previous one. */
  function BloomRecord(intensity: real): (r: Record)
    ensures r.Keys == {"bloomIntensity"} && r["bloomIntensity"] == Number(intensity)
  {
    map["bloomIntensity" := Number(intensity)]
  }

  /** The parent's three settings records. */
  class Settings {
    var lighting: Record
    var bloom: Record
    var renderer: Record

    constructor (lighting: Record, bloom: Record, renderer: Record)
      ensures this.lighting == lighting && this.bloom == bloom && this.renderer == renderer
    {
      this.lighting := lighting;
      this.bloom := bloom;
      this.renderer := renderer;
    }
  }

  class Controls {
    var lightIntensity: real
    var bloomIntensity: real
    var shadowIntensity: int
    var resolution: real
    var reflectivity: real
    var metalness: real
    var roughness: real
    var antialiasing: bool
    const settings: Settings

    /**
     * Every field the panel writes that is present in the parent's
     * records holds the value the panel displays.
     */
    ghost predicate Agrees()
      reads this, settings
    {
      var l := settings.lighting;
      var r := settings.renderer;
      ("intensity" in l ==> l["intensity"] == Number(lightIntensity)) &&
      ("shadowSize" in l ==> l["shadowSize"] == Number(shadowIntensity as real)) &&
      ("reflectivity" in l ==> l["reflectivity"] == Number(reflectivity)) &&
      ("metalness" in l ==> l["metalness"] == Number(metalness)) &&
      ("roughness" in l ==> l["roughness"] == Number(roughness)) &&
      ("bloomIntensity" in settings.bloom ==> settings.bloom["bloomIntensity"] == Number(bloomIntensity)) &&
      ("resolution" in r ==> r["resolution"] == Number(resolution)) &&
      ("antialiasing" in r ==> r["antialiasing"] == Flag(antialiasing))
    }

    constructor (settings: Settings)
      ensures this.settings == settings
      ensures lightIntensity == 1.0 && bloomIntensity == 1.5 && shadowIntensity == 1024
      ensures resolution == 1.0 && reflectivity == 0.5 && metalness == 0.0
      ensures roughness == 0.5 && antialiasing
    {
      this.settings := settings;
      lightIntensity := 1.0;
      bloomIntensity := 1.5;
      shadowIntensity := 1024;
      resolution := 1.0;
      reflectivity := 0.5;
      metalness := 0.0;
      roughness := 0.5;
      antialiasing := true;
    }

    method HandleLightChange(parsed: Option<real>)
      modifies this`lightIntensity, settings`lighting
      ensures var v := Validate(parsed, LightBound);
        if v.Some? then
          lightIntensity == v.value &&
          settings.lighting == Merge(old(settings.lighting), "intensity", Number(v.value))
        else
          lightIntensity == old(lightIntensity) && settings.lighting == old(settings.lighting)
      ensures old(Agrees()) ==> Agrees()
    {
      var v := Validate(parsed, LightBound);
      if v.Some? {
        lightIntensity := v.value;
        settings.lighting := Merge(settings.lighting, "intensity", Number(v.value));
      }
    }

    method HandleBloomChange(parsed: Option<real>)
      modifies this`bloomIntensity, settings`bloom
      ensures var v := Validate(parsed, BloomBound);
        if v.Some? then
          bloomIntensity == v.value && settings.bloom == BloomRecord(v.value)
        else
          bloomIntensity == old(bloomIntensity) && settings.bloom == old(settings.bloom)
      ensures old(Agrees()) ==> Agrees()
    {
      var v := Validate(parsed, BloomBound);
      if v.Some? {
        bloomIntensity := v.value;
        settings.bloom := BloomRecord(v.value);
      }
    }

    method HandleShadowChange(parsed: Option<int>)
      modifies this`shadowIntensity, settings`lighting
      ensures var v := ValidateShadow(parsed);
        if v.Some? then
          shadowIntensity == v.value &&
          settings.lighting == Merge(old(settings.lighting), "shadowSize", Number(v.value as real))
        else
          shadowIntensity == old(shadowIntensity) && settings.lighting == old(settings.lighting)
      ensures old(Agrees()) ==> Agrees()
    {
      var v := ValidateShadow(parsed);
      if v.Some? {
        shadowIntensity := v.value;
        settings.lighting := Merge(settings.lighting, "shadowSize", Number(v.value as real));
      }
    }

    method HandleResolutionChange(parsed: Option<real>)
      modifies this`resolution, settings`renderer
      ensures var v := Validate(parsed, ResolutionBound);
        if v.Some? then
          resolution == v.value &&
          settings.renderer == Merge(old(settings.renderer), "resolution", Number(v.value))
        else
          resolution == old(resolution) && settings.renderer == old(settings.renderer)
      ensures old(Agrees()) ==> Agrees()
    {
      var v := Validate(parsed, ResolutionBound);
      if v.Some? {
        resolution := v.value;
        settings.renderer := Merge(settings.renderer, "resolution", Number(v.value));
      }
    }

    method HandleReflectivityChange(parsed: Option<real>)
      modifies this`reflectivity, settings`lighting
      ensures var v := Validate(parsed, MaterialBound);
        if v.Some? then
          reflectivity == v.value &&
          settings.lighting == Merge(old(settings.lighting), "reflectivity", Number(v.value))
        else
          reflectivity == old(reflectivity) && settings.lighting == old(settings.lighting)
      ensures old(Agrees()) ==> Agrees()
    {
      var v := Validate(parsed, MaterialBound);
      if v.Some? {
        reflectivity := v.value;
        settings.lighting := Merge(settings.lighting, "reflectivity", Number(v.value));
      }
    }

    method HandleMetalnessChange(parsed: Option<real>)
      modifies this`metalness, settings`lighting
      ensures var v := Validate(parsed, MaterialBound);
        if v.Some? then
          metalness == v.value &&
          settings.lighting == Merge(old(settings.lighting), "metalness", Number(v.value))
        else
          metalness == old(metalness) && settings.lighting == old(settings.lighting)
      ensures old(Agrees()) ==> Agrees()
    {
      var v := Validate(parsed, MaterialBound);
      if v.Some? {
        metalness := v.value;
        settings.lighting := Merge(settings.lighting, "metalness", Number(v.value));
      }
    }

    method HandleRoughnessChange(parsed: Option<real>)
      modifies this`roughness, settings`lighting
      ensures var v := Validate(parsed, MaterialBound);
        if v.Some? then
          roughness == v.value &&
          settings.lighting == Merge(old(settings.lighting), "roughness", Number(v.value))
        else
          roughness == old(roughness) && settings.lighting == old(settings.lighting)
      ensures old(Agrees()) ==> Agrees()
    {
      var v := Validate(parsed, MaterialBound);
      if v.Some? {
        roughness := v.value;
        settings.lighting := Merge(settings.lighting, "roughness", Number(v.value));
      }
    }

    method HandleAntialiasingChange(checked: bool)
      modifies this`antialiasing, settings`renderer
      ensures antialiasing == checked
      ensures settings.renderer == Merge(old(settings.renderer), "antialiasing", Flag(checked))
      ensures old(Agrees()) ==> Agrees()
    {
      antialiasing := checked;
      settings.renderer := Merge(settings.renderer, "antialiasing", Flag(checked));
    }
  }

  /**
   * Every position of the shadow slider (512 to 2048 in steps of 256) is
   * committed, and so is any larger size: the handler has no upper bound.
   */
  lemma ShadowHasNoUpperBound(n: int)
    requires n >= MinShadowSize
    ensures ValidateShadow(Some(n)) == Some(n)
    ensures forall k :: 0 <= k <= 6 ==> ValidateShadow(Some(MinShadowSize + 256 * k)).Some?
    ensures ValidateShadow(Some(3000)) == Some(3000)
    ensures ValidateShadow(Some(256)) == None && ValidateShadow(None) == None
  {
  }

  /**
   * Each numeric slider's positions (minimum plus a whole number of steps
   * of 0.1, up to its maximum) are committed by its handler.
   */
  lemma SliderPositionsAccepted(k: nat)
    requires k <= 30
    ensures 1 <= k <= 20 ==> Validate(Some(k as real / 10.0), LightBound).Some?
    ensures Validate(Some(k as real / 10.0), BloomBound).Some?
    ensures 5 <= k ==> Validate(Some(k as real / 10.0), ResolutionBound).Some?
    ensures Validate(Some(k as real / 10.0), MaterialBound).Some?
  {
  }

  /** The boundary values each range-checked handler rejects. */
  lemma BoundaryRejections(x: real)
    ensures Validate(Some(0.0), LightBound) == None
    ensures Validate(Some(0.0), BloomBound) == Some(0.0)
    ensures x < 0.0 ==> Validate(Some(x), BloomBound) == None
    ensures x < 0.5 ==> Validate(Some(x), ResolutionBound) == None
    ensures Validate(Some(x), MaterialBound) == Some(x)
    ensures forall b :: Validate(None, b) == None
  {
  }
}
