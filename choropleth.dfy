/** The choropleth map component: the numeric domain taken over the features'
    values, the per-feature style and tooltip, the hover and mouse-out restyling
    of a feature's layer, and the legend. The colour scale of chroma-js and
    `parseFloat` on strings are library behaviour and enter as parameters. */
module Choropleth {
  import opened Js

  /** A colour as the `#rrggbb` text the scale's `hex()` returns. */
  type Color = string

  /** The fill of a feature whose value does not parse. */
  const NoDataColor: Color := "#cccccc"

  /** The anchor colours handed to the scale, lightest first. */
  const Palette: seq<Color> := ["#ffffcc", "#a1dab4", "#41b6c4", "#2c7fb8", "#253494"]

  /** A GeoJSON feature; only its properties matter here, the geometry is
      passed through to the map library untouched. */
  datatype Feature = Feature(properties: map<string, JsValue>)

  /** The component's inputs: the collection's features and the property to show. */
  datatype MapProps = MapProps(features: seq<Feature>, variableId: string)

  /** A number as `Math.min` and `Math.max` return it, including the infinities
      they return when called with no arguments. */
  datatype ExtReal = NegInfinity | Finite(x: real) | PosInfinity

  /** The `[minValue, maxValue]` domain handed to the scale. */
  datatype Domain = Domain(lo: ExtReal, hi: ExtReal)

  /** The library calls whose results are not modelled: `parseFloat` applied to
      a string, and `chroma.scale(palette).domain(d)(v).hex()`. */
  datatype Env = Env(parseText: string -> Option<real>, scale: (seq<Color>, Domain, ExtReal) -> Color)

  /** `parseFloat(v)`, with `None` for NaN: `undefined` and `null` never parse,
      a number parses to itself, a string is left to the library. */
  function ParseFloat(env: Env, v: JsValue): (r: Option<real>)
    ensures v.Undefined? || v.Null? ==> r == None
    ensures v.Num? ==> r == Some(v.n)
    ensures v.Str? ==> r == env.parseText(v.s)
  {
    match v
    case Undefined => None
    case Null => None
    case Num(n) => Some(n)
    case Str(s) => env.parseText(s)
  }

  /** `parseFloat(feature.properties[variableId])`. */
  function ValueOf(env: Env, f: Feature, variableId: string): (r: Option<real>)
    ensures variableId !in f.properties ==> r == None
    ensures variableId in f.properties && f.properties[variableId].Null? ==> r == None
    ensures variableId in f.properties && f.properties[variableId].Num? ==> r == Some(f.properties[variableId].n)
    ensures variableId in f.properties && f.properties[variableId].Str? ==> r == env.parseText(f.properties[variableId].s)
  {
    ParseFloat(env, Get(f.properties, variableId))
  }

  /** The values of the features, in order, with those that do not parse dropped. */
  function Values(env: Env, features: seq<Feature>, variableId: string): (vs: seq<real>)
    ensures |vs| <= |features|
    decreases |features|
  {
    if features == [] then []
    else
      var rest := Values(env, features[1..], variableId);
      match ValueOf(env, features[0], variableId)
      case Some(v) => [v] + rest
      case None => rest
  }

  /** A number is in the domain list exactly when some feature's value parses to it. */
  lemma {:induction false} ValuesExactly(env: Env, features: seq<Feature>, variableId: string, v: real)
    ensures v in Values(env, features, variableId) <==>
            exists i :: 0 <= i < |features| && ValueOf(env, features[i], variableId) == Some(v)
    decreases |features|
  {
    if features != [] {
      ValuesExactly(env, features[1..], variableId, v);
      if v in Values(env, features[1..], variableId) {
        var j :| 0 <= j < |features[1..]| && ValueOf(env, features[1..][j], variableId) == Some(v);
        assert features[1..][j] == features[j + 1];
      }
      if exists i :: 0 <= i < |features| && ValueOf(env, features[i], variableId) == Some(v) {
        var i :| 0 <= i < |features| && ValueOf(env, features[i], variableId) == Some(v);
        if i > 0 {
          assert features[1..][i - 1] == features[i];
        }
      }
    }
  }

  /** `Math.min(...vs)`. */
  function MinOf(vs: seq<real>): (r: ExtReal)
    ensures vs == [] ==> r == PosInfinity
    ensures vs != [] ==> r.Finite? && r.x in vs && forall v :: v in vs ==> r.x <= v
    decreases |vs|
  {
    if vs == [] then PosInfinity
    else
      var m := MinOf(vs[1..]);
      assert vs == [vs[0]] + vs[1..];
      if m.Finite? && m.x < vs[0] then m else Finite(vs[0])
  }

  /** `Math.max(...vs)`. */
  function MaxOf(vs: seq<real>): (r: ExtReal)
    ensures vs == [] ==> r == NegInfinity
    ensures vs != [] ==> r.Finite? && r.x in vs && forall v :: v in vs ==> v <= r.x
    decreases |vs|
  {
    if vs == [] then NegInfinity
    else
      var m := MaxOf(vs[1..]);
      assert vs == [vs[0]] + vs[1..];
      if m.Finite? && m.x > vs[0] then m else Finite(vs[0])
  }

  /** `[Math.min(...values), Math.max(...values)]`: the least and greatest of
      the parsed values, or the two infinities when none parse. */
  function DomainOf(env: Env, props: MapProps): (d: Domain)
    ensures var vs := Values(env, props.features, props.variableId);
      && (vs == [] ==> d == Domain(PosInfinity, NegInfinity))
      && (vs != [] ==>
            && d.lo.Finite? && d.hi.Finite? && d.lo.x in vs && d.hi.x in vs
            && forall v :: v in vs ==> d.lo.x <= v <= d.hi.x)
  {
    var vs := Values(env, props.features, props.variableId);
    Domain(MinOf(vs), MaxOf(vs))
  }

  /** Some feature of the collection has a value that parses. */
  predicate HasData(env: Env, props: MapProps)
  {
    exists i :: 0 <= i < |props.features| && ValueOf(env, props.features[i], props.variableId).Some?
  }

  /** With data, the domain is finite, contains every parsed value and both of
      its ends are values of features; without data it is the unguarded
      `[Infinity, -Infinity]` the source computes. */
  lemma DomainBounds(env: Env, props: MapProps)
    ensures var d := DomainOf(env, props);
      HasData(env, props) ==>
        && d.lo.Finite? && d.hi.Finite? && d.lo.x <= d.hi.x
        && (forall i :: 0 <= i < |props.features| && ValueOf(env, props.features[i], props.variableId).Some? ==>
              d.lo.x <= ValueOf(env, props.features[i], props.variableId).value <= d.hi.x)
        && (exists i :: 0 <= i < |props.features| && ValueOf(env, props.features[i], props.variableId) == Some(d.lo.x))
        && (exists i :: 0 <= i < |props.features| && ValueOf(env, props.features[i], props.variableId) == Some(d.hi.x))
    ensures !HasData(env, props) ==> DomainOf(env, props) == Domain(PosInfinity, NegInfinity)
  {
    var vs := Values(env, props.features, props.variableId);
    var d := DomainOf(env, props);
    if HasData(env, props) {
      var k :| 0 <= k < |props.features| && ValueOf(env, props.features[k], props.variableId).Some?;
      ValuesExactly(env, props.features, props.variableId, ValueOf(env, props.features[k], props.variableId).value);
      forall i | 0 <= i < |props.features| && ValueOf(env, props.features[i], props.variableId).Some?
        ensures d.lo.x <= ValueOf(env, props.features[i], props.variableId).value <= d.hi.x
      {
        ValuesExactly(env, props.features, props.variableId, ValueOf(env, props.features[i], props.variableId).value);
      }
      ValuesExactly(env, props.features, props.variableId, d.lo.x);
      ValuesExactly(env, props.features, props.variableId, d.hi.x);
    } else if vs != [] {
      ValuesExactly(env, props.features, props.variableId, vs[0]);
      assert false;
    }
  }

  /** The style object Leaflet draws a feature with. */
  datatype PathStyle = PathStyle(fillColor: Color, weight: real, opacity: real, color: Color, fillOpacity: real)

  /** The component's `style` function. */
  function Style(env: Env, props: MapProps, f: Feature): (r: PathStyle)
    ensures r.weight == 1.0 && r.opacity == 1.0 && r.color == "#666" && r.fillOpacity == 0.7
    ensures ValueOf(env, f, props.variableId).None? ==> r.fillColor == NoDataColor
    ensures ValueOf(env, f, props.variableId).Some? ==>
              r.fillColor == env.scale(Palette, DomainOf(env, props), Finite(ValueOf(env, f, props.variableId).value))
  {
    var fill := match ValueOf(env, f, props.variableId)
      case None => NoDataColor
      case Some(v) => env.scale(Palette, DomainOf(env, props), Finite(v));
    PathStyle(fill, 1.0, 1.0, "#666", 0.7)
  }

  /** Every feature that is coloured from the scale is coloured at a point of
      the scale's own domain. */
  lemma ColouredWithinDomain(env: Env, props: MapProps, i: int)
    requires 0 <= i < |props.features| && ValueOf(env, props.features[i], props.variableId).Some?
    ensures var d := DomainOf(env, props);
      var v := ValueOf(env, props.features[i], props.variableId).value;
      && d.lo.Finite? && d.hi.Finite? && d.lo.x <= v <= d.hi.x
      && Style(env, props, props.features[i]).fillColor == env.scale(Palette, d, Finite(v))
  {
    DomainBounds(env, props);
  }

  /** What the tooltip shows for the value: "No data", or the localized result
      of `parseFloat` (`None` being the text "NaN"). */
  datatype TooltipValue = NoData | Localized(parsed: Option<real>)

  /** The tooltip text `<strong>name</strong><br/>variableId: value`. */
  datatype Tooltip = Tooltip(name: JsValue, variableId: string, value: TooltipValue)

  /** `properties.NAME || properties.name || 'Unknown'`. */
  function TooltipName(p: map<string, JsValue>): (r: JsValue)
    ensures Truthy(r)
    ensures Truthy(Get(p, "NAME")) ==> r == Get(p, "NAME")
    ensures !Truthy(Get(p, "NAME")) && Truthy(Get(p, "name")) ==> r == Get(p, "name")
    ensures !Truthy(Get(p, "NAME")) && !Truthy(Get(p, "name")) ==> r == Str("Unknown")
  {
    Or(Or(Get(p, "NAME"), Get(p, "name")), Str("Unknown"))
  }

  /** The tooltip `onEachFeature` binds: the raw value is checked for
      truthiness, so `0`, `""`, `null` and a missing value all read "No data". */
  function TooltipFor(env: Env, variableId: string, f: Feature): (t: Tooltip)
    ensures t.name == TooltipName(f.properties) && t.variableId == variableId
    ensures t.value == NoData <==> !Truthy(Get(f.properties, variableId))
    ensures Truthy(Get(f.properties, variableId)) ==> t.value == Localized(ValueOf(env, f, variableId))
  {
    var raw := Get(f.properties, variableId);
    Tooltip(TooltipName(f.properties), variableId, if Truthy(raw) then Localized(ParseFloat(env, raw)) else NoData)
  }

  /** The tooltip and the fill disagree on a numeric zero: the feature is
      coloured at 0 on the scale while its tooltip says "No data". */
  lemma ZeroColouredButNoData(env: Env, props: MapProps, f: Feature)
    requires Get(f.properties, props.variableId) == Num(0.0)
    ensures Style(env, props, f).fillColor == env.scale(Palette, DomainOf(env, props), Finite(0.0))
    ensures TooltipFor(env, props.variableId, f).value == NoData
  {
  }

  /** Whether a present value shows a number in the tooltip or "No data"
      depends on its spelling: the string "0" is truthy and shows its parse. */
  lemma ZeroTextShown(env: Env, f: Feature, variableId: string)
    requires Get(f.properties, variableId) == Str("0")
    ensures TooltipFor(env, variableId, f).value == Localized(env.parseText("0"))
  {
  }

  /** Leaflet's `setStyle(patch)`: the fields the patch names are replaced, the
      others kept. */
  datatype StylePatch = StylePatch(
    fillColor: Option<Color>, weight: Option<real>, opacity: Option<real>,
    color: Option<Color>, fillOpacity: Option<real>)

  function Patched(s: PathStyle, p: StylePatch): PathStyle
  {
    PathStyle(
      if p.fillColor.Some? then p.fillColor.value else s.fillColor,
      if p.weight.Some? then p.weight.value else s.weight,
      if p.opacity.Some? then p.opacity.value else s.opacity,
      if p.color.Some? then p.color.value else s.color,
      if p.fillOpacity.Some? then p.fillOpacity.value else s.fillOpacity)
  }

  /** A patch that names every field of `s`. */
  function Whole(s: PathStyle): (p: StylePatch)
    ensures forall t :: Patched(t, p) == s
  {
    StylePatch(Some(s.fillColor), Some(s.weight), Some(s.opacity), Some(s.color), Some(s.fillOpacity))
  }

  /** The mouse-over patch: weight 2, colour `#333`, fill opacity 0.9. */
  const HoverPatch: StylePatch := StylePatch(None, Some(2.0), None, Some("#333"), Some(0.9))

  /** Hovering changes the outline weight, the outline colour and the fill
      opacity and nothing else; in particular the fill colour stays. */
  lemma HoverChangesOnlyOutline(s: PathStyle)
    ensures Patched(s, HoverPatch) == s.(weight := 2.0, color := "#333", fillOpacity := 0.9)
    ensures Patched(s, HoverPatch).fillColor == s.fillColor && Patched(s, HoverPatch).opacity == s.opacity
  {
  }

  /** The legend: labels `minValue` and `maxValue`, a gradient between the
      scale's colours at those two points, and the variable's identifier. */
  datatype Legend = Legend(lowLabel: ExtReal, highLabel: ExtReal, gradientFrom: Color, gradientTo: Color, description: string)

  function LegendOf(env: Env, props: MapProps): (l: Legend)
    ensures l.lowLabel == DomainOf(env, props).lo && l.highLabel == DomainOf(env, props).hi
    ensures l.gradientFrom == env.scale(Palette, DomainOf(env, props), l.lowLabel)
    ensures l.gradientTo == env.scale(Palette, DomainOf(env, props), l.highLabel)
    ensures l.description == props.variableId
  {
    var d := DomainOf(env, props);
    Legend(d.lo, d.hi, env.scale(Palette, d, d.lo), env.scale(Palette, d, d.hi), props.variableId)
  }

  /** With data, the legend's labels are the least and greatest parsed values
      of the features, and its gradient starts at the fill of a feature holding
      the least value and ends at the fill of a feature holding the greatest;
      without data its labels are the infinities of the unguarded domain. */
  lemma LegendMatchesFeatures(env: Env, props: MapProps)
    ensures var l := LegendOf(env, props); var d := DomainOf(env, props);
      && l.lowLabel == d.lo && l.highLabel == d.hi && l.description == props.variableId
      && (HasData(env, props) ==>
        && l.lowLabel.Finite? && l.highLabel.Finite? && l.lowLabel.x <= l.highLabel.x
        && (forall i :: 0 <= i < |props.features| && ValueOf(env, props.features[i], props.variableId).Some? ==>
              l.lowLabel.x <= ValueOf(env, props.features[i], props.variableId).value <= l.highLabel.x)
        && (exists i :: 0 <= i < |props.features| && ValueOf(env, props.features[i], props.variableId) == Some(l.lowLabel.x)
              && Style(env, props, props.features[i]).fillColor == l.gradientFrom)
        && (exists i :: 0 <= i < |props.features| && ValueOf(env, props.features[i], props.variableId) == Some(l.highLabel.x)
              && Style(env, props, props.features[i]).fillColor == l.gradientTo))
    ensures !HasData(env, props) ==>
      LegendOf(env, props).lowLabel == PosInfinity && LegendOf(env, props).highLabel == NegInfinity
  {
    DomainBounds(env, props);
    var d := DomainOf(env, props);
    if HasData(env, props) {
      var i :| 0 <= i < |props.features| && ValueOf(env, props.features[i], props.variableId) == Some(d.lo.x);
      assert Style(env, props, props.features[i]).fillColor == LegendOf(env, props).gradientFrom;
      var j :| 0 <= j < |props.features| && ValueOf(env, props.features[j], props.variableId) == Some(d.hi.x);
      assert Style(env, props, props.features[j]).fillColor == LegendOf(env, props).gradientTo;
    }
  }

  /** The Leaflet layer of one feature, whose style the hover handlers change
      in place. */
  class FeatureLayer {
    const env: Env
    const props: MapProps
    const feature: Feature
    var style: PathStyle
    var tooltip: Tooltip

    /** The GeoJSON layer draws the feature with `style(feature)` and
        `onEachFeature` binds its tooltip. */
    constructor (env: Env, props: MapProps, feature: Feature)
      ensures this.env == env && this.props == props && this.feature == feature
      ensures style == Style(env, props, feature)
      ensures tooltip == TooltipFor(env, props.variableId, feature)
    {
      this.env := env;
      this.props := props;
      this.feature := feature;
      style := Style(env, props, feature);
      tooltip := TooltipFor(env, props.variableId, feature);
    }

    method SetStyle(patch: StylePatch)
      modifies this`style
      ensures style == Patched(old(style), patch)
    {
      style := Patched(style, patch);
    }

    method OnMouseOver()
      modifies this`style
      ensures style == old(style).(weight := 2.0, color := "#333", fillOpacity := 0.9)
    {
      SetStyle(HoverPatch);
    }

    /** Mouse-out restores exactly the feature's base style, whatever was applied before. */
    method OnMouseOut()
      modifies this`style
      ensures style == Style(env, props, feature)
    {
      SetStyle(Whole(Style(env, props, feature)));
    }
  }
}
