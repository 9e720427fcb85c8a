/** Legends of src/components/legend.jsx: vector legends from layer
    metadata, and raster legends that turn a WMS tile URL into one
    GetLegendGraphic request per layer (OGC 05-078r4, Styled Layer
    Descriptor profile of WMS, section 10.2). */
module Legend {
  import opened Common
  import opened Strings

  /** Metadata members of a layer. */
  type Metadata = map<string, string>

  /** A layer of the map style as the legend reads it. */
  datatype LegendLayer = LegendLayer(
    id: string,
    source: Option<string>,
    ref: Option<string>,
    metadata: Option<Metadata>)

  /** A source of the map style: its type and its tile URLs, if any. */
  datatype LegendSource = LegendSource(sourceType: string, tiles: Option<seq<string>>)

  /** One `<img>` of a WMS legend: its React key and its URL. */
  datatype LegendImage = LegendImage(key: string, src: string)

  /** What a legend renders; `NoLegend` is the source's `null`. */
  datatype LegendContent =
    | NoLegend
    | ImageLegend(imageSrc: Option<string>)
    | HtmlLegend(html: Option<string>)
    | RemoteLegend(href: Option<string>)
    | WmsLegend(images: seq<LegendImage>)

  const LegendTypeKey := "bnd:legend-type"
  const LegendContentKey := "bnd:legend-content"

  function Get(m: Metadata, key: string): Option<string> {
    if key in m then Some(m[key]) else None
  }

  /** `getVectorLegend(layer)`: the legend the layer's metadata describes,
      or none when the metadata is missing or its legend type is not one of
      'image', 'html' and 'href'. */
  function GetVectorLegend(layer: LegendLayer): (r: LegendContent)
    ensures var md := layer.metadata.GetOr(map[]);
      var t := Get(md, LegendTypeKey);
      var content := Get(md, LegendContentKey);
      && (r == NoLegend <==> t !in {Some("image"), Some("html"), Some("href")})
      && (t == Some("image") ==> r == ImageLegend(content))
      && (t == Some("html") ==> r == HtmlLegend(content))
      && (t == Some("href") ==> r == RemoteLegend(content))
  {
    var md := layer.metadata.GetOr(map[]);
    var content := Get(md, LegendContentKey);
    match Get(md, LegendTypeKey)
    case Some("image") => ImageLegend(content)
    case Some("html") => HtmlLegend(content)
    case Some("href") => RemoteLegend(content)
    case _ => NoLegend
  }

  /** A query object as `parseQueryString` returns it (that function is not
      part of this model): its keys in `Object.keys` order and their
      values. */
  datatype QueryObject = QueryObject(keys: seq<string>, values: map<string, string>)

  predicate ValidQuery(q: QueryObject) {
    && (forall i, j :: 0 <= i < j < |q.keys| ==> q.keys[i] != q.keys[j])
    && (forall k :: k in q.keys ==> k in q.values)
    && (forall k :: k in q.values ==> k in q.keys)
  }

  /** The key loop of `getRasterLegend`: for each key in order,
      `params[KEY] = params[key]`. */
  function Normalised(m: map<string, string>, keys: seq<string>): map<string, string>
    requires forall k :: k in keys ==> k in m
    decreases |keys|
  {
    if keys == [] then m
    else Normalised(m[Upper(keys[0]) := m[keys[0]]], keys[1..])
  }

  function UpperKeys(keys: seq<string>): set<string> {
    set k | k in keys :: Upper(k)
  }

  /** No two keys share an upper-case form. */
  predicate CaseDistinct(keys: seq<string>) {
    forall i, j :: 0 <= i < j < |keys| ==> Upper(keys[i]) != Upper(keys[j])
  }

  /** Normalising adds the upper-case form of every key and nothing else. */
  lemma {:induction false} NormalisedKeys(m: map<string, string>, keys: seq<string>)
    requires forall k :: k in keys ==> k in m
    ensures Normalised(m, keys).Keys == m.Keys + UpperKeys(keys)
    decreases |keys|
  {
    if keys != [] {
      var m' := m[Upper(keys[0]) := m[keys[0]]];
      NormalisedKeys(m', keys[1..]);
      assert UpperKeys(keys) == {Upper(keys[0])} + UpperKeys(keys[1..]) by {
        assert forall k :: k in keys <==> k == keys[0] || k in keys[1..];
      }
    }
  }

  /** A key that is not the upper-case form of any key keeps its value. */
  lemma {:induction false} NormalisedElsewhere(m: map<string, string>, keys: seq<string>, x: string)
    requires forall k :: k in keys ==> k in m
    requires x in m && x !in UpperKeys(keys)
    ensures x in Normalised(m, keys) && Normalised(m, keys)[x] == m[x]
    decreases |keys|
  {
    if keys != [] {
      assert keys[0] in keys;
      assert UpperKeys(keys[1..]) <= UpperKeys(keys) by {
        assert forall k :: k in keys[1..] ==> k in keys;
      }
      NormalisedElsewhere(m[Upper(keys[0]) := m[keys[0]]], keys[1..], x);
    }
  }

  /** A key holding a lower-case letter is never written: every key keeps
      the value it was parsed with. */
  lemma NormalisedKeepsMixedCase(m: map<string, string>, keys: seq<string>, x: string)
    requires forall k :: k in keys ==> k in m
    requires x in m && x != Upper(x)
    ensures x in Normalised(m, keys) && Normalised(m, keys)[x] == m[x]
  {
    forall k | k in keys ensures Upper(k) != x {
      UpperIdempotent(k);
    }
    NormalisedElsewhere(m, keys, x);
  }

  /** When every key with upper-case form `u` is `u` itself, the loop only
      copies `u` onto itself: `u` keeps its value. */
  lemma {:induction false} NormalisedUpperKept(m: map<string, string>, keys: seq<string>, u: string)
    requires forall k :: k in keys ==> k in m
    requires u in m
    requires forall j :: 0 <= j < |keys| && Upper(keys[j]) == u ==> keys[j] == u
    ensures u in Normalised(m, keys) && Normalised(m, keys)[u] == m[u]
    decreases |keys|
  {
    if keys != [] {
      var m' := m[Upper(keys[0]) := m[keys[0]]];
      assert m'[u] == m[u];
      assert forall j :: 0 <= j < |keys| - 1 ==> keys[1..][j] == keys[j + 1];
      NormalisedUpperKept(m', keys[1..], u);
    }
  }

  /** Keys that share an upper-case form `u` collide: `u` ends up with the
      value of the last of them that is not already upper case, since each
      such key is copied onto `u` and is itself never written. */
  lemma {:induction false} NormalisedCollision(m: map<string, string>, keys: seq<string>, u: string, i: nat)
    requires forall k :: k in keys ==> k in m
    requires i < |keys| && Upper(keys[i]) == u && keys[i] != u
    requires forall j :: i < j < |keys| && Upper(keys[j]) == u ==> keys[j] == u
    ensures u in Normalised(m, keys) && Normalised(m, keys)[u] == m[keys[i]]
    decreases |keys|
  {
    var m' := m[Upper(keys[0]) := m[keys[0]]];
    var rest := keys[1..];
    assert forall j :: 0 <= j < |rest| ==> rest[j] == keys[j + 1];
    assert forall k :: k in rest ==> k in m';
    if i == 0 {
      NormalisedUpperKept(m', rest, u);
    } else {
      UpperIdempotent(keys[0]);
      assert keys[i] != Upper(keys[0]);
      NormalisedCollision(m', rest, u, i - 1);
    }
  }

  /** When no two keys share an upper-case form, every key's value is also
      found under its upper-case form. */
  lemma {:induction false} NormalisedCaseDistinct(m: map<string, string>, keys: seq<string>, i: nat)
    requires forall k :: k in keys ==> k in m
    requires CaseDistinct(keys)
    requires i < |keys|
    ensures Upper(keys[i]) in Normalised(m, keys)
    ensures Normalised(m, keys)[Upper(keys[i])] == m[keys[i]]
    decreases |keys|
  {
    var u := Upper(keys[0]);
    var m' := m[u := m[keys[0]]];
    var rest := keys[1..];
    assert forall k :: k in rest ==> k in m';
    if i == 0 {
      assert u !in UpperKeys(rest) by {
        forall j | 0 <= j < |rest| ensures Upper(rest[j]) != u {
          assert rest[j] == keys[j + 1];
        }
      }
      NormalisedElsewhere(m', rest, u);
    } else {
      assert CaseDistinct(rest) by {
        forall a, b | 0 <= a < b < |rest| ensures Upper(rest[a]) != Upper(rest[b]) {
          assert rest[a] == keys[a + 1] && rest[b] == keys[b + 1];
        }
      }
      NormalisedCaseDistinct(m', rest, i - 1);
      assert keys[i] == rest[i - 1];
      assert keys[i] != u by {
        UpperIdempotent(keys[0]);
        assert Upper(keys[i]) != Upper(keys[0]);
      }
      assert m'[keys[i]] == m[keys[i]];
    }
  }

  /** The key loop: upper-cases each key in `keys` order, on a copy of the
      parsed parameters. */
  method NormaliseKeys(q: QueryObject) returns (params: map<string, string>)
    requires ValidQuery(q)
    ensures forall k :: k in q.keys ==> k in q.values
    ensures params == Normalised(q.values, q.keys)
  {
    params := q.values;
    var i := 0;
    while i < |q.keys|
      invariant 0 <= i <= |q.keys|
      invariant forall k :: k in q.keys ==> k in params
      invariant Normalised(params, q.keys[i..]) == Normalised(q.values, q.keys)
    {
      var key := q.keys[i];
      var ucKey := Upper(key);
      assert q.keys[i..] == [key] + q.keys[i + 1..];
      params := params[ucKey := params[key]];
      i := i + 1;
    }
  }

  /** A member of a request's query, in insertion order; a missing value is
      `undefined`. */
  datatype Param = Param(key: string, value: Option<string>)

  /** The optional GetLegendGraphic parameters the legend copies. WIDTH and
      HEIGHT are left out: they size the legend, not the map. */
  const OptionalKeys: seq<string> :=
    ["STYLE", "FEATURETYPE", "RULE", "SCALE", "SLD", "SLD_BODY", "EXCEPTIONS", "LANGUAGE"]

  /** The optional keys that are defined in `params`, with their values, in
      the order of `keys`. */
  function DefinedParams(params: map<string, string>, keys: seq<string>): seq<Param> {
    if keys == [] then []
    else
      var k := keys[|keys| - 1];
      DefinedParams(params, keys[..|keys| - 1]) + (if k in params then [Param(k, Some(params[k]))] else [])
  }

  /** An optional key is copied exactly when it is defined, and then with
      its value; no other key is copied. */
  lemma {:induction false} DefinedParamsIff(params: map<string, string>, keys: seq<string>, k: string)
    ensures (exists p :: p in DefinedParams(params, keys) && p.key == k) <==> k in keys && k in params
    ensures forall p :: p in DefinedParams(params, keys) ==> p.key in params && p.value == Some(params[p.key])
    decreases |keys|
  {
    if keys != [] {
      var init := keys[..|keys| - 1];
      DefinedParamsIff(params, init, k);
      assert keys == init + [keys[|keys| - 1]];
      assert forall x :: x in keys <==> x in init || x == keys[|keys| - 1];
    }
  }

  /** The request parameters shared by every image: SERVICE, REQUEST and
      FORMAT, then the defined optional keys. */
  function LegendParams(params: map<string, string>): seq<Param> {
    [Param("SERVICE", Some("WMS")), Param("REQUEST", Some("GetLegendGraphic")),
     Param("FORMAT", if "FORMAT" in params then Some(params["FORMAT"]) else None)]
      + DefinedParams(params, OptionalKeys)
  }

  /** The legend request always starts with SERVICE=WMS,
      REQUEST=GetLegendGraphic and the tile URL's FORMAT; an optional key
      appears exactly when the tile URL defines it; WIDTH and HEIGHT never
      appear. */
  lemma LegendParamsShape(params: map<string, string>, k: string)
    ensures var lp := LegendParams(params);
      && |lp| >= 3
      && lp[0] == Param("SERVICE", Some("WMS"))
      && lp[1] == Param("REQUEST", Some("GetLegendGraphic"))
      && lp[2] == Param("FORMAT", if "FORMAT" in params then Some(params["FORMAT"]) else None)
      && (k in OptionalKeys ==>
            ((exists p :: p in lp[3..] && p.key == k) <==> k in params))
      && (k in {"WIDTH", "HEIGHT", "LAYER"} ==> forall p :: p in lp ==> p.key != k)
  {
    var lp := LegendParams(params);
    assert lp[3..] == DefinedParams(params, OptionalKeys);
    DefinedParamsIff(params, OptionalKeys, k);
    if k in {"WIDTH", "HEIGHT", "LAYER"} {
      forall p | p in lp ensures p.key != k {
        if p in lp[3..] {
          DefinedParamsIff(params, OptionalKeys, p.key);
        }
      }
    }
  }

  /** The optional-key loop of `getRasterLegend`. */
  method CollectOptionalParams(params: map<string, string>) returns (defined: seq<Param>)
    ensures defined == DefinedParams(params, OptionalKeys)
  {
    defined := [];
    var i := 0;
    while i < |OptionalKeys|
      invariant 0 <= i <= |OptionalKeys|
      invariant defined == DefinedParams(params, OptionalKeys[..i])
    {
      var key := OptionalKeys[i];
      assert OptionalKeys[..i + 1][..i] == OptionalKeys[..i];
      if key in params {
        defined := defined + [Param(key, Some(params[key]))];
      }
      i := i + 1;
    }
    assert OptionalKeys[..|OptionalKeys|] == OptionalKeys;
  }

  /** The image for one WMS layer: the server URL, '?', and the encoded
      shared parameters followed by LAYER. */
  function LegendImageFor(url: string, base: seq<Param>, layerName: string,
                          encode: seq<Param> -> string): LegendImage
  {
    LegendImage(layerName, url + "?" + encode(base + [Param("LAYER", Some(layerName))]))
  }

  /** The tile URL upper-cased contains 'SERVICE=WMS'. */
  predicate IsWmsUrl(tileUrl: string) {
    IndexOf(Upper(tileUrl), "SERVICE=WMS") >= 0
  }

  /** The source's first tile URL, when it has one. */
  function FirstTile(src: LegendSource): Option<string> {
    if src.tiles.Some? && |src.tiles.value| > 0 then Some(src.tiles.value[0]) else None
  }

  /** The text after the first '?' and before any second one
      (`url.split('?')[1]`), or `undefined`. */
  function QueryPart(tileUrl: string): Option<string> {
    var parts := Split(tileUrl, '?');
    if |parts| > 1 then Some(parts[1]) else None
  }

  /** What `getRasterLegend` returns, as a function of its inputs. */
  function RasterLegend(layer: LegendLayer, src: LegendSource,
                        parseQueryString: Option<string> -> QueryObject,
                        encode: seq<Param> -> string): Result<LegendContent>
    requires forall s :: ValidQuery(parseQueryString(s))
  {
    var tile := FirstTile(src);
    if tile.None? || !IsWmsUrl(tile.value) then Ok(GetVectorLegend(layer))
    else
      var q := parseQueryString(QueryPart(tile.value));
      assert ValidQuery(q);
      var params := Normalised(q.values, q.keys);
      if "LAYERS" !in params then TypeError
      else
        var names := Split(params["LAYERS"], ',');
        var url := Split(tile.value, '?')[0];
        Ok(WmsLegend(seq(|names|, i requires 0 <= i < |names| =>
                           LegendImageFor(url, LegendParams(params), names[i], encode))))
  }

  /** `getRasterLegend(layer, layer_src)`. A WMS URL without LAYERS makes
      `undefined.split` throw. */
  method GetRasterLegend(layer: LegendLayer, src: LegendSource,
                         parseQueryString: Option<string> -> QueryObject,
                         encode: seq<Param> -> string) returns (r: Result<LegendContent>)
    requires forall s :: ValidQuery(parseQueryString(s))
    ensures r == RasterLegend(layer, src, parseQueryString, encode)
  {
    if src.tiles.Some? && |src.tiles.value| > 0 {
      var tileUrl := src.tiles.value[0];
      if IndexOf(Upper(tileUrl), "SERVICE=WMS") >= 0 {
        var wmsParams := NormaliseKeys(parseQueryString(QueryPart(tileUrl)));
        var url := Split(tileUrl, '?')[0];
        var legendParams := [Param("SERVICE", Some("WMS")), Param("REQUEST", Some("GetLegendGraphic")),
                             Param("FORMAT", if "FORMAT" in wmsParams then Some(wmsParams["FORMAT"]) else None)];
        var optional := CollectOptionalParams(wmsParams);
        legendParams := legendParams + optional;
        if "LAYERS" !in wmsParams {
          return TypeError;
        }
        var layers := Split(wmsParams["LAYERS"], ',');
        var images: seq<LegendImage> := [];
        var i := 0;
        while i < |layers|
          invariant 0 <= i <= |layers|
          invariant |images| == i
          invariant forall j :: 0 <= j < i ==> images[j] == LegendImageFor(url, legendParams, layers[j], encode)
        {
          var params := legendParams + [Param("LAYER", Some(layers[i]))];
          images := images + [LegendImage(layers[i], url + "?" + encode(params))];
          i := i + 1;
        }
        assert legendParams == LegendParams(wmsParams);
        assert images == seq(|layers|, j requires 0 <= j < |layers| =>
                               LegendImageFor(url, LegendParams(wmsParams), layers[j], encode));
        return Ok(WmsLegend(images));
      }
    }
    return Ok(GetVectorLegend(layer));
  }

  /** Without a tile URL, or with one that does not contain 'SERVICE=WMS'
      in any letter case, the raster legend is the vector legend. */
  lemma RasterFallsBack(layer: LegendLayer, src: LegendSource,
                        parseQueryString: Option<string> -> QueryObject,
                        encode: seq<Param> -> string)
    requires forall s :: ValidQuery(parseQueryString(s))
    requires FirstTile(src).None? ||
             forall i :: 0 <= i <= |FirstTile(src).value| ==> !MatchesAt(Upper(FirstTile(src).value), "SERVICE=WMS", i)
    ensures RasterLegend(layer, src, parseQueryString, encode) == Ok(GetVectorLegend(layer))
  {
  }

  /** A WMS legend has exactly one image per comma-separated LAYERS entry,
      in order, each asking the server URL (the part before '?') for that
      LAYER with the shared parameters. */
  lemma {:induction false} OneImagePerLayer(layer: LegendLayer, src: LegendSource,
                                            parseQueryString: Option<string> -> QueryObject,
                                            encode: seq<Param> -> string)
    requires forall s :: ValidQuery(parseQueryString(s))
    requires FirstTile(src).Some? && IsWmsUrl(FirstTile(src).value)
    ensures var tile := FirstTile(src).value;
      var q := parseQueryString(QueryPart(tile));
      var params := if ValidQuery(q) then Normalised(q.values, q.keys) else q.values;
      var r := RasterLegend(layer, src, parseQueryString, encode);
      && (r.TypeError? <==> "LAYERS" !in params)
      && ("LAYERS" in params ==>
            var names := Split(params["LAYERS"], ',');
            && r.value.WmsLegend?
            && |r.value.images| == |names|
            && Join(seq(|names|, i requires 0 <= i < |names| => r.value.images[i].key), ',') == params["LAYERS"]
            && forall i :: 0 <= i < |names| ==>
                 r.value.images[i].key == names[i] &&
                 r.value.images[i].src ==
                   Split(tile, '?')[0] + "?" + encode(LegendParams(params) + [Param("LAYER", Some(names[i]))]))
  {
    var tile := FirstTile(src).value;
    var q := parseQueryString(QueryPart(tile));
    assert ValidQuery(q);
    var params := Normalised(q.values, q.keys);
    if "LAYERS" in params {
      var names := Split(params["LAYERS"], ',');
      var r := RasterLegend(layer, src, parseQueryString, encode);
      assert seq(|names|, i requires 0 <= i < |names| => r.value.images[i].key) == names;
      JoinSplit(params["LAYERS"], ',');
    }
  }

  /** The first layer with the given id, if any. */
  function FirstWithId(layers: seq<LegendLayer>, id: string): (r: Option<LegendLayer>)
    ensures r.None? <==> forall i :: 0 <= i < |layers| ==> layers[i].id != id
    ensures r.Some? ==> exists i :: 0 <= i < |layers| && layers[i] == r.value && r.value.id == id &&
                                    forall j :: 0 <= j < i ==> layers[j].id != id
  {
    if layers == [] then None
    else if layers[0].id == id then Some(layers[0])
    else
      var r := FirstWithId(layers[1..], id);
      if r.Some? then
        assert forall j :: 0 <= j < |layers| - 1 ==> layers[1..][j] == layers[j + 1];
        r
      else r
  }

  /** `Legend.getLayerById(id)`: the loop returns the first layer whose id
      matches, or null when none does. */
  method GetLayerById(layers: seq<LegendLayer>, id: string) returns (r: Option<LegendLayer>)
    ensures r == FirstWithId(layers, id)
  {
    var i := 0;
    while i < |layers|
      invariant 0 <= i <= |layers|
      invariant forall j :: 0 <= j < i ==> layers[j].id != id
    {
      if layers[i].id == id {
        FirstWithIdAt(layers, id, i);
        return Some(layers[i]);
      }
      i := i + 1;
    }
    return None;
  }

  lemma {:induction false} FirstWithIdAt(layers: seq<LegendLayer>, id: string, i: nat)
    requires i < |layers| && layers[i].id == id
    requires forall j :: 0 <= j < i ==> layers[j].id != id
    ensures FirstWithId(layers, id) == Some(layers[i])
    decreases i
  {
    if i > 0 {
      FirstWithIdAt(layers[1..], id, i - 1);
    }
  }

  /** The source a layer's legend reads: its own, or, for a layer with a
      `ref` and no `source`, the referenced layer's. A missing referenced
      layer makes `null.source` throw. */
  function SourceNameOf(layers: seq<LegendLayer>, layer: LegendLayer): Result<Option<string>> {
    if Truthy(layer.ref) && !Truthy(layer.source) then
      var refLayer := FirstWithId(layers, layer.ref.value);
      if refLayer.None? then TypeError else Ok(refLayer.value.source)
    else Ok(layer.source)
  }

  /** The property name an index `sources[name]` looks up: a missing name
      is converted to the string 'undefined'. */
  function SourceKey(name: Option<string>): string {
    if name.Some? then name.value else "undefined"
  }

  /** What `getLegendContents` returns, as a function of its inputs. */
  function LegendContents(layers: seq<LegendLayer>, sources: map<string, LegendSource>, layerId: string,
                          parseQueryString: Option<string> -> QueryObject,
                          encode: seq<Param> -> string): Result<LegendContent>
    requires forall s :: ValidQuery(parseQueryString(s))
  {
    var layer := FirstWithId(layers, layerId);
    if layer.None? then Ok(NoLegend)
    else
      var name := SourceNameOf(layers, layer.value);
      if name.TypeError? then TypeError
      else if SourceKey(name.value) !in sources then
        if SourceKey(name.value) in ProtoNames then Ok(GetVectorLegend(layer.value)) else TypeError
      else
        var src := sources[SourceKey(name.value)];
        if src.sourceType == "raster" then RasterLegend(layer.value, src, parseQueryString, encode)
        else Ok(GetVectorLegend(layer.value))
  }

  /** `Legend.getLegendContents()`: null for an unknown layer id; a raster
      source gets the raster legend, every other type the vector legend.
      Reading `.type` of a source that does not exist throws, except for a
      name the sources object inherits from `Object.prototype`, whose
      member has no `type` and so gets the vector legend. */
  method GetLegendContents(layers: seq<LegendLayer>, sources: map<string, LegendSource>, layerId: string,
                           parseQueryString: Option<string> -> QueryObject,
                           encode: seq<Param> -> string) returns (r: Result<LegendContent>)
    requires forall s :: ValidQuery(parseQueryString(s))
    ensures r == LegendContents(layers, sources, layerId, parseQueryString, encode)
  {
    var layer := GetLayerById(layers, layerId);
    if layer.None? {
      return Ok(NoLegend);
    }
    var sourceName := layer.value.source;
    if Truthy(layer.value.ref) && !Truthy(layer.value.source) {
      var refLayer := GetLayerById(layers, layer.value.ref.value);
      if refLayer.None? {
        return TypeError;
      }
      sourceName := refLayer.value.source;
    }
    var key := if sourceName.Some? then sourceName.value else "undefined";
    if key !in sources {
      if key in ProtoNames {
        return Ok(GetVectorLegend(layer.value));
      }
      return TypeError;
    }
    var layerSrc := sources[key];
    if layerSrc.sourceType == "raster" {
      r := GetRasterLegend(layer.value, layerSrc, parseQueryString, encode);
    } else {
      r := Ok(GetVectorLegend(layer.value));
    }
  }

  /** An id no layer has, in any list of layers including the empty one,
      gives no legend: `getLayerById` returns null and so does
      `getLegendContents`. */
  lemma UnknownIdNoLegend(layers: seq<LegendLayer>, sources: map<string, LegendSource>, layerId: string,
                          parseQueryString: Option<string> -> QueryObject,
                          encode: seq<Param> -> string)
    requires forall s :: ValidQuery(parseQueryString(s))
    requires forall k :: 0 <= k < |layers| ==> layers[k].id != layerId
    ensures LegendContents(layers, sources, layerId, parseQueryString, encode) == Ok(NoLegend)
  {
  }

  /** A layer with a `ref` and no `source` is drawn from the source of the
      layer it refers to; the first layer with the id gets the raster legend when its source is a
      raster source and the vector legend for any other source type; a
      missing referenced layer, or a source name that is neither a source
      nor an inherited name, throws. */
  lemma LegendContentsLookup(layers: seq<LegendLayer>, sources: map<string, LegendSource>, layerId: string,
                             parseQueryString: Option<string> -> QueryObject,
                             encode: seq<Param> -> string, i: nat, j: nat)
    requires forall s :: ValidQuery(parseQueryString(s))
    requires i < |layers| && j < |layers|
    ensures var r := LegendContents(layers, sources, layerId, parseQueryString, encode);
      && layers[i].id == layerId && (forall k :: 0 <= k < i ==> layers[k].id != layerId)
      ==> var l := layers[i];
          var name := SourceNameOf(layers, l);
          && (name.TypeError? ==> r.TypeError?)
          && (name.Ok? && SourceKey(name.value) in sources ==>
                r == if sources[SourceKey(name.value)].sourceType == "raster"
                     then RasterLegend(l, sources[SourceKey(name.value)], parseQueryString, encode)
                     else Ok(GetVectorLegend(l)))
          && (name.Ok? && SourceKey(name.value) !in sources ==>
                (r.TypeError? <==> SourceKey(name.value) !in ProtoNames) &&
                (r.Ok? ==> r.value == GetVectorLegend(l)))
    ensures var layer := layers[i];
      (&& Truthy(layer.ref) && !Truthy(layer.source)
       && layers[j].id == layer.ref.value
       && (forall k :: 0 <= k < j ==> layers[k].id != layer.ref.value))
      ==> SourceNameOf(layers, layer) == Ok(layers[j].source)
  {
    if layers[i].id == layerId && (forall k :: 0 <= k < i ==> layers[k].id != layerId) {
      FirstWithIdAt(layers, layerId, i);
    }
    var layer := layers[i];
    if Truthy(layer.ref) && !Truthy(layer.source) && layers[j].id == layer.ref.value
       && (forall k :: 0 <= k < j ==> layers[k].id != layer.ref.value) {
      FirstWithIdAt(layers, layer.ref.value, j);
    }
  }
}
