/** The feature table of the feature-table example application
    (examples/feature-table/table.js): the column headers collected from the
    properties of a GeoJSON source's features, the header row and the body
    rows. Rendered elements are modelled as the cells they hold. */
module TableExample {
  import opened Common
  import opened GeoJson

  /** The example's GeoJSON sources by name: the `data.features` array of
      each, or `undefined` when a source's data has none. */
  type Sources = map<string, Option<seq<Feature>>>

  /** `this.props.map.sources[sourceName].data.features`; a missing source
      or missing features make the later `.length` throw. */
  function SourceFeatures(sources: Sources, sourceName: string): (r: Result<seq<Feature>>)
    ensures r.Ok? <==> sourceName in sources && sources[sourceName].Some?
  {
    if sourceName in sources && sources[sourceName].Some? then Ok(sources[sourceName].value)
    else TypeError
  }

  /** `Object.keys(feature.properties)`, where a `null` properties object
      has no keys to give (the source's call throws on it). */
  function OwnKeys(feature: Feature): seq<string> {
    if feature.properties.Some? then PropertyKeys(feature.properties.value) else []
  }

  /** No feature has `null` properties. */
  predicate AllHaveProperties(features: seq<Feature>) {
    forall i :: 0 <= i < |features| ==> features[i].properties.Some?
  }

  /** The property keys of the features, feature after feature. */
  function AllKeys(features: seq<Feature>): seq<string>
    decreases |features|
  {
    if features == [] then []
    else AllKeys(features[..|features| - 1]) + OwnKeys(features[|features| - 1])
  }

  /** Every key of every feature is among the keys, and nothing else. */
  lemma {:induction false} AllKeysMembers(features: seq<Feature>, key: string)
    ensures key in AllKeys(features) <==>
              exists i :: 0 <= i < |features| && key in OwnKeys(features[i])
    decreases |features|
  {
    if features != [] {
      var init := features[..|features| - 1];
      AllKeysMembers(init, key);
      assert forall i :: 0 <= i < |init| ==> init[i] == features[i];
      if key in OwnKeys(features[|features| - 1]) {
        assert key in AllKeys(features);
      }
    }
  }

  /** The keys with every repetition after the first dropped. */
  function Dedup(s: seq<string>): (d: seq<string>)
    ensures forall x :: x in d <==> x in s
    decreases |s|
  {
    if s == [] then []
    else
      var d := Dedup(s[..|s| - 1]);
      assert forall x :: x in s <==> x in s[..|s| - 1] || x == s[|s| - 1];
      if s[|s| - 1] in d then d else d + [s[|s| - 1]]
  }

  /** No key occurs twice. */
  predicate Distinct(s: seq<string>) {
    forall a, b :: 0 <= a < b < |s| ==> s[a] != s[b]
  }

  /** The position of the first occurrence of `x` in `s`. */
  function FirstIndex(s: seq<string>, x: string): (i: nat)
    requires x in s
    ensures i < |s| && s[i] == x && x !in s[..i]
  {
    if s[0] == x then 0 else 1 + FirstIndex(s[1..], x)
  }

  /** A position holding `x` with no `x` before it is the first
      occurrence. */
  lemma {:induction false} FirstIndexUnique(s: seq<string>, x: string, k: nat)
    requires k < |s| && s[k] == x
    requires forall m :: 0 <= m < k ==> s[m] != x
    ensures FirstIndex(s, x) == k
  {
    if s[0] != x {
      FirstIndexUnique(s[1..], x, k - 1);
    }
  }

  /** The first occurrence of a key in a longer sequence is the one in the
      prefix that already holds it. */
  lemma FirstIndexPrefix(s: seq<string>, t: seq<string>, x: string)
    requires x in s
    ensures FirstIndex(s + t, x) == FirstIndex(s, x)
  {
    var i := FirstIndex(s, x);
    assert forall m :: 0 <= m < i ==> s[..i][m] == (s + t)[m];
    FirstIndexUnique(s + t, x, i);
  }

  /** Deduplication keeps no repetition, and keeps the keys in the order of
      their first occurrences. */
  lemma {:induction false} DedupOrder(s: seq<string>)
    ensures Distinct(Dedup(s))
    ensures forall a, b :: 0 <= a < b < |Dedup(s)| ==> FirstIndex(s, Dedup(s)[a]) < FirstIndex(s, Dedup(s)[b])
    decreases |s|
  {
    if s != [] {
      var init := s[..|s| - 1];
      var last := s[|s| - 1];
      DedupOrder(init);
      var d := Dedup(init);
      assert s == init + [last];
      forall a | 0 <= a < |d| ensures FirstIndex(s, d[a]) == FirstIndex(init, d[a]) {
        FirstIndexPrefix(init, [last], d[a]);
      }
      if last !in d {
        assert last !in init;
        assert FirstIndex(s, last) == |s| - 1;
      }
    }
  }

  /** `getTableHeaders(sourceName)`: no columns without a source name;
      otherwise the property keys of the source's features without
      repetition, and a throw when some feature's properties are `null`. */
  function TableHeaders(sources: Sources, sourceName: string): Result<seq<string>> {
    if sourceName == "" then Ok([])
    else
      match SourceFeatures(sources, sourceName)
      case TypeError => TypeError
      case Ok(features) => if AllHaveProperties(features) then Ok(Dedup(AllKeys(features))) else TypeError
  }

  /** The headers hold every property key of every feature exactly once,
      in the order in which the keys first occur, and nothing else. */
  lemma TableHeadersProperties(sources: Sources, sourceName: string)
    ensures TableHeaders(sources, "") == Ok([])
    ensures sourceName != "" ==>
              (TableHeaders(sources, sourceName).Ok? <==>
                 SourceFeatures(sources, sourceName).Ok? &&
                 AllHaveProperties(SourceFeatures(sources, sourceName).value))
    ensures sourceName != "" && TableHeaders(sources, sourceName).Ok? ==>
      var features := SourceFeatures(sources, sourceName).value;
      var headers := TableHeaders(sources, sourceName).value;
      && Distinct(headers)
      && (forall key :: key in headers <==>
            exists i :: 0 <= i < |features| && key in PropertyKeys(features[i].properties.value))
      && (forall a, b :: 0 <= a < b < |headers| ==>
            FirstIndex(AllKeys(features), headers[a]) < FirstIndex(AllKeys(features), headers[b]))
  {
    if sourceName != "" && TableHeaders(sources, sourceName).Ok? {
      var features := SourceFeatures(sources, sourceName).value;
      DedupOrder(AllKeys(features));
      forall key ensures key in Dedup(AllKeys(features)) <==>
          exists i :: 0 <= i < |features| && key in PropertyKeys(features[i].properties.value) {
        AllKeysMembers(features, key);
        assert forall i :: 0 <= i < |features| ==> OwnKeys(features[i]) == PropertyKeys(features[i].properties.value);
      }
    }
  }

  /** `getTableHeaders(sourceName)`, with its two nested loops. */
  method GetTableHeaders(sources: Sources, sourceName: string) returns (r: Result<seq<string>>)
    ensures r == TableHeaders(sources, sourceName)
  {
    if sourceName == "" {
      return Ok([]);
    }
    if sourceName !in sources || sources[sourceName].None? {
      return TypeError;
    }
    var features := sources[sourceName].value;
    var headers: seq<string> := [];
    var i := 0;
    while i < |features|
      invariant 0 <= i <= |features|
      invariant AllHaveProperties(features[..i])
      invariant headers == Dedup(AllKeys(features[..i]))
    {
      if features[i].properties.None? {
        assert !AllHaveProperties(features);
        return TypeError;
      }
      var temp := PropertyKeys(features[i].properties.value);
      HeadersStep(features, i);
      headers := AddUnseen(headers, temp, AllKeys(features[..i]));
      i := i + 1;
    }
    assert features[..i] == features;
    return Ok(headers);
  }

  /** One more feature with properties adds its own keys to the keys so far. */
  lemma HeadersStep(features: seq<Feature>, i: nat)
    requires i < |features| && features[i].properties.Some?
    ensures AllKeys(features[..i + 1]) == AllKeys(features[..i]) + PropertyKeys(features[i].properties.value)
    ensures AllHaveProperties(features[..i]) ==> AllHaveProperties(features[..i + 1])
  {
    assert features[..i + 1][..i] == features[..i];
  }

  /** The inner loop of `getTableHeaders`: each key of a feature not yet
      among the headers is appended to them. */
  method AddUnseen(headers: seq<string>, temp: seq<string>, ghost before: seq<string>)
    returns (r: seq<string>)
    requires headers == Dedup(before)
    ensures r == Dedup(before + temp)
  {
    r := headers;
    var j := 0;
    assert before + temp[..0] == before;
    while j < |temp|
      invariant 0 <= j <= |temp|
      invariant r == Dedup(before + temp[..j])
    {
      assert (before + temp[..j + 1])[..|before + temp[..j]|] == before + temp[..j];
      if temp[j] !in r {
        r := r + [temp[j]];
      }
      j := j + 1;
    }
    assert temp[..j] == temp;
  }

  /** A header cell: its React key and its text. */
  datatype HeaderCell = HeaderCell(key: string, text: string)

  /** `buildTableHeader(properties)`: nothing for an empty list, otherwise
      one cell per property, keyed and labelled by it. */
  method BuildTableHeader(properties: seq<string>) returns (head: Option<seq<HeaderCell>>)
    ensures head.None? <==> properties == []
    ensures head.Some? ==> |head.value| == |properties|
    ensures head.Some? ==> forall i :: 0 <= i < |properties| ==> head.value[i] == HeaderCell(properties[i], properties[i])
  {
    if |properties| == 0 {
      return None;
    }
    var th: seq<HeaderCell> := [];
    var i := 0;
    while i < |properties|
      invariant 0 <= i <= |properties|
      invariant |th| == i
      invariant forall k :: 0 <= k < i ==> th[k] == HeaderCell(properties[k], properties[k])
    {
      th := th + [HeaderCell(properties[i], properties[i])];
      i := i + 1;
    }
    return Some(th);
  }

  /** A body cell: a property's value, or the text input of the row being
      edited with the value as its placeholder, or the closing cell with
      the pencil (shown while no row is edited) and the edit controls
      (shown in the edited row). The value is what the lookup finds: an
      own member, an inherited one, or `undefined`. */
  datatype BodyCell =
    | ValueCell(key: int, value: PropertyRead)
    | InputCell(key: int, placeholder: PropertyRead)
    | ControlCell(key: int, pencil: bool, editControls: bool)

  /** A body row: its React key and its cells. */
  datatype BodyRow = BodyRow(key: int, cells: seq<BodyCell>)

  /** The cell of property `j` of feature `i`. */
  function PropertyCell(feature: Feature, properties: seq<string>, i: int, j: int, editRow: int): BodyCell
    requires 0 <= j < |properties| && feature.properties.Some?
  {
    var featureValue := PropertyValue(feature.properties.value, properties[j]);
    if editRow == i then InputCell(j, featureValue) else ValueCell(j, featureValue)
  }

  /** The row of feature `i`; only a row without property cells can be
      built for `null` properties. */
  function Row(feature: Feature, properties: seq<string>, i: int, editRow: int): BodyRow
    requires properties != [] ==> feature.properties.Some?
  {
    BodyRow(i, seq(|properties|, j requires 0 <= j < |properties| => PropertyCell(feature, properties, i, j, editRow))
               + [ControlCell(|properties| + 1, editRow == -1, editRow == i)])
  }

  /** The rows of `buildTableBody(properties, sourceName)`: looking a
      property up on a feature whose properties are `null` throws. */
  function TableBody(sources: Sources, properties: seq<string>, sourceName: string, editRow: int): Option<Result<seq<BodyRow>>> {
    if sourceName == "" then None
    else
      match SourceFeatures(sources, sourceName)
      case TypeError => Some(TypeError)
      case Ok(features) =>
        if properties != [] && !AllHaveProperties(features) then Some(TypeError)
        else Some(Ok(seq(|features|, i requires 0 <= i < |features| => Row(features[i], properties, i, editRow))))
  }

  /** The body has one row per feature, keyed by its position, with one
      cell per property and a closing control cell; only the edited row
      holds inputs, the pencil shows only while no row is edited, and a
      cell shows the feature's value of its property. */
  lemma TableBodyShape(sources: Sources, properties: seq<string>, sourceName: string, editRow: int)
    requires sourceName != "" && SourceFeatures(sources, sourceName).Ok?
    ensures var features := SourceFeatures(sources, sourceName).value;
      var body := TableBody(sources, properties, sourceName, editRow);
      && body.Some?
      && (body.value.TypeError? <==> properties != [] && !AllHaveProperties(features))
    ensures var features := SourceFeatures(sources, sourceName).value;
      var body := TableBody(sources, properties, sourceName, editRow);
      body.value.Ok? ==>
      && |body.value.value| == |features|
      && forall i :: 0 <= i < |features| ==>
           var row := body.value.value[i];
           && row.key == i
           && |row.cells| == |properties| + 1
           && row.cells[|properties|] == ControlCell(|properties| + 1, editRow == -1, editRow == i)
           && forall j :: 0 <= j < |properties| ==>
                row.cells[j].key == j
                && (row.cells[j].InputCell? <==> editRow == i)
                && (row.cells[j].ValueCell? ==> row.cells[j].value == PropertyValue(features[i].properties.value, properties[j]))
                && (row.cells[j].InputCell? ==> row.cells[j].placeholder == PropertyValue(features[i].properties.value, properties[j]))
  {
  }

  /** `buildTableBody(properties, sourceName)`: for each feature, a cell
      per property pushed onto `row`, then the control cell; the row is
      pushed onto the body and `row` is reset. */
  method BuildTableBody(sources: Sources, properties: seq<string>, sourceName: string, editRow: int)
    returns (r: Option<Result<seq<BodyRow>>>)
    ensures r == TableBody(sources, properties, sourceName, editRow)
  {
    if sourceName == "" {
      return None;
    }
    if sourceName !in sources || sources[sourceName].None? {
      return Some(TypeError);
    }
    var features := sources[sourceName].value;
    var body: seq<BodyRow> := [];
    var row: seq<BodyCell> := [];
    var i := 0;
    while i < |features|
      invariant 0 <= i <= |features|
      invariant properties != [] ==> AllHaveProperties(features[..i])
      invariant row == []
      invariant |body| == i
      invariant forall k :: 0 <= k < i ==> body[k] == Row(features[k], properties, k, editRow)
    {
      var j := 0;
      while j < |properties|
        invariant 0 <= j <= |properties|
        invariant |row| == j
        invariant j > 0 ==> features[i].properties.Some?
        invariant forall k :: 0 <= k < j ==> row[k] == PropertyCell(features[i], properties, i, k, editRow)
      {
        if features[i].properties.None? {
          return Some(TypeError);
        }
        var featureValue := PropertyValue(features[i].properties.value, properties[j]);
        if editRow == i {
          row := row + [InputCell(j, featureValue)];
        } else {
          row := row + [ValueCell(j, featureValue)];
        }
        j := j + 1;
      }
      row := row + [ControlCell(|properties| + 1, editRow == -1, editRow == i)];
      assert BodyRow(i, row) == Row(features[i], properties, i, editRow);
      body := body + [BodyRow(i, row)];
      row := [];
      i := i + 1;
    }
    assert body == seq(|features|, k requires 0 <= k < |features| => Row(features[k], properties, k, editRow));
    return Some(Ok(body));
  }
}
