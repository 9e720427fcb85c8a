/** The feature table of src/components/FeatureTable.js: filtering the
    table's rows by a filter expression, choosing which filter the feature
    store applies, and the page arithmetic. The feature store and the
    filter expression compiler are not part of this model; the calls made
    on the store are recorded, and the compiler is a parameter. */
module FeatureTable {
  import opened Common
  import opened Strings
  import opened GeoJson

  /** A feature as the table reads it: an OpenLayers feature, whose
      `getProperties()` always gives an object. */
  datatype TableFeature = TableFeature(id: Option<string>, properties: seq<Property>)

  /** A row of the table: a feature, or a missing (`null`) entry. */
  type Row = Option<TableFeature>

  /** The store's state for a layer: the selected features and all
      features. */
  datatype StoreState = StoreState(selected: seq<Row>, features: seq<Row>)

  /** What the filter service makes of an expression: it throws, or it
      returns a predicate on a feature's properties. */
  datatype FilterOutcome = Throws | Predicate(test: seq<Property> -> bool)

  /** A row the filter keeps: present, and its properties pass the test. */
  predicate Keep(row: Row, test: seq<Property> -> bool) {
    row.Some? && test(row.value.properties)
  }

  /** The rows the filter loop of `_filterByText` keeps, in their order. */
  function FilterRows(rows: seq<Row>, test: seq<Property> -> bool): (kept: seq<Row>)
    ensures |kept| <= |rows|
    ensures forall k :: 0 <= k < |kept| ==> Keep(kept[k], test)
    decreases |rows|
  {
    if rows == [] then []
    else
      var last := rows[|rows| - 1];
      FilterRows(rows[..|rows| - 1], test) + (if Keep(last, test) then [last] else [])
  }

  /** The positions of the kept rows. */
  function KeptIndices(rows: seq<Row>, test: seq<Property> -> bool): seq<nat>
    decreases |rows|
  {
    if rows == [] then []
    else
      KeptIndices(rows[..|rows| - 1], test) + (if Keep(rows[|rows| - 1], test) then [|rows| - 1] else [])
  }

  /** The filtered rows are the rows at strictly increasing positions, and a
      position is among them exactly when its row is kept: the filter keeps
      the order of the rows and drops only missing rows and rows that fail
      the test. */
  lemma {:induction false} FilterRowsSubsequence(rows: seq<Row>, test: seq<Property> -> bool)
    ensures var kept := KeptIndices(rows, test);
      var fr := FilterRows(rows, test);
      && |kept| == |fr|
      && (forall k :: 0 <= k < |kept| ==> kept[k] < |rows| && fr[k] == rows[kept[k]])
      && (forall a, b :: 0 <= a < b < |kept| ==> kept[a] < kept[b])
      && (forall i :: 0 <= i < |rows| ==> (Keep(rows[i], test) <==> i in kept))
    decreases |rows|
  {
    if rows != [] {
      var init := rows[..|rows| - 1];
      FilterRowsSubsequence(init, test);
      var kept := KeptIndices(rows, test);
      var fr := FilterRows(rows, test);
      assert forall k :: 0 <= k < |init| ==> init[k] == rows[k];
      forall i | 0 <= i < |rows| ensures Keep(rows[i], test) <==> i in kept {
        if i < |rows| - 1 {
          assert i != |rows| - 1;
          assert i in KeptIndices(init, test) <==> i in kept;
        }
      }
    }
  }

  /** The filter keeps as many rows as there are exactly when it keeps
      every row. */
  lemma {:induction false} FilterRowsKeepsAll(rows: seq<Row>, test: seq<Property> -> bool)
    ensures |FilterRows(rows, test)| == |rows| <==> forall i :: 0 <= i < |rows| ==> Keep(rows[i], test)
    ensures (forall i :: 0 <= i < |rows| ==> Keep(rows[i], test)) ==> FilterRows(rows, test) == rows
    decreases |rows|
  {
    if rows != [] {
      var init := rows[..|rows| - 1];
      FilterRowsKeepsAll(init, test);
      assert forall k :: 0 <= k < |init| ==> init[k] == rows[k];
      if forall i :: 0 <= i < |rows| ==> Keep(rows[i], test) {
        assert rows == init + [rows[|rows| - 1]];
      }
    }
  }

  /** `filterBy.replace(/'/g, '"')`: single quotes become double quotes. */
  function QuotesNormalised(filterBy: string): (r: string)
    ensures |r| == |filterBy| && '\'' !in r
  {
    ReplaceChar(filterBy, '\'', '"')
  }

  /** The rows `_filterByText` leaves: every row for an empty expression,
      none when the expression does not compile, and otherwise the rows the
      filter keeps. */
  function FilteredBy(rows: seq<Row>, filterBy: string, compile: string -> FilterOutcome): seq<Row> {
    if filterBy == "" then rows
    else
      match compile(QuotesNormalised(filterBy))
      case Throws => []
      case Predicate(test) => FilterRows(rows, test)
  }

  /** With an empty expression the table shows every row and is not
      filtered; with an expression that does not compile it shows none and
      counts as filtered exactly when there were rows; with a compiled test
      it counts as filtered exactly when some row is missing or fails the
      test. */
  lemma FilteredByCases(rows: seq<Row>, filterBy: string, compile: string -> FilterOutcome)
    ensures filterBy == "" ==> FilteredBy(rows, filterBy, compile) == rows
    ensures filterBy != "" && compile(QuotesNormalised(filterBy)).Throws? ==>
              FilteredBy(rows, filterBy, compile) == [] &&
              (|FilteredBy(rows, filterBy, compile)| != |rows| <==> |rows| > 0)
    ensures filterBy != "" && compile(QuotesNormalised(filterBy)).Predicate? ==>
              var test := compile(QuotesNormalised(filterBy)).test;
              (|FilteredBy(rows, filterBy, compile)| != |rows| <==>
                 exists i :: 0 <= i < |rows| && !Keep(rows[i], test))
  {
    if filterBy != "" && compile(QuotesNormalised(filterBy)).Predicate? {
      FilterRowsKeepsAll(rows, compile(QuotesNormalised(filterBy)).test);
    }
  }

  /** A call the table makes on the feature store or through the select
      actions, for its current layer. */
  datatype StoreCall =
    | AddLayer(added: string, selectedOnly: bool)
    | SetFilter(layer: Option<string>, rows: seq<Row>)
    | SetSelectedAsFilter(layer: Option<string>)
    | RestoreOriginalFeatures(layer: Option<string>)
    | ClearSelection(layer: Option<string>, selectedOnly: bool)
    | LoadFeatures(loaded: string, start: int, count: int)

  /** The store call of `_updateStoreFilter`: the filtered rows when the
      table is filtered; otherwise the selection when only selected
      features are shown, and the original features if not. */
  function StoreFilterCall(layer: Option<string>, filtered: bool, selectedOnly: bool,
                           filteredRows: seq<Row>): (call: StoreCall)
    ensures call.SetFilter? <==> filtered
    ensures call.SetSelectedAsFilter? <==> !filtered && selectedOnly
    ensures call.RestoreOriginalFeatures? <==> !filtered && !selectedOnly
    ensures call.SetFilter? ==> call.rows == filteredRows
  {
    if !filtered then
      if selectedOnly then SetSelectedAsFilter(layer) else RestoreOriginalFeatures(layer)
    else SetFilter(layer, filteredRows)
  }

  /** `Math.ceil(n / size)` for a whole number of features and a positive
      page size. */
  function PageCount(n: nat, size: nat): (pages: nat)
    requires size > 0
    ensures pages * size >= n
    ensures pages == 0 || (pages - 1) * size < n
  {
    (n + size - 1) / size
  }

  /** The page count is the least number of pages that holds every
      feature: feature `i` is on page `i / size`, which exists. */
  lemma PageCountLeast(n: nat, size: nat, i: nat, fewer: nat)
    requires size > 0
    ensures i < n ==> PageStart(i / size, size) <= i < PageStart(i / size, size) + size
    ensures i < n ==> i / size < PageCount(n, size)
    ensures fewer < PageCount(n, size) ==> fewer * size < n
  {
    var pages := PageCount(n, size);
    if fewer < pages {
      MulMonotone(fewer, pages - 1, size);
    }
    if i < n {
      DivBounds(i, size);
      LessByFactor(i / size, pages, size);
    }
  }

  /** The page of position `i` starts at or before `i` and ends after it. */
  lemma DivBounds(i: nat, size: nat)
    requires size > 0
    ensures (i / size) * size <= i < (i / size) * size + size
  {
  }

  /** Multiplying by a natural number keeps a non-strict inequality. */
  lemma MulMonotone(a: nat, b: nat, c: nat)
    requires a <= b
    ensures a * c <= b * c
  {
  }

  /** Cancelling a positive factor keeps a strict inequality. */
  lemma LessByFactor(a: nat, b: nat, c: nat)
    requires c > 0 && a * c < b * c
    ensures a < b
  {
  }

  /** `page * pageSize`, the index of the first feature of a page. */
  function PageStart(page: int, size: int): int {
    page * size
  }

  /** A page count as the table's state holds it: a JavaScript number
      that is `undefined`, `NaN`, `Infinity` or a whole number. */
  datatype PageTotal = Undefined | NaN | Infinite | Total(n: int)

  /** `Math.ceil(count / size)` on JavaScript numbers: `undefined / size`
      is `NaN`, and dividing by a page size of 0 gives `NaN` for no
      features and `Infinity` otherwise. */
  function Ceil(count: Option<nat>, size: nat): (pages: PageTotal)
    ensures pages.NaN? <==> count.None? || (size == 0 && count.value == 0)
    ensures pages.Infinite? <==> count.Some? && size == 0 && count.value > 0
    ensures pages.Total? ==> size > 0 && pages.n == PageCount(count.value, size)
    ensures !pages.Undefined?
  {
    if count.None? then NaN
    else if size == 0 then (if count.value == 0 then NaN else Infinite)
    else Total(PageCount(count.value, size))
  }

  /** The page count `_onTableChange` stores: `undefined` when the layer's
      feature count is missing or zero, and otherwise the count over the
      page size, rounded up. */
  function TablePages(numberOfFeatures: Option<nat>, size: nat): (pages: PageTotal)
    ensures pages.Undefined? <==> numberOfFeatures.None? || numberOfFeatures.value == 0
    ensures pages.Infinite? <==> numberOfFeatures.Some? && numberOfFeatures.value > 0 && size == 0
    ensures size > 0 && !pages.Undefined? ==>
              pages == Total(PageCount(numberOfFeatures.value, size)) && pages.n > 0
  {
    if numberOfFeatures.Some? && numberOfFeatures.value != 0
    then Ceil(numberOfFeatures, size) else Undefined
  }

  /** `s` without the first occurrence of `x`: a once-listener that has
      run is removed, and the others registered for the same layer stay. */
  function RemoveFirst(s: seq<string>, x: string): (r: seq<string>)
    ensures x in s ==> multiset(r) == multiset(s) - multiset{x} && |r| == |s| - 1
    ensures x !in s ==> r == s
  {
    if s == [] then []
    else
      assert s == [s[0]] + s[1..];
      if s[0] == x then s[1..] else [s[0]] + RemoveFirst(s[1..], x)
  }

  /** A layer's title: `null`, `undefined`, or a string. */
  datatype Title = NullTitle | NoTitle | Titled(text: string)

  /** What `_filterLayerList` reads of a layer. */
  datatype LayerInfo = LayerInfo(visible: bool, title: Title, isVector: bool, hasWfsInfo: bool)

  /** `_filterLayerList(lyr)`: visible layers whose title is not `null`
      that are vector layers or have WFS information. */
  predicate FilterLayerList(l: LayerInfo) {
    l.visible && l.title != NullTitle && (l.isVector || l.hasWfsInfo)
  }

  /** Only a `null` title excludes a layer: a visible vector or WFS layer
      without any title (`undefined`) is listed. */
  lemma FilterLayerListTitles(l: LayerInfo)
    requires l.visible && (l.isVector || l.hasWfsInfo)
    ensures FilterLayerList(l) <==> !l.title.NullTitle?
    ensures FilterLayerList(l.(title := NoTitle))
  {
  }

  /** The table's instance fields and state, and the calls it has made on
      the feature store. */
  class Table {
    var layer: Option<string>
    var selectedOnly: bool
    var filtered: bool
    var filteredRows: seq<Row>
    var error: bool
    var errorOpen: bool
    var pageSize: nat
    var pages: PageTotal
    /** The layers with a `change:numberOfFeatures` listener registered by
        `_setLayer` that has not run yet, one entry per registration. */
    var pending: seq<string>
    var storeCalls: seq<StoreCall>

    /** The constructor: the initial page size, `pages` -1, nothing
      selected or filtered. An unset `_filtered` is falsy. */
    constructor(initialPageSize: nat)
      ensures layer.None? && !selectedOnly && !filtered && filteredRows == []
      ensures !error && !errorOpen && pageSize == initialPageSize && pages == Total(-1)
      ensures pending == [] && storeCalls == []
    {
      layer := None;
      selectedOnly := false;
      filtered := false;
      filteredRows := [];
      error := false;
      errorOpen := false;
      pageSize := initialPageSize;
      pages := Total(-1);
      pending := [];
      storeCalls := [];
    }

    /** `_setLayer(layer)`: adds a non-null layer to the store and, when
      it does not have a feature count yet, registers a one-time listener
      on it for the count. Listeners registered for earlier layers stay
      registered. */
    method SetLayer(newLayer: Option<string>, numberOfFeatures: Option<nat>)
      modifies this
      ensures layer == newLayer
      ensures storeCalls == old(storeCalls) + (if newLayer.Some? then [AddLayer(newLayer.value, selectedOnly)] else [])
      ensures pending == old(pending) +
        (if newLayer.Some? && (numberOfFeatures.None? || numberOfFeatures.value == 0) then [newLayer.value] else [])
      ensures selectedOnly == old(selectedOnly) && filtered == old(filtered) && filteredRows == old(filteredRows)
      ensures error == old(error) && errorOpen == old(errorOpen)
      ensures pageSize == old(pageSize) && pages == old(pages)
    {
      layer := newLayer;
      if newLayer.Some? {
        storeCalls := storeCalls + [AddLayer(newLayer.value, selectedOnly)];
        if numberOfFeatures.None? || numberOfFeatures.value == 0 {
          pending := pending + [newLayer.value];
        }
      }
    }

    /** Layer `fired` changes its feature count and one of its pending
      listeners runs, once: the listener reads the count of the table's
      CURRENT layer, `count`, whichever layer registered it, and throws
      when the current layer is `null`. Without a pending listener for
      `fired` nothing happens. */
    method OnNumberOfFeatures(fired: string, count: Option<nat>) returns (threw: bool)
      modifies this
      ensures fired !in old(pending) ==> !threw && pending == old(pending) && pages == old(pages)
      ensures fired in old(pending) ==> pending == RemoveFirst(old(pending), fired)
      ensures fired in old(pending) ==> (threw <==> layer.None?)
      ensures fired in old(pending) && layer.Some? ==> pages == Ceil(count, pageSize)
      ensures layer.None? ==> pages == old(pages)
      ensures layer == old(layer) && selectedOnly == old(selectedOnly) && filtered == old(filtered)
      ensures filteredRows == old(filteredRows) && error == old(error) && errorOpen == old(errorOpen)
      ensures pageSize == old(pageSize) && storeCalls == old(storeCalls)
    {
      if fired !in pending {
        return false;
      }
      pending := RemoveFirst(pending, fired);
      if layer.None? {
        return true;
      }
      pages := Ceil(count, pageSize);
      return false;
    }

    /** `_onTableChange(state)`: asks the store for the page's features,
      starting at `page * pageSize`; nothing without a layer. */
    method OnTableChange(page: nat, size: nat) returns (start: Option<int>)
      modifies this
      ensures layer.None? ==> start.None? && storeCalls == old(storeCalls)
      ensures layer.Some? ==> start == Some(PageStart(page, size))
                              && storeCalls == old(storeCalls) + [LoadFeatures(layer.value, page * size, size)]
      ensures layer == old(layer) && selectedOnly == old(selectedOnly) && filtered == old(filtered)
      ensures filteredRows == old(filteredRows) && error == old(error) && errorOpen == old(errorOpen)
      ensures pageSize == old(pageSize) && pages == old(pages) && pending == old(pending)
    {
      if layer.None? {
        return None;
      }
      var first := page * size;
      storeCalls := storeCalls + [LoadFeatures(layer.value, first, size)];
      return Some(first);
    }

    /** The success callback of `_onTableChange`: the new page size and the
      page count from the layer's feature count. */
    method OnPageLoaded(size: nat, numberOfFeatures: Option<nat>)
      modifies this
      ensures pageSize == size
      ensures pages == TablePages(numberOfFeatures, size)
      ensures layer == old(layer) && selectedOnly == old(selectedOnly) && filtered == old(filtered)
      ensures filteredRows == old(filteredRows) && error == old(error) && errorOpen == old(errorOpen)
      ensures storeCalls == old(storeCalls) && pending == old(pending)
    {
      pageSize := size;
      if numberOfFeatures.Some? && numberOfFeatures.value != 0 {
        pages := Ceil(numberOfFeatures, size);
      } else {
        pages := Undefined;
      }
    }

    /** `_updateStoreFilter()`. */
    method UpdateStoreFilter()
      modifies this
      ensures storeCalls == old(storeCalls) + [StoreFilterCall(layer, filtered, selectedOnly, filteredRows)]
      ensures layer == old(layer) && selectedOnly == old(selectedOnly) && filtered == old(filtered)
      ensures filteredRows == old(filteredRows) && error == old(error) && errorOpen == old(errorOpen)
      ensures pageSize == old(pageSize) && pages == old(pages) && pending == old(pending)
    {
      if !filtered {
        if selectedOnly {
          storeCalls := storeCalls + [SetSelectedAsFilter(layer)];
        } else {
          storeCalls := storeCalls + [RestoreOriginalFeatures(layer)];
        }
      } else {
        storeCalls := storeCalls + [SetFilter(layer, filteredRows)];
      }
    }

    /** `_filter(evt, isInputChecked)`: shows only the selected features or
      all of them, and updates the store's filter. */
    method Filter(isInputChecked: bool)
      modifies this
      ensures selectedOnly == isInputChecked
      ensures storeCalls == old(storeCalls) + [StoreFilterCall(layer, filtered, isInputChecked, filteredRows)]
      ensures layer == old(layer) && filtered == old(filtered)
      ensures filteredRows == old(filteredRows) && error == old(error) && errorOpen == old(errorOpen)
      ensures pageSize == old(pageSize) && pages == old(pages) && pending == old(pending)
    {
      selectedOnly := isInputChecked;
      UpdateStoreFilter();
    }

    /** `_clearSelected()`: clears the selection only when something is
      selected. Reading the length of a selection that is still `null`
      throws. */
    method ClearSelected(selected: Option<seq<Row>>) returns (threw: bool)
      modifies this
      ensures threw <==> selected.None?
      ensures storeCalls == old(storeCalls) +
        (if selected.Some? && |selected.value| > 0 then [ClearSelection(layer, selectedOnly)] else [])
      ensures layer == old(layer) && selectedOnly == old(selectedOnly) && filtered == old(filtered)
      ensures filteredRows == old(filteredRows) && error == old(error) && errorOpen == old(errorOpen)
      ensures pageSize == old(pageSize) && pages == old(pages) && pending == old(pending)
    {
      if selected.None? {
        return true;
      }
      if |selected.value| > 0 {
        storeCalls := storeCalls + [ClearSelection(layer, selectedOnly)];
      }
      return false;
    }

    /** `_filterByText(evt)`: the rows come from the selection or from all
      features; an empty expression keeps them all; an expression that
      does not compile sets the error flags and keeps none; a compiled one
      clears the error flags and keeps the rows the filter passes. The
      table counts as filtered when rows were dropped, and the store is
      given the kept rows. Reading the rows of a layer the store does not
      know throws. */
    method FilterByText(filterBy: string, store: Option<StoreState>, compile: string -> FilterOutcome)
      returns (threw: bool)
      modifies this
      ensures threw <==> store.None?
      ensures store.None? ==> storeCalls == old(storeCalls) && filtered == old(filtered)
                              && filteredRows == old(filteredRows)
                              && error == old(error) && errorOpen == old(errorOpen)
      ensures store.Some? ==>
        var rows := if old(selectedOnly) then store.value.selected else store.value.features;
        && filteredRows == FilteredBy(rows, filterBy, compile)
        && filtered == (|rows| != |filteredRows|)
        && storeCalls == old(storeCalls) + [SetFilter(layer, filteredRows)]
        && (filterBy == "" ==> error == old(error) && errorOpen == old(errorOpen))
        && (filterBy != "" ==> error == errorOpen == compile(QuotesNormalised(filterBy)).Throws?)
      ensures layer == old(layer) && selectedOnly == old(selectedOnly)
      ensures pageSize == old(pageSize) && pages == old(pages) && pending == old(pending)
    {
      if store.None? {
        return true;
      }
      var rows := if selectedOnly then store.value.selected else store.value.features;
      var kept: seq<Row> := [];
      if filterBy != "" {
        var queryFilter := compile(QuotesNormalised(filterBy));
        if queryFilter.Throws? {
          errorOpen := true;
          error := true;
        } else {
          errorOpen := false;
          error := false;
          var i := 0;
          while i < |rows|
            invariant 0 <= i <= |rows|
            invariant kept == FilterRows(rows[..i], queryFilter.test)
          {
            assert rows[..i + 1][..i] == rows[..i];
            var row := rows[i];
            if row.Some? {
              if queryFilter.test(row.value.properties) {
                kept := kept + [row];
              }
            }
            i := i + 1;
          }
          assert rows[..i] == rows;
        }
      } else {
        kept := rows;
      }
      filtered := |rows| != |kept|;
      filteredRows := kept;
      storeCalls := storeCalls + [SetFilter(layer, kept)];
      return false;
    }
  }

  /** After filtering by an expression that keeps every row, updating the
      store filter no longer applies rows: it applies the selection or the
      original features, as the checkbox says. */
  lemma UnfilteredUpdate(layer: Option<string>, rows: seq<Row>, filterBy: string,
                         compile: string -> FilterOutcome, selectedOnly: bool)
    requires filterBy != "" && compile(QuotesNormalised(filterBy)).Predicate?
    requires forall i :: 0 <= i < |rows| ==> Keep(rows[i], compile(QuotesNormalised(filterBy)).test)
    ensures var kept := FilteredBy(rows, filterBy, compile);
      kept == rows &&
      StoreFilterCall(layer, |rows| != |kept|, selectedOnly, kept) ==
        (if selectedOnly then SetSelectedAsFilter(layer) else RestoreOriginalFeatures(layer))
  {
    FilterRowsKeepsAll(rows, compile(QuotesNormalised(filterBy)).test);
  }
}
