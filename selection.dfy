/** The selection controller: which sketch `update` events issue a spatial
    query and which reset the panel, how the drawn graphic leaves the sketch
    layer, and what the highlight overlay and the chart receive when a query
    resolves. */
module Selection {
  import opened Features
  import opened Aggregate

  /** A graphic on the sketch layer: the shape the user draws. */
  datatype SketchGraphic = SketchGraphic(id: nat, geometry: Geometry)

  /** `event.toolEventInfo`, whose `type` names the transform that ran. */
  datatype ToolEventInfo = ToolEventInfo(kind: string)

  /** A Sketch widget `update` event: its `state` ('start', 'active',
      'complete'), the graphics being updated and the optional tool info. */
  datatype SketchEvent = SketchEvent(state: string, graphics: seq<SketchGraphic>, toolEventInfo: Option<ToolEventInfo>)

  /** The event ends a scale, reshape or move. */
  predicate IsTransformStop(e: SketchEvent)
  {
    e.toolEventInfo.Some? &&
    (e.toolEventInfo.value.kind == "scale-stop" ||
     e.toolEventInfo.value.kind == "reshape-stop" ||
     e.toolEventInfo.value.kind == "move-stop")
  }

  /** The geometries the handler queries for, in issue order: one for a
      'start' state and one for a transform stop, checked independently. */
  function QueriesFor(e: SketchEvent): (qs: seq<Geometry>)
    requires |e.graphics| > 0
    ensures |qs| == (if e.state == "start" then 1 else 0) + (if IsTransformStop(e) then 1 else 0)
    ensures qs == [] <==> e.state != "start" && !IsTransformStop(e)
    ensures forall i :: 0 <= i < |qs| ==> qs[i] == e.graphics[0].geometry
  {
    var g := e.graphics[0].geometry;
    (if e.state == "start" then [g] else []) + (if IsTransformStop(e) then [g] else [])
  }

  /** The event resets the panel and the highlights. */
  predicate IsComplete(e: SketchEvent)
  {
    e.state == "complete"
  }

  /** `layer.remove(g)`: the first occurrence of `g` goes, the rest keep their
      order; a graphic that is not on the layer leaves it as it is. */
  function RemoveFirst(layer: seq<SketchGraphic>, g: SketchGraphic): (r: seq<SketchGraphic>)
    ensures g !in layer ==> r == layer
    ensures g in layer ==> |r| == |layer| - 1
  {
    if layer == [] then []
    else
      assert layer == [layer[0]] + layer[1..];
      if layer[0] == g then layer[1..]
      else [layer[0]] + RemoveFirst(layer[1..], g)
  }

  /** It is the first occurrence of `g` that goes: the graphics before it and
      the graphics after it stay, in their order. */
  lemma {:induction false} RemoveFirstRemovesFirst(before: seq<SketchGraphic>, g: SketchGraphic, after: seq<SketchGraphic>)
    requires g !in before
    ensures RemoveFirst(before + [g] + after, g) == before + after
  {
    var layer := before + [g] + after;
    if before == [] {
      assert layer == [g] + after;
    } else {
      assert layer[0] == before[0] != g;
      assert layer[1..] == before[1..] + [g] + after;
      assert g !in before[1..] by {
        assert forall i :: 0 <= i < |before[1..]| ==> before[1..][i] == before[i + 1];
      }
      RemoveFirstRemovesFirst(before[1..], g, after);
      assert before + after == [before[0]] + (before[1..] + after);
    }
  }

  /** Removal takes exactly one copy of `g` off the layer, when there is one. */
  lemma {:induction false} RemoveFirstMultiset(layer: seq<SketchGraphic>, g: SketchGraphic)
    ensures multiset(RemoveFirst(layer, g)) == multiset(layer) - multiset{g}
  {
    if layer != [] {
      assert layer == [layer[0]] + layer[1..];
      if layer[0] != g {
        RemoveFirstMultiset(layer[1..], g);
      }
    }
  }

  /** The symbol `displayResults` gives every result: a half-transparent blue
      fill with a white outline half a point wide. */
  const BlueFill: Fill := Fill(20, 130, 200, 50, "white", 5)

  /** The results as the highlight overlay shows them: each feature, in
      order, carrying the blue fill. */
  function Highlighted(fs: seq<Feature>): (r: seq<Feature>)
    ensures |r| == |fs|
    ensures forall i :: 0 <= i < |fs| ==>
      r[i].geometry == fs[i].geometry && r[i].attributes == fs[i].attributes && r[i].symbol == Some(BlueFill)
  {
    if fs == [] then [] else [fs[0].(symbol := Some(BlueFill))] + Highlighted(fs[1..])
  }

  /** The category axis of the bar chart, one label per total of `sumData`. */
  const ChartCategories: seq<string> := ["男性人口", "女性人口", "城镇人口", "乡村人口", "城区人口"]

  /** The bar chart `createChart` draws: the category axis and the bar heights. */
  datatype Chart = Chart(categories: seq<string>, values: seq<int>)

  /** What the selection controller owns: the chart panel's visibility, the
      chart, the 2D view's graphics overlay, the sketch layer and the spatial
      queries issued and not yet settled. */
  datatype SelectionState = SelectionState(
    panelVisible: bool,
    chart: Option<Chart>,
    highlights: seq<Feature>,
    sketchLayer: seq<SketchGraphic>,
    pending: seq<Geometry>)

  /** How a spatial query settles: resolved with what the layer's query
      function gives for its geometry, or rejected with an error. */
  datatype QueryOutcome = Resolved | Rejected(error: JsError)

  /** `queryFeaturelayer`: a spatial query for `geometry` is issued and pending. */
  function Issue(s: SelectionState, geometry: Geometry): (r: SelectionState)
    ensures r.pending == s.pending + [geometry] && r == s.(pending := r.pending)
  {
    s.(pending := s.pending + [geometry])
  }

  /** The 'complete' branch: the graphic leaves the sketch layer, the panel
      is hidden and the highlights are cleared. */
  function Reset(s: SelectionState, g: SketchGraphic): (r: SelectionState)
    ensures !r.panelVisible && r.highlights == [] && r.sketchLayer == RemoveFirst(s.sketchLayer, g)
    ensures r.pending == s.pending && r.chart == s.chart
  {
    s.(sketchLayer := RemoveFirst(s.sketchLayer, g), panelVisible := false, highlights := [])
  }

  /** The sketch `update` handler as its three independent tests: 'start'
      issues a query for the first graphic, 'complete' resets, a transform
      stop issues a query again. */
  function OnSketchUpdate(s: SelectionState, e: SketchEvent): (r: SelectionState)
    requires |e.graphics| > 0
    ensures r.chart == s.chart
    ensures IsComplete(e) ==> !r.panelVisible && r.highlights == []
    ensures !IsComplete(e) ==> r.panelVisible == s.panelVisible && r.highlights == s.highlights
  {
    var g := e.graphics[0];
    var started := if e.state == "start" then Issue(s, g.geometry) else s;
    var completed := if IsComplete(e) then Reset(started, g) else started;
    if IsTransformStop(e) then Issue(completed, g.geometry) else completed
  }

  /** What an update does: it issues the queries `QueriesFor` names, in order,
      and leaves the chart alone; 'complete' takes the graphic off the sketch
      layer, hides the panel and clears the highlights; any other state
      changes nothing but the pending queries. */
  lemma {:induction false} SketchUpdateEffect(s: SelectionState, e: SketchEvent)
    requires |e.graphics| > 0
    ensures var r := OnSketchUpdate(s, e);
      && r.pending == s.pending + QueriesFor(e) && r.chart == s.chart
      && (IsComplete(e) ==>
          !r.panelVisible && r.highlights == [] && r.sketchLayer == RemoveFirst(s.sketchLayer, e.graphics[0]))
      && (!IsComplete(e) ==> r == s.(pending := r.pending))
  {
    var g := e.graphics[0];
    var first := if e.state == "start" then [g.geometry] else [];
    var second := if IsTransformStop(e) then [g.geometry] else [];
    var started := if e.state == "start" then Issue(s, g.geometry) else s;
    assert started.pending == s.pending + first;
    var completed := if IsComplete(e) then Reset(started, g) else started;
    assert completed.pending == s.pending + first;
    assert OnSketchUpdate(s, e).pending == s.pending + first + second;
    assert QueriesFor(e) == first + second;
  }

  /** An update that neither starts, completes nor ends a transform (an
      'active' drag, say) changes nothing. */
  lemma IgnoredUpdateChangesNothing(s: SelectionState, e: SketchEvent)
    requires |e.graphics| > 0 && e.state != "start" && !IsComplete(e) && !IsTransformStop(e)
    ensures OnSketchUpdate(s, e) == s
  {
    SketchUpdateEffect(s, e);
  }

  /** The settlement of pending query `k` against the layer's `query`
      function. Resolved with n features: when n > 0 the panel is shown and
      the chart gets the features' totals, when n = 0 the panel and the chart
      stay as they were; either way the highlights become exactly the
      features. Rejected: only the pending list changes. */
  function OnQuerySettled(s: SelectionState, k: nat, outcome: QueryOutcome, query: Geometry -> seq<Feature>): (r: SelectionState)
    requires k < |s.pending| && (outcome.Resolved? ==> AllCounted(query(s.pending[k])))
    ensures r.pending == s.pending[..k] + s.pending[k + 1..] && r.sketchLayer == s.sketchLayer
    ensures outcome.Rejected? ==> r == s.(pending := r.pending)
    ensures outcome.Resolved? ==>
      var fs := query(s.pending[k]);
      && r.highlights == Highlighted(fs)
      && r.panelVisible == (|fs| > 0 || s.panelVisible)
      && r.chart == (if |fs| > 0 then Some(Chart(ChartCategories, Totals(fs))) else s.chart)
  {
    var settled := s.(pending := s.pending[..k] + s.pending[k + 1..]);
    match outcome
    case Rejected(_) => settled
    case Resolved =>
      var fs := query(s.pending[k]);
      var shown := if |fs| > 0
        then settled.(panelVisible := true, chart := Some(Chart(ChartCategories, Totals(fs))))
        else settled;
      shown.(highlights := Highlighted(fs))
  }

  /** A shape started and completed before its query resolves does not stay
      reset: the late result shows the panel and the highlights again. */
  lemma StaleResultAfterComplete(s: SelectionState, g: SketchGraphic, query: Geometry -> seq<Feature>)
    requires s.pending == [] && AllCounted(query(g.geometry)) && |query(g.geometry)| > 0
    ensures
      var started := OnSketchUpdate(s, SketchEvent("start", [g], None));
      var completed := OnSketchUpdate(started, SketchEvent("complete", [g], None));
      && !completed.panelVisible && completed.highlights == [] && completed.pending == [g.geometry]
      && OnQuerySettled(completed, 0, Resolved, query).panelVisible
      && OnQuerySettled(completed, 0, Resolved, query).highlights == Highlighted(query(g.geometry))
  {
  }

  /** Nothing orders the settlements: when two queries are in flight, the
      highlights show the result of whichever resolves last, whichever was
      issued last. */
  lemma {:induction false} LastSettledWins(s: SelectionState, query: Geometry -> seq<Feature>)
    requires |s.pending| == 2
    requires AllCounted(query(s.pending[0])) && AllCounted(query(s.pending[1]))
    ensures OnQuerySettled(OnQuerySettled(s, 0, Resolved, query), 0, Resolved, query).highlights
            == Highlighted(query(s.pending[1]))
    ensures OnQuerySettled(OnQuerySettled(s, 1, Resolved, query), 0, Resolved, query).highlights
            == Highlighted(query(s.pending[0]))
  {
    assert OnQuerySettled(s, 0, Resolved, query).pending == [s.pending[1]];
    assert OnQuerySettled(s, 1, Resolved, query).pending == [s.pending[0]];
  }
}
