/** The dashboard's mutable state and the event handlers that change it:
    the view switch, the sketch `update` handler, the settlement of the
    spatial queries it issues, the result-list rebuild and the list click
    with its navigation. Queries and navigations are asynchronous: issuing one
    records it as pending, and any pending one may settle next. */
module App {
  import opened Features
  import opened Aggregate
  import opened Views
  import opened Selection
  import opened ResultList

  /** An open popup: the features it shows and where it is anchored. */
  datatype Popup = Popup(features: seq<Feature>, location: Point)

  /** How the layer-view query behind the result list settles. */
  datatype ListOutcome = Listed(features: seq<Feature>) | ListRejected(error: JsError)

  /** How a `goTo` navigation settles. */
  datatype NavigationOutcome = Arrived | NavigationRejected(error: JsError)

  /** What the handlers write to the console. */
  datatype LogEntry = QueryFailed(error: JsError) | ListQueryFailed(error: JsError) | NavigationFailed(error: JsError)

  /** The navigation errors that are reported: every one but a user abort. */
  predicate IsReported(error: JsError)
  {
    error.name != "AbortError"
  }

  /** A MapView or a SceneView: its container, its camera, its graphics
      overlay and its popup. */
  class View {
    const kind: Mode
    var container: Option<string>
    var viewpoint: Viewpoint
    var graphics: seq<Feature>
    var popup: Option<Popup>

    constructor (kind: Mode, container: Option<string>, viewpoint: Viewpoint)
      ensures this.kind == kind && this.container == container && this.viewpoint == viewpoint
      ensures graphics == [] && popup == None
    {
      this.kind := kind;
      this.container := container;
      this.viewpoint := viewpoint;
      graphics := [];
      popup := None;
    }
  }

  class Dashboard {
    const mapView: View
    const sceneView: View
    var activeView: View
    /** The feature layer's spatial query: the features that intersect a geometry. */
    const query: Geometry -> seq<Feature>
    /** The renderer of the GeoJSON layer, the first layer of the map both views share. */
    var layerRenderer: Renderer
    /** The value of the switch button. */
    var buttonValue: string
    /** Whether the chart panel is visible. */
    var panelVisible: bool
    /** The chart last drawn, if any. */
    var chart: Option<Chart>
    /** The graphics on the sketch layer. */
    var sketchLayer: seq<SketchGraphic>
    /** Geometries of spatial queries issued and not yet settled. */
    var pending: seq<Geometry>
    /** Result-list queries issued and not yet settled. */
    var listQueries: nat
    /** The script's `graphics`: the features behind the result list, unset at first. */
    var listGraphics: Option<seq<Feature>>
    /** The entries of the result list. */
    var listEntries: seq<ListEntry>
    /** Features of `goTo` navigations started and not yet settled. */
    var navigations: seq<Feature>
    /** The console. */
    var log: seq<LogEntry>

    ghost function ViewSnapshot(): ViewState
      reads this`activeView, this`layerRenderer, this`buttonValue
      reads mapView`container, mapView`viewpoint, sceneView`container, sceneView`viewpoint
    {
      ViewState(activeView.kind, ViewSlot(mapView.container, mapView.viewpoint),
                      ViewSlot(sceneView.container, sceneView.viewpoint), layerRenderer, buttonValue)
    }

    ghost function SelectionSnapshot(): SelectionState
      reads this`panelVisible, this`chart, mapView`graphics, this`sketchLayer, this`pending
    {
      SelectionState(panelVisible, chart, mapView.graphics, sketchLayer, pending)
    }

    /** Two distinct views of the right kinds, the active one among them;
        exactly the active view is bound and the renderer matches its mode;
        the list shows one entry per stored feature. */
    ghost predicate Valid()
      reads this`activeView, this`layerRenderer, this`buttonValue, this`listGraphics, this`listEntries
      reads mapView`container, mapView`viewpoint, sceneView`container, sceneView`viewpoint
    {
      && mapView != sceneView
      && mapView.kind == TwoD && sceneView.kind == ThreeD
      && (activeView == mapView || activeView == sceneView)
      && Coherent(ViewSnapshot())
      && listEntries == (if listGraphics.Some? then Entries(listGraphics.value) else [])
    }

    /** Setup: the 2D view is created bound to the screen and made active, the
        layer gets `renderer2D`, the 3D view is created without a container.
        The button value and the panel's visibility come from the page. */
    constructor (query: Geometry -> seq<Feature>, initialButtonValue: string, panelInitiallyVisible: bool)
      ensures Valid() && fresh(mapView) && fresh(sceneView)
      ensures this.query == query
      ensures ViewSnapshot() == Initial(initialButtonValue) && activeView == mapView
      ensures SelectionSnapshot() == SelectionState(panelInitiallyVisible, None, [], [], [])
      ensures listQueries == 0 && listGraphics == None && listEntries == [] && navigations == []
      ensures mapView.popup == None && sceneView.popup == None && sceneView.graphics == [] && log == []
    {
      mapView := new View(TwoD, Some(Screen), InitialViewpoint);
      sceneView := new View(ThreeD, None, InitialViewpoint);
      this.query := query;
      activeView := mapView;
      layerRenderer := Renderer2D;
      buttonValue := initialButtonValue;
      panelVisible := panelInitiallyVisible;
      chart := None;
      sketchLayer := [];
      pending := [];
      listQueries := 0;
      listGraphics := None;
      listEntries := [];
      navigations := [];
      log := [];
    }

    /** `switchView`: clone the active camera, detach the active view, bind the
        other one with that camera, re-apply its renderer and relabel the
        button. Nothing outside the view state changes. */
    method SwitchView()
      requires Valid()
      modifies this`activeView, this`layerRenderer, this`buttonValue
      modifies mapView`container, mapView`viewpoint, sceneView`container, sceneView`viewpoint
      ensures Valid()
      ensures ViewSnapshot() == Switched(old(ViewSnapshot()))
      ensures activeView == (if old(activeView) == mapView then sceneView else mapView)
    {
      var is3D := activeView.kind == ThreeD;
      var activeViewpoint := activeView.viewpoint;
      activeView.container := None;
      if is3D {
        mapView.viewpoint := activeViewpoint;
        mapView.container := Some(Screen);
        activeView := mapView;
        layerRenderer := Renderer2D;
        buttonValue := "3D";
      } else {
        sceneView.viewpoint := activeViewpoint;
        sceneView.container := Some(Screen);
        activeView := sceneView;
        layerRenderer := Renderer3D;
        buttonValue := "2D";
      }
    }

    /** `queryFeaturelayer`: issue a spatial query for `geometry`. */
    method QueryFeatureLayer(geometry: Geometry)
      modifies this`pending
      ensures pending == old(pending) + [geometry]
    {
      pending := pending + [geometry];
    }

    /** The Sketch widget, which owns the sketch layer, puts a finished
        drawing on it. */
    method SketchDraws(g: SketchGraphic)
      modifies this`sketchLayer
      ensures sketchLayer == old(sketchLayer) + [g]
    {
      sketchLayer := sketchLayer + [g];
    }

    /** The sketch `update` handler, checking each condition on its own as the script does. */
    method HandleSketchUpdate(e: SketchEvent)
      requires |e.graphics| > 0
      modifies this`pending, this`sketchLayer, this`panelVisible, mapView`graphics
      ensures SelectionSnapshot() == OnSketchUpdate(old(SelectionSnapshot()), e)
    {
      var g := e.graphics[0];
      ghost var s := SelectionSnapshot();
      if e.state == "start" {
        QueryFeatureLayer(g.geometry);
        s := Issue(s, g.geometry);
      }
      assert SelectionSnapshot() == s;
      if IsComplete(e) {
        sketchLayer := RemoveFirst(sketchLayer, g);
        panelVisible := false;
        mapView.graphics := [];
        s := Reset(s, g);
      }
      assert SelectionSnapshot() == s;
      if IsTransformStop(e) {
        QueryFeatureLayer(g.geometry);
        s := Issue(s, g.geometry);
      }
    }

    /** `displayResults`: give every result the blue fill, clear the 2D
        view's graphics and add the results. */
    method DisplayResults(features: seq<Feature>)
      modifies mapView`graphics
      ensures mapView.graphics == Highlighted(features)
    {
      var shown := Highlighted(features);
      mapView.graphics := [];
      mapView.graphics := mapView.graphics + shown;
    }

    /** The settlement of the pending query `k`: the `then` branch (panel,
        chart through `sumData`, `displayResults`) or the `catch` branch,
        which only logs. */
    method SettleQuery(k: nat, outcome: QueryOutcome)
      requires k < |pending| && (outcome.Resolved? ==> AllCounted(query(pending[k])))
      modifies this`pending, this`panelVisible, this`chart, mapView`graphics, this`log
      ensures SelectionSnapshot() == OnQuerySettled(old(SelectionSnapshot()), k, outcome, query)
      ensures log == old(log) + (if outcome.Rejected? then [QueryFailed(outcome.error)] else [])
    {
      var geometry := pending[k];
      pending := pending[..k] + pending[k + 1..];
      match outcome {
        case Rejected(error) =>
          log := log + [QueryFailed(error)];
        case Resolved =>
          var features := query(geometry);
          if |features| > 0 {
            panelVisible := true;
            var sum := SumData(features);
            chart := Some(Chart(ChartCategories, sum));
          }
          DisplayResults(features);
      }
    }

    /** The layer view's `updating` watcher: when updating stops, a query for
        the features in the active view's extent is issued. */
    method OnLayerViewUpdating(updating: bool)
      modifies this`listQueries
      ensures listQueries == old(listQueries) + (if updating then 0 else 1)
    {
      if !updating {
        listQueries := listQueries + 1;
      }
    }

    /** A result-list query settles. On success the features are stored and
        the list is replaced by one entry per feature; on failure the error is
        logged and the list stays as it was. */
    method SettleListQuery(outcome: ListOutcome)
      requires Valid() && listQueries > 0
      modifies this`listQueries, this`listGraphics, this`listEntries, this`log
      ensures Valid()
      ensures listQueries == old(listQueries) - 1
      ensures outcome.Listed? ==>
        listGraphics == Some(outcome.features) && listEntries == Entries(outcome.features) && log == old(log)
      ensures outcome.ListRejected? ==>
        listGraphics == old(listGraphics) && listEntries == old(listEntries)
        && log == old(log) + [ListQueryFailed(outcome.error)]
    {
      listQueries := listQueries - 1;
      match outcome {
        case Listed(features) =>
          listGraphics := Some(features);
          var fragment := BuildEntries(features);
          listEntries := [];
          listEntries := listEntries + fragment;
        case ListRejected(error) =>
          log := log + [ListQueryFailed(error)];
      }
    }

    /** `onListClickHandler`: the clicked id selects a stored feature, and a
        navigation to it starts; a missing id, an unset list or an index out
        of range does nothing. */
    method OnListClick(resultId: Option<int>) returns (result: Option<Feature>)
      modifies this`navigations
      ensures result == Lookup(resultId, listGraphics)
      ensures navigations == old(navigations) + (if result.Some? then [result.value] else [])
    {
      result := Lookup(resultId, listGraphics);
      if result.Some? {
        navigations := navigations + [result.value];
      }
    }

    /** The navigation `k` settles. On arrival the view active at that moment
        opens its popup on the feature, at the feature's centroid. On failure
        the error is logged unless it is a user abort. */
    method SettleNavigation(k: nat, outcome: NavigationOutcome)
      requires Valid() && k < |navigations|
      modifies this`navigations, this`log, mapView`popup, sceneView`popup
      ensures navigations == old(navigations[..k] + navigations[k + 1..])
      ensures outcome.Arrived? ==>
        && activeView.popup == Some(Popup([old(navigations[k])], old(navigations[k]).geometry.centroid))
        && (if activeView == mapView then sceneView.popup == old(sceneView.popup) else mapView.popup == old(mapView.popup))
        && log == old(log)
      ensures outcome.NavigationRejected? ==>
        && mapView.popup == old(mapView.popup) && sceneView.popup == old(sceneView.popup)
        && log == old(log) + (if IsReported(outcome.error) then [NavigationFailed(outcome.error)] else [])
    {
      var result := navigations[k];
      navigations := navigations[..k] + navigations[k + 1..];
      match outcome {
        case Arrived =>
          activeView.popup := Some(Popup([result], result.geometry.centroid));
        case NavigationRejected(error) =>
          if error.name != "AbortError" {
            log := log + [NavigationFailed(error)];
          }
      }
    }
  }
}
