/** The view coordinator `switchView`: two views (the 2D `mapView` and the 3D
    `sceneView`) share one screen container and one choropleth layer. A switch
    hands the container and the camera from the active view to the other one
    and re-applies the renderer of the new mode. This module states the switch
    on a snapshot of that state; the class `Dashboard` in module App performs it on
    the view objects. */
module Views {
  import opened Features

  /** A view's `type`: '2d' for the MapView, '3d' for the SceneView. */
  datatype Mode = TwoD | ThreeD

  function Other(m: Mode): Mode
  {
    if m == TwoD then ThreeD else TwoD
  }

  /** A camera state. It is only ever cloned and copied between views, so its
      components are kept abstract. */
  datatype Viewpoint = Viewpoint(centerX: real, centerY: real, zoom: real)

  /** The two renderers of the layer, as opaque tags: `renderer2D` (class
      breaks on total population) and `renderer3D` (extrusion with size and
      colour visual variables). */
  datatype Renderer = Renderer2D | Renderer3D

  /** The id of the one screen container both views use. */
  const Screen: string := "viewDiv"

  /** Both views are created from the same parameters: centre (100, 32), zoom 4. */
  const InitialViewpoint: Viewpoint := Viewpoint(100.0, 32.0, 4.0)

  /** The renderer a mode applies to the layer. */
  function RendererFor(m: Mode): Renderer
  {
    if m == TwoD then Renderer2D else Renderer3D
  }

  /** The text that names a mode on the switch button. */
  function LabelFor(m: Mode): string
  {
    if m == TwoD then "2D" else "3D"
  }

  /** What one view holds: its container (null when detached) and its camera. */
  datatype ViewSlot = ViewSlot(container: Option<string>, viewpoint: Viewpoint)

  /** The state `switchView` reads and writes: which view is active, both
      views' container and viewpoint, the layer's renderer and the button's value. */
  datatype ViewState = ViewState(
    active: Mode,
    mapView: ViewSlot,
    sceneView: ViewSlot,
    renderer: Renderer,
    buttonValue: string)

  function Slot(s: ViewState, m: Mode): ViewSlot
  {
    if m == TwoD then s.mapView else s.sceneView
  }

  /** Exactly one view holds the screen container, and it is the active one. */
  predicate Bound(s: ViewState)
  {
    Slot(s, s.active).container == Some(Screen) && Slot(s, Other(s.active)).container == None
  }

  /** The binding is right and the layer is drawn with the active mode's renderer. */
  predicate Coherent(s: ViewState)
  {
    Bound(s) && s.renderer == RendererFor(s.active)
  }

  /** The button offers the mode that is not active. */
  predicate LabelNamesNext(s: ViewState)
  {
    s.buttonValue == LabelFor(Other(s.active))
  }

  /** The camera of the active view. */
  function ActiveViewpoint(s: ViewState): Viewpoint
  {
    Slot(s, s.active).viewpoint
  }

  /** The state after setup: the 2D view is active and bound to the screen, the
      3D view has no container, the layer uses `renderer2D`; the button keeps
      whatever value the page gave it. */
  function Initial(initialValue: string): (s: ViewState)
    ensures Coherent(s) && s.active == TwoD && s.buttonValue == initialValue
    ensures ActiveViewpoint(s) == InitialViewpoint
  {
    ViewState(TwoD, ViewSlot(Some(Screen), InitialViewpoint), ViewSlot(None, InitialViewpoint),
              Renderer2D, initialValue)
  }

  /** One `switchView`: clone the active camera, detach the active view, bind
      the other view, give it the cloned camera, re-apply the renderer of its
      mode and let the button name the mode just left. */
  function Switched(s: ViewState): (r: ViewState)
    ensures r.active == Other(s.active)
    ensures ActiveViewpoint(r) == ActiveViewpoint(s)
    ensures Slot(r, s.active) == Slot(s, s.active).(container := None)
    ensures Coherent(r) && LabelNamesNext(r)
  {
    var activeViewpoint := ActiveViewpoint(s);
    if s.active == ThreeD then
      ViewState(TwoD, ViewSlot(Some(Screen), activeViewpoint), s.sceneView.(container := None),
                Renderer2D, "3D")
    else
      ViewState(ThreeD, s.mapView.(container := None), ViewSlot(Some(Screen), activeViewpoint),
                Renderer3D, "2D")
  }

  /** `n` switches in a row. */
  function SwitchedTimes(s: ViewState, n: nat): ViewState
  {
    if n == 0 then s else Switched(SwitchedTimes(s, n - 1))
  }

  /** Two switches in a row restore the mode, the renderer, the label and the
      binding of a coherent state; the view that was inactive meanwhile has
      taken on the active camera. */
  lemma SwitchTwiceRestores(s: ViewState)
    requires Coherent(s) && LabelNamesNext(s)
    ensures Switched(Switched(s)) == if s.active == TwoD
      then s.(sceneView := s.sceneView.(viewpoint := ActiveViewpoint(s)))
      else s.(mapView := s.mapView.(viewpoint := ActiveViewpoint(s)))
  {
  }

  /** From the initial state, after any number of switches exactly one view is
      bound and it is the active one, the renderer matches the mode, the modes
      alternate starting from 2D, and after the first switch the button names
      the inactive mode. */
  lemma {:induction false} SwitchesAlternate(initialValue: string, n: nat)
    ensures Coherent(SwitchedTimes(Initial(initialValue), n))
    ensures SwitchedTimes(Initial(initialValue), n).active == if n % 2 == 0 then TwoD else ThreeD
    ensures n > 0 ==> LabelNamesNext(SwitchedTimes(Initial(initialValue), n))
  {
    if n > 0 {
      SwitchesAlternate(initialValue, n - 1);
    }
  }

  /** Switching never changes the camera the user looks through. */
  lemma {:induction false} SwitchesKeepCamera(s: ViewState, n: nat)
    ensures ActiveViewpoint(SwitchedTimes(s, n)) == ActiveViewpoint(s)
  {
    if n > 0 {
      SwitchesKeepCamera(s, n - 1);
    }
  }
}
