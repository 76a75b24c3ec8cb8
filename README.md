# Population dashboard: a verified model of its state and handlers

The dashboard shows one choropleth layer of population data in two views:
- a 2D `MapView`;
- a 3D `SceneView`.

Both views share one screen container. A button switches between them. When switching, the camera is handed over and the layer's renderer changes to the new mode's renderer.

A sketch tool lets the user draw a polygon. Each draw or transform issues a spatial query against the layer. When a query resolves:
- its features, possibly none, replace the highlights on the 2D view;
- only if it matched at least one feature, the chart panel is shown and a bar chart of five population totals is drawn: male, female, urban, village and city-district. A query that matches nothing leaves the panel and the previous chart as they were.

A side list shows the features in the current extent, one entry per feature. Clicking an entry flies to that feature and opens its popup.

This project models that behaviour as it is written in `js/index.js`. There is one module per concern:

| module | file | what it holds |
|---|---|---|
| `Features` | `features.dfy` | features, attribute values, geometries as opaque handles, error objects |
| `Aggregate` | `aggregate.dfy` | `sumData` as a loop (`SumData`), proved against two recursive sum definitions; order independence and additivity of the totals |
| `Views` | `views.dfy` | the view state `switchView` reads and writes, as a value; the switch as a function, with its invariants over any number of switches |
| `Selection` | `selection.dfy` | the sketch `update` dispatcher, the removal from the sketch layer, the highlight symbol, the chart, and the selection state's transitions when an event arrives or a query settles |
| `ResultList` | `result_list.dfy` | the list rebuild (a loop, `BuildEntries`) and the click lookup |
| `App` | `dashboard.dfy` | the script's mutable state as a class `Dashboard` with two `View` objects; one method per handler, each with an ensures giving the new state, in terms of `Switched`, `OnSketchUpdate`, `OnQuerySettled`, `Entries` or `Lookup` where one exists |

Asynchrony is modelled without a scheduler:
- A spatial query that is issued is appended to `pending`.
- A list query increments `listQueries`.
- A navigation started by a click is appended to `navigations`.
- A separate method call settles any one of them, at any index, with a success or a rejection given as an argument.

So the interleavings the event loop allows can be expressed as sequences of method calls. The one exception is an `update` event that carries no graphics, which the model does not accept (see "## Left out"). The feature layer's spatial query is the oracle `query: Geometry -> seq<Feature>`, fixed when the dashboard is created.

Four expectations a reader could hold about such a dashboard are not met by the code. The model follows the code and states each gap as a property:
- **Missing attributes.** A missing population attribute might be expected to count as 0. `sumData` adds with plain `+=` (js/index.js:461-465), which gives NaN for an undefined attribute. The model therefore requires all five count attributes to be present and numeric (`AllCounted`) in the result of a query that resolves; a rejected query settles whatever its data.
- **Overlapping queries.** A draw followed quickly by a transform issues two queries, and the chart might be expected to show the newest. `queryFeaturelayer` (js/index.js:437-451) has no guard against a stale result, so every resolution is applied in arrival order. `Selection.LastSettledWins` shows that an older query settling last overwrites a newer one.
- **Start then complete.** The comment on the 'complete' branch (js/index.js:353) says the graphic is cleared when the user clicks off it, and that branch hides the panel and the highlights. But the query issued at 'start' may still be pending. When it settles afterwards, it shows the panel and the highlights again (`Selection.StaleResultAfterComplete`).
- **Empty results.** The panel and chart change only when `length > 0` (js/index.js:441). A query that matches nothing clears the highlights but leaves the previous chart visible (`Selection.OnQuerySettled`).

## Model

| member | source | states |
|---|---|---|
| Aggregate.SumData | js/index.js:453-470 | returns exactly five numbers, in the category order male, female, urban, village, city; each is the sum of its attribute over all features; an empty list gives five zeros; the loop keeps each accumulator equal to the sum over the features seen so far |
| Aggregate.TotalIsSumOver | js/index.js:459-466 | the loop's left-to-right accumulation equals the head-first sum of the attribute over the list |
| Aggregate.TotalPermutation | js/index.js:459-466 | the total of an attribute depends only on the multiset of features, not on the order the query returns them in |
| Aggregate.TotalsPermutation | js/index.js:453-470 | the five totals `sumData` returns are the same for any reordering of the features |
| Aggregate.TotalsConcat | js/index.js:453-470 | the totals of two feature lists taken together are the field-wise sums of their totals |
| Views.Initial | js/index.js:269-282 | after setup the 2D view is active and bound to the screen, the 3D view has no container, the layer uses the 2D renderer, and the camera is the initial one (centre 100, 32; zoom 4) |
| Views.Switched | js/index.js:368-392 | a switch activates the other mode and carries the active camera over to it; it detaches the previously active view and leaves that view's camera untouched; exactly the new active view is bound, the renderer matches the new mode and the button names the mode just left |
| Views.SwitchTwiceRestores | js/index.js:379-390 | two switches from a coherent state restore the mode, renderer, button value and binding; the only difference is that the view that was inactive now holds the active camera |
| Views.SwitchesAlternate | js/index.js:373-390 | from the initial state, after any number n of switches exactly one view holds the container and it is the active one, the renderer matches the mode, the mode is 2D exactly when n is even, and for n > 0 the button names the inactive mode |
| Views.SwitchesKeepCamera | js/index.js:370-387 | any number of switches leaves the camera of the active view unchanged |
| App.Dashboard.constructor | js/index.js:275-282 | the views are two distinct objects, of kinds 2D and 3D; the view state is the initial one; there is no chart, highlight, sketch graphic, pending query, stored list or log entry |
| App.Dashboard.SwitchView | js/index.js:368-392 | on the view objects, the new view state is exactly `Switched` of the old one; the active view is the other object; the dashboard invariant is kept |
| Selection.QueriesFor | js/index.js:349-365 | one query for the first graphic's geometry on 'start', one more on a scale, reshape or move stop, checked independently; no query for any other event |
| Selection.RemoveFirst | js/index.js:353 | a graphic not on the layer leaves the layer unchanged; a graphic on it makes the layer one shorter |
| Selection.RemoveFirstRemovesFirst | js/index.js:353 | when `g` does not occur in `before`, removing `g` from `before + [g] + after` gives `before + after`: the first occurrence goes, and the graphics on either side keep their order |
| Selection.RemoveFirstMultiset | js/index.js:353 | removal takes exactly one copy of the graphic off the layer when there is one, and nothing else |
| App.Dashboard.SketchDraws | js/index.js:339-343 | the Sketch widget, given the sketch layer, appends a finished drawing to it and changes nothing else |
| Selection.Issue | js/index.js:429-438 | issuing a query appends its geometry to the pending queries and changes nothing else |
| Selection.Reset | js/index.js:352-356 | 'complete' removes the graphic from the sketch layer, hides the panel and empties the highlights, leaving the chart and the pending queries alone |
| Selection.OnSketchUpdate | js/index.js:347-366 | the handler's three independent tests in source order: 'start' issues a query, 'complete' resets, and a transform stop issues a query. The chart never changes; on 'complete' the panel is hidden and the highlights are empty; otherwise both are kept |
| Selection.SketchUpdateEffect | js/index.js:347-366 | an update issues exactly `QueriesFor` in order and never touches the chart; on 'complete' it removes the graphic, hides the panel and clears the highlights; otherwise only the pending queries change |
| Selection.IgnoredUpdateChangesNothing | js/index.js:347-366 | an event that neither starts, completes nor ends a transform leaves the selection state unchanged |
| App.Dashboard.QueryFeatureLayer | js/index.js:429-438 | the query's geometry is appended to the pending queries, and nothing else changes |
| App.Dashboard.HandleSketchUpdate | js/index.js:347-366 | the panel, chart, highlights, sketch layer and pending queries become exactly `OnSketchUpdate` of what they were; nothing else changes |
| Selection.Highlighted | js/index.js:483-486 | keeps every feature, in order, with its geometry and attributes, and gives each the blue fill |
| Selection.OnQuerySettled | js/index.js:437-451 | the settled query leaves the pending list, and the sketch layer is unchanged. For a rejection, nothing else changes. For a resolution with n features, the highlights become exactly the highlighted features. When n > 0 the panel is shown and the chart gets the five totals under the five category labels. When n = 0 the panel and the chart stay as they were |
| App.Dashboard.DisplayResults | js/index.js:472-492 | after clearing and refilling, the 2D view's graphics are exactly the highlighted features |
| App.Dashboard.SettleQuery | js/index.js:437-451 | the selection state becomes exactly `OnQuerySettled` of the old one; a rejection and only a rejection adds one error entry to the console log |
| Selection.StaleResultAfterComplete | js/index.js:349-356 | 'start' then 'complete' hides the panel and clears the highlights, but leaves the start query pending; when that query resolves with features, the panel is visible again and the highlights show its result |
| Selection.LastSettledWins | js/index.js:437-451 | with two queries in flight, the highlights end up showing whichever query settles last, whichever was issued last |
| App.Dashboard.OnLayerViewUpdating | js/index.js:287-297 | when updating stops, one list query is issued; while updating, none is |
| ResultList.Entries | js/index.js:303-315 | one entry per feature, in order; entry i carries id i and the place name of feature i |
| ResultList.BuildEntries | js/index.js:301-315 | the loop builds exactly `Entries` of the features |
| App.Dashboard.SettleListQuery | js/index.js:298-322 | on success the features are stored and the list holds exactly one entry per feature; on failure the stored features and the list are unchanged and the error is logged; the list invariant is kept |
| ResultList.Lookup | js/index.js:409 | yields a feature exactly when an id is present, a list is stored and the id is within it; the feature is the one at that index |
| ResultList.EntryResolves | js/index.js:311-312 | clicking entry i of a list built from the stored features selects feature i, the feature whose name the entry shows |
| App.Dashboard.OnListClick | js/index.js:404-413 | the result is `Lookup` of the id and the stored features; a navigation is started exactly when there is a result |
| App.Dashboard.SettleNavigation | js/index.js:414-426 | the settled navigation leaves the pending list. On arrival, the view active at that moment opens its popup on the feature at its centroid; the other view's popup is unchanged. On failure no popup changes, and the error is logged unless it is an `AbortError` |

## Left out

- Construction of the ArcGIS objects (`Map`, `GeoJSONLayer`, the views, `BasemapToggle`, `Legend`, `Sketch`) and the DOM wiring of listeners: these are library calls. The views are objects with a container, a camera, a graphics overlay and a popup; nothing else is modelled.
- The GeoJSON download and the spatial `intersects` predicate: the layer's query is the oracle `query`, and a geometry is an opaque handle with a centroid.
- The list query of the features in the active view's extent, ordered by `OBJECTID`: its result is the argument of `SettleListQuery`.
- `renderer2D` and `renderer3D` (class breaks, extrusion, size and colour variables): they are the opaque tags `Renderer2D` and `Renderer3D`.
- The chart's layout, title and y-axis formatter (`value / 1000000` followed by a text suffix): floating point and string formatting. The chart is its category labels and values.
- `popupTemplate` and the popup's rendering: a popup is its features and its location.
- Aggregate.SumData: JavaScript numbers are doubles; the totals are unbounded integers, so rounding of very large sums is not modelled.
- Aggregate.SumData: the `console.log` of the totals is not part of the console log the model keeps, which records only errors.
- App.Dashboard.SettleQuery: the `console.log(sum)` after a resolution with features (js/index.js:444) is likewise not recorded; the model's log holds only the error entries.
- Selection.OnQuerySettled: a resolved query whose features lack one of the five counts is not modelled. In the script, `+=` turns such a total into NaN and the chart shows it; the model has no NaN and requires the counts for a resolution only.
- App.Dashboard.HandleSketchUpdate: an `update` event without graphics is not accepted (it requires at least one). The Sketch widget always sends the graphics being updated, and the handler reads `graphics[0]` unguarded in each branch that acts.
- App.Dashboard.SettleNavigation: the camera movement of `goTo` (to the feature's extent expanded twice) is not modelled; only its outcome is.
- ResultList.Lookup: the `data-result-id` attribute arrives as an optional integer. A missing or empty attribute, or text `parseInt` rejects, is `None`.
- App.Dashboard.constructor: the button's initial value and the panel's initial visibility come from the page markup and stylesheet, which are not part of this model; they are parameters. The list starts empty.
- `displayResults` gives the feature objects the layer returned a symbol in place. Feature objects are values here, so sharing one object with other holders is not modelled.
- The Sketch widget's own editing of the graphics on its layer (moving vertices, the `active` drag states) is not modelled; the layer grows by `SketchDraws` and shrinks by the removal on 'complete'.
