/** The result list: after the layer view settles, the features in the
    extent are stored and the list is rebuilt with one entry per feature,
    tagged with its position; a click maps the tag back to the stored feature. */
module ResultList {
  import opened Features

  /** One `li.panel-result`: its `data-result-id` and its text, the feature's
      `地名` (None where the feature has no such attribute). */
  datatype ListEntry = ListEntry(id: nat, text: Option<Value>)

  /** The entries for `fs`, built from the first feature to the last. */
  function Entries(fs: seq<Feature>): (r: seq<ListEntry>)
    ensures |r| == |fs|
    ensures forall i :: 0 <= i < |fs| ==> r[i] == ListEntry(i, NameOf(fs[i]))
  {
    if fs == [] then [] else Entries(fs[..|fs| - 1]) + [ListEntry(|fs| - 1, NameOf(fs[|fs| - 1]))]
  }

  /** The `forEach` that fills the document fragment: one entry per feature,
      in order, entry i carrying id i. */
  method BuildEntries(features: seq<Feature>) returns (fragment: seq<ListEntry>)
    ensures fragment == Entries(features)
  {
    fragment := [];
    for index := 0 to |features|
      invariant fragment == Entries(features[..index])
    {
      assert features[..index + 1][..index] == features[..index];
      var name := NameOf(features[index]);
      fragment := fragment + [ListEntry(index, name)];
    }
    assert features[..|features|] == features;
  }

  /** `resultId && graphics && graphics[parseInt(resultId, 10)]`: the stored
      feature a clicked id names, or None when the id is missing, nothing is
      stored yet, or the index is outside the stored list. */
  function Lookup(resultId: Option<int>, graphics: Option<seq<Feature>>): (r: Option<Feature>)
    ensures r.Some? <==> resultId.Some? && graphics.Some? && 0 <= resultId.value < |graphics.value|
    ensures r.Some? ==> r.value == graphics.value[resultId.value]
  {
    match (resultId, graphics)
    case (Some(i), Some(gs)) => if 0 <= i < |gs| then Some(gs[i]) else None
    case _ => None
  }

  /** Clicking any entry of a list built from `fs` selects the feature the
      entry was built from, the one whose name the entry shows. */
  lemma EntryResolves(fs: seq<Feature>, i: nat)
    requires i < |fs|
    ensures Lookup(Some(Entries(fs)[i].id), Some(fs)) == Some(fs[i])
    ensures Entries(fs)[i].text == NameOf(fs[i])
  {
  }
}
