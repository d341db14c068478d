/** The `DOMContentLoaded` handler shared by `app.js` and `app2.js`: which
    loader and renderer calls it starts, with which arguments. The calls
    are started without awaiting one another, so only the set of calls and
    their arguments is modelled, not an order of completion. */
module Startup {
  import opened Dom

  datatype Call =
    | LoadSection(id: string, relPath: string)
    | RenderGallery(targetId: string, limit: Option<nat>)

  const Partials: seq<Call> := [
    LoadSection("do", "partials/whatwedo.html"),
    LoadSection("flow", "partials/flow.html"),
    LoadSection("cta", "partials/cta.html")
  ]

  /** The calls started when the page is ready, given the ids of the
      containers present in the document. */
  function StartupCalls(present: set<string>): (calls: seq<Call>)
    ensures 3 <= |calls| <= 5
    ensures forall i :: 3 <= i < |calls| ==> calls[i].RenderGallery? && calls[i].targetId in present
  {
    Partials
      + (if "gallery-preview" in present then [RenderGallery("gallery-preview", Some(12))] else [])
      + (if "gallery" in present then [RenderGallery("gallery", None)] else [])
  }

  /** The three partial loads are always started: the loader checks for
      itself whether its container exists. */
  lemma PartialsAlwaysRequested(present: set<string>)
    ensures StartupCalls(present)[..3] == Partials
    ensures forall c :: c in StartupCalls(present) && c.LoadSection? ==> c in Partials
  {
  }

  /** A gallery is rendered only into a container that exists: the preview
      with limit 12, the full gallery with no limit, and nothing else. */
  lemma GalleryRequests(present: set<string>, targetId: string, limit: Option<nat>)
    ensures RenderGallery(targetId, limit) in StartupCalls(present) <==>
      targetId in present
      && ((targetId == "gallery-preview" && limit == Some(12)) || (targetId == "gallery" && limit.None?))
  {
  }
}
