/** `renderGallery` as `app.js` has it: the cards become a looping marquee
    track and the container gets the marquee controls. */
module App {
  import opened Dom
  import opened Strings
  import opened Gallery
  import opened Marquee
  import App2

  /** The markup of a marquee gallery over `items`, cut to `limit`. */
  function MarqueeContent(items: seq<Item>, limit: Option<nat>): (m: string)
    ensures m == TrackOpen + TrackClose <==> Selected(items, limit) == []
    ensures forall i :: 0 <= i < |Selected(items, limit)| ==> Occurs(CardMarkup(CardOf(items[i])), m)
  {
    var cs := Cards(Selected(items, limit));
    EveryCardInTrack(cs);
    TrackMarkup(cs)
  }

  /** The marquee markup is the looping track of one card per selected item:
      twice as many cards as items selected, the second lap equal to the
      first, each card showing its item's image and title in feed order. */
  lemma MarqueeContentIsLoopingTrack(items: seq<Item>, limit: Option<nat>)
    ensures var cs := Cards(Selected(items, limit));
      MarqueeContent(items, limit) == TrackOpen + Join(Track(cs)) + TrackClose
      && |Track(cs)| == 2 * |Selected(items, limit)|
      && Track(cs)[..|cs|] == Track(cs)[|cs|..] == cs
  {
    var cs := Cards(Selected(items, limit));
    TrackMarkupIsTrack(cs);
    TrackIsCardsTwice(cs);
  }

  /** Against the `app2.js` revision: the marquee holds the same card markup,
      written twice inside the track element. */
  lemma MarqueeRepeatsPlainGallery(items: seq<Item>, limit: Option<nat>)
    ensures MarqueeContent(items, limit)
         == TrackOpen + App2.PlainContent(items, limit) + App2.PlainContent(items, limit) + TrackClose
    ensures |MarqueeContent(items, limit)| == |TrackOpen| + 2 * |App2.PlainContent(items, limit)| + |TrackClose|
  {
  }

  /** `renderGallery(targetId, limit)`; `null` stands for an absent
      container. On success the container is marked as a marquee, holds the
      track (one element) and carries fresh controls; on failure it holds the
      fixed message and gets neither the marquee flag nor controls. */
  method RenderGallery(host: Element?, limit: Option<nat>, feed: Feed) returns (controls: MarqueeControls?)
    modifies host
    ensures host == null ==> controls == null
    ensures host != null ==> host.locked == old(host.locked)
    ensures host != null && feed.Parsed? ==>
      host.content == MarqueeContent(feed.items, limit) && host.childCount == 1 && host.marquee
      && controls != null && fresh(controls) && controls.host == host
      && controls.Current() == Attached(old(host.paused))
    ensures host != null && feed.Unavailable? ==>
      host.content == CouldNotLoad && host.childCount == 1 && controls == null
      && host.marquee == old(host.marquee) && host.paused == old(host.paused) && host.rev == old(host.rev)
  {
    if host == null {
      return null;
    }
    if feed.Unavailable? {
      host.content := CouldNotLoad;
      host.childCount := 1;
      return null;
    }
    var cards := Join(Cards(Selected(feed.items, limit)));
    host.marquee := true;
    host.content := TrackOpen + cards + cards + TrackClose;
    host.childCount := 1;
    controls := new MarqueeControls.Attach(host);
  }
}
