/** `renderGallery` as `app2.js` has it: the cards are written once, with no
    marquee track and no controls. */
module App2 {
  import opened Dom
  import opened Strings
  import opened Gallery

  /** The markup of a plain gallery over `items`, cut to `limit`. */
  function PlainContent(items: seq<Item>, limit: Option<nat>): (m: string)
    ensures m == "" <==> Selected(items, limit) == []
    ensures forall i :: 0 <= i < |Selected(items, limit)| ==> Occurs(CardMarkup(CardOf(items[i])), m)
  {
    var cs := Cards(Selected(items, limit));
    JoinShowsEveryCard(cs);
    Join(cs)
  }

  /** The plain gallery is the card sequence once: its markup is the cards'
      markup in feed order, and appending items appends their cards. */
  lemma {:induction false} PlainContentAppends(items: seq<Item>, more: seq<Item>)
    ensures PlainContent(items + more, None) == PlainContent(items, None) + PlainContent(more, None)
    decreases items
  {
    if items == [] {
      assert items + more == more;
    } else {
      assert (items + more)[1..] == items[1..] + more;
      PlainContentAppends(items[1..], more);
    }
  }

  /** `renderGallery(targetId, limit)`; `null` stands for an absent
      container. On success the container holds one card element per
      selected item; on failure it holds the fixed message. No class flag
      changes either way. */
  method RenderGallery(host: Element?, limit: Option<nat>, feed: Feed)
    modifies host
    ensures host != null ==> host.locked == old(host.locked)
    ensures host != null && feed.Parsed? ==>
      host.content == PlainContent(feed.items, limit) && host.childCount == |Selected(feed.items, limit)|
    ensures host != null && feed.Unavailable? ==>
      host.content == CouldNotLoad && host.childCount == 1
    ensures host != null ==>
      host.marquee == old(host.marquee) && host.paused == old(host.paused) && host.rev == old(host.rev)
  {
    if host == null {
      return;
    }
    match feed
    case Unavailable =>
      host.content := CouldNotLoad;
      host.childCount := 1;
    case Parsed(items) =>
      var slice := Selected(items, limit);
      host.content := Join(Cards(slice));
      host.childCount := |slice|;
  }
}
