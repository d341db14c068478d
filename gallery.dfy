/** The pure part of the gallery renderer `renderGallery(targetId, limit)`:
    choosing the feed items, turning each into a card, joining the cards'
    markup and laying out the looping marquee track. */
module Gallery {
  import opened Dom
  import opened Strings

  /** One record of the project feed. */
  datatype Item = Item(image: string, title: string)

  /** How fetching and parsing the feed settles: the parsed array, or
      `Unavailable` for a rejected fetch, a non-ok status or a body that is
      not a JSON array (the renderer treats all three alike). */
  datatype Feed = Parsed(items: seq<Item>) | Unavailable

  const CouldNotLoad: string := "<div class=\"wrap muted\">Could not load gallery.</div>"

  function Min(a: nat, b: nat): nat {
    if a < b then a else b
  }

  /** `items.slice(0, limit)` when a limit is given, all items otherwise:
      the first `min(N, limit)` items of the feed, in feed order. */
  function Selected(items: seq<Item>, limit: Option<nat>): (r: seq<Item>)
    ensures limit.None? ==> r == items
    ensures limit.Some? ==> |r| == Min(|items|, limit.value)
    ensures r == items[..|r|]
  {
    match limit
    case None => items
    case Some(n) => if n < |items| then items[..n] else items
  }

  /** A rendered card: the lazily loaded image's `src` and `alt`, and the
      text of its tag. */
  datatype Card = Card(src: string, alt: string, tag: string)

  /** The card markup produced for one card (the template literal of the
      `map` callback, fields interpolated unescaped). */
  function CardMarkup(c: Card): (m: string)
    ensures Occurs(c.src, m) && Occurs(c.alt, m) && Occurs(c.tag, m)
    ensures |m| > |c.src| + |c.alt| + |c.tag|
  {
    var m := CardHead + c.src + CardAlt + c.alt + CardTag + c.tag + CardTail;
    assert OccursAt(c.src, m, |CardHead|);
    assert OccursAt(c.alt, m, |CardHead| + |c.src| + |CardAlt|);
    assert OccursAt(c.tag, m, |CardHead| + |c.src| + |CardAlt| + |c.alt| + |CardTag|);
    m
  }

  const CardHead: string := "\n      <div class=\"card hthumb\">\n        <img loading=\"lazy\" src=\""
  const CardAlt: string := "\" alt=\""
  const CardTag: string := "\">\n        <div class=\"tag\">"
  const CardTail: string := "</div>\n      </div>\n    "

  /** The card for one feed item. */
  function CardOf(x: Item): Card {
    Card(x.image, x.title, x.title)
  }

  /** `items.map(...)`: one card per item, in the same order. */
  function Cards(items: seq<Item>): (r: seq<Card>)
    ensures |r| == |items|
    ensures forall i :: 0 <= i < |items| ==>
      r[i].src == items[i].image && r[i].alt == items[i].title && r[i].tag == items[i].title
  {
    if items == [] then [] else [CardOf(items[0])] + Cards(items[1..])
  }

  /** `.join('')` of the card markups. */
  function Join(cs: seq<Card>): (m: string)
    ensures m == "" <==> cs == []
  {
    if cs == [] then "" else CardMarkup(cs[0]) + Join(cs[1..])
  }

  /** Every card's markup appears in the joined markup. */
  lemma {:induction false} JoinShowsEveryCard(cs: seq<Card>)
    ensures forall i :: 0 <= i < |cs| ==> Occurs(CardMarkup(cs[i]), Join(cs))
  {
    if cs != [] {
      var head, rest := CardMarkup(cs[0]), Join(cs[1..]);
      assert Join(cs) == "" + head + rest;
      JoinShowsEveryCard(cs[1..]);
      OccursSelf(head);
      OccursInContext(head, "", head, rest);
      forall i | 1 <= i < |cs| ensures Occurs(CardMarkup(cs[i]), Join(cs)) {
        assert cs[i] == cs[1..][i - 1];
        assert Join(cs) == head + rest + "";
        OccursInContext(CardMarkup(cs[i]), head, rest, "");
      }
    }
  }

  /** Joining distributes over concatenation of card sequences. */
  lemma {:induction false} JoinAppend(a: seq<Card>, b: seq<Card>)
    ensures Join(a + b) == Join(a) + Join(b)
  {
    if a == [] {
      assert a + b == b;
    } else {
      assert (a + b)[1..] == a[1..] + b;
      JoinAppend(a[1..], b);
    }
  }

  /** The looping track: card `i` of the track is card `i mod n` of the set,
      for two laps, so scrolling one set's width lands on an identical card. */
  function Track(cs: seq<Card>): (t: seq<Card>)
    ensures |t| == 2 * |cs|
  {
    seq(2 * |cs|, i requires 0 <= i < 2 * |cs| => cs[i % |cs|])
  }

  /** The track is the card set followed by itself. */
  lemma TrackIsCardsTwice(cs: seq<Card>)
    ensures Track(cs) == cs + cs
    ensures Track(cs)[..|cs|] == cs && Track(cs)[|cs|..] == cs
  {
    var t := Track(cs);
    forall i | 0 <= i < |t| ensures t[i] == (cs + cs)[i] {
      if i >= |cs| {
        assert i % |cs| == i - |cs|;
      }
    }
  }

  const TrackOpen: string := "<div class=\"track\">"
  const TrackClose: string := "</div>"

  /** The marquee markup `<div class="track">${cards}${cards}</div>`. */
  function TrackMarkup(cs: seq<Card>): (m: string)
    ensures |m| == |TrackOpen| + 2 * |Join(cs)| + |TrackClose|
    ensures OccursAt(TrackOpen, m, 0) && OccursAt(TrackClose, m, |m| - |TrackClose|)
    ensures OccursAt(Join(cs), m, |TrackOpen|) && OccursAt(Join(cs), m, |TrackOpen| + |Join(cs)|)
  {
    var m := TrackOpen + Join(cs) + Join(cs) + TrackClose;
    assert m[|TrackOpen|..|TrackOpen| + |Join(cs)|] == Join(cs);
    assert m[|TrackOpen| + |Join(cs)|..|TrackOpen| + 2 * |Join(cs)|] == Join(cs);
    m
  }

  /** Every card's markup appears in the marquee markup. */
  lemma EveryCardInTrack(cs: seq<Card>)
    ensures forall i :: 0 <= i < |cs| ==> Occurs(CardMarkup(cs[i]), TrackMarkup(cs))
  {
    JoinShowsEveryCard(cs);
    forall i | 0 <= i < |cs| ensures Occurs(CardMarkup(cs[i]), TrackMarkup(cs)) {
      OccursInContext(CardMarkup(cs[i]), TrackOpen, Join(cs), Join(cs) + TrackClose);
      assert TrackOpen + Join(cs) + (Join(cs) + TrackClose) == TrackMarkup(cs);
    }
  }

  /** The marquee markup is exactly the markup of the looping track. */
  lemma TrackMarkupIsTrack(cs: seq<Card>)
    ensures TrackMarkup(cs) == TrackOpen + Join(Track(cs)) + TrackClose
  {
    var j := Join(cs);
    assert TrackMarkup(cs) == TrackOpen + j + j + TrackClose;
    TrackIsCardsTwice(cs);
    JoinAppend(cs, cs);
    assert Join(Track(cs)) == j + j;
    assert TrackOpen + j + j + TrackClose == TrackOpen + (j + j) + TrackClose;
  }

  /** An empty feed is not an error: it renders no cards. */
  lemma EmptyFeedRendersNoCards(limit: Option<nat>)
    ensures Cards(Selected([], limit)) == []
    ensures TrackMarkup(Cards(Selected([], limit))) == TrackOpen + TrackClose
  {
  }

  /** Feed [a.png/A, b.png/B]: limit 1 gives the card for A only; no limit
      gives A then B, and the looping track runs A, B, A, B. */
  lemma TwoItemFeed()
    ensures Cards(Selected([Item("a.png", "A"), Item("b.png", "B")], Some(1))) == [Card("a.png", "A", "A")]
    ensures Cards(Selected([Item("a.png", "A"), Item("b.png", "B")], None)) == [Card("a.png", "A", "A"), Card("b.png", "B", "B")]
    ensures Track(Cards(Selected([Item("a.png", "A"), Item("b.png", "B")], None)))
         == [Card("a.png", "A", "A"), Card("b.png", "B", "B"), Card("a.png", "A", "A"), Card("b.png", "B", "B")]
  {
    var items := [Item("a.png", "A"), Item("b.png", "B")];
    assert items[..1] == [items[0]];
    var cs := Cards(Selected(items, None));
    TrackIsCardsTwice(cs);
  }
}
