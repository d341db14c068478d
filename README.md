# Site script model: partial loader, project gallery, marquee controls

This project models the client script of a static marketing site
(`assets/js/app.js` and its revision `assets/js/app2.js`). The browser
plumbing is abstracted into plain inputs and fields. What is left is three
pieces of logic, and the model proves what each promises:

- **Fragment loader** (`loadSection`, module `Loader`). A placeholder is
  skipped when it is absent, carries `data-lock`, or already has element
  children. Otherwise the fetch outcome decides its new markup. An ok
  response's body is written verbatim. A non-ok status or a rejected fetch
  writes an error line naming the path and the error's detail. The loader is
  the same in both files.
- **Gallery renderer** (`renderGallery`, modules `Gallery`, `App`, `App2`).
  The feed is cut to the limit, one card is built per item, and the card
  markup is joined. `app.js` writes the cards twice inside a looping track,
  marks the container as a marquee and attaches the controls. `app2.js`
  writes the cards once. On failure both write the fixed "Could not load
  gallery." line.
- **Marquee controls** (`attachMarqueeControls`, module `Marquee`). Hovering
  pauses the track. A drag pauses it while it lasts. When the drag ends, the
  direction flag `rev` is set from the drag's first and last samples only.
  The model has a pure step function over a `Controls` record and a class
  whose event methods are proved to follow it.
- **Startup** (module `Startup`): the calls the `DOMContentLoaded` handler
  starts, with their arguments.

Containers are `Dom.Element` objects whose `innerHTML`, `children.length`,
`data-lock` attribute and class flags are fields. A `null` element stands for
an id that `getElementById` does not find.

Three consequences of the code are worth stating:

- The loader's guard tests element children only (`children.length`). A
  body without any element leaves the container looking empty, and a later
  call fetches again (`Loader.EmptyBodyIsFetchedAgain`). Every other outcome
  makes later calls no-ops (`Loader.ReloadIsNoOp`).
- Hover and drag write the same `paused` flag. So a `mouseleave` during a
  drag unpauses the track, and the end of a drag unpauses it even while the
  mouse is still over it (`Marquee.HoverOnlyPauses`,
  `Marquee.GestureSetsDirection`).
- The touch handlers at lines 94-111 of `app.js` sit outside any function
  and end with an unmatched brace, so `app.js` as written does not parse.
  The model describes `app.js` with those lines removed, that is, with the
  pointer-event controller of lines 54-91 only.

## Model

| member | source | states |
|---|---|---|
| `Loader.Load` | assets/js/app.js:4-17 | A request goes out exactly when the container is neither locked nor filled; otherwise the container is returned unchanged. The lock flag never changes. On an ok response the content is the body verbatim. On any failure the container is filled and its content names the path and the error detail. |
| `Loader.Detail` | assets/js/app.js:11-14 | The detail of a failed load: for a non-ok response, the decimal status, one space, then the status text; for a rejected fetch, the exception's message. |
| `Loader.FailureLine` | assets/js/app.js:14 | The error line always opens with the muted `div` and the words "Failed to load ", and always closes the `div`. |
| `Loader.LoadSection` | assets/js/app2.js:4-17 | The method updating the element in place: an absent element issues no request; a present one ends in exactly the state `Load` gives, with the same "fetched" answer; its class flags are untouched. |
| `Loader.FailureLineNames` | assets/js/app.js:13-15 | The error line contains the requested path and the error's detail as substrings. |
| `Loader.DecimalString` | assets/js/app.js:11 | The status number in the error detail is written as a non-empty run of decimal digits without a leading zero. |
| `Loader.DecimalRoundTrip` | assets/js/app2.js:11 | The written status reads back as the status itself (round trip). |
| `Loader.ReloadIsNoOp` | assets/js/app.js:5-7 | After any call, unless that call fetched and wrote an ok body with no element children, a second call leaves the container unchanged and issues no request; this includes a first call that found the container locked or filled. |
| `Loader.EmptyBodyIsFetchedAgain` | assets/js/app2.js:5-7 | After an ok response of any status from 200 to 299 whose body has no element children (a 204 with an empty body, say), the guard still sees an empty container, and the next call fetches again. |
| `Gallery.Selected` | assets/js/app.js:35 | With no limit all items are kept. With a limit the result has `min(N, limit)` items. It is always a prefix of the feed, so feed order is kept. |
| `Gallery.Cards` | assets/js/app.js:37-42 | One card per item, in item order. Each card's `src` is the item's image, and its `alt` and tag text are the item's title. |
| `Gallery.CardMarkup` | assets/js/app.js:37-41 | A card's markup contains its image source, its `alt` text and its tag text. |
| `Gallery.Join` | assets/js/app.js:42 | The joined markup is empty exactly when there are no cards. |
| `Gallery.JoinShowsEveryCard` | assets/js/app2.js:36-41 | Every card's markup appears in the joined markup. |
| `Gallery.JoinAppend` | assets/js/app.js:42 | Joining card markup distributes over concatenation of card sequences. |
| `Gallery.Track` | assets/js/app.js:44 | The looping track (card `i` is card `i mod n`) has twice as many cards as the set. |
| `Gallery.TrackIsCardsTwice` | assets/js/app.js:45-46 | The track is the card set followed by itself; its first and second halves are both the card set. |
| `Gallery.TrackMarkup` | assets/js/app.js:46 | The marquee markup opens with the track `div` and closes it; the joined card markup stands right after the opening, and the same markup stands again right after it, so the second lap is byte-for-byte the first. |
| `Gallery.EveryCardInTrack` | assets/js/app.js:45-46 | Every card's markup appears in the marquee markup. |
| `Gallery.TrackMarkupIsTrack` | assets/js/app.js:46 | The markup written for the marquee is exactly the track element around the markup of the looping track. |
| `Gallery.EmptyFeedRendersNoCards` | assets/js/app.js:35-46 | An empty feed renders no cards, and the marquee is an empty track, not an error. |
| `Gallery.TwoItemFeed` | assets/js/app.js:35-46 | Feed [a.png/A, b.png/B]: limit 1 gives card A only; no limit gives A, B; the track is A, B, A, B. |
| `App.MarqueeContentIsLoopingTrack` | assets/js/app.js:35-46 | The marquee markup is the looping track of the selected items' cards: twice the selected count, second lap equal to the first. |
| `App.MarqueeContent` | assets/js/app.js:35-46 | The marquee markup is an empty track exactly when no item is selected, and it shows the card of every selected item. |
| `App.MarqueeRepeatsPlainGallery` | assets/js/app.js:37-46 | The marquee revision writes the same card markup as the single revision, twice, inside the track element. |
| `App.RenderGallery` | assets/js/app.js:27-53 | An absent container gets nothing. On success the content is the marquee markup, the marquee flag is set, and fresh controls are attached with `rev` cleared. On failure the content is the fixed message, and there is no marquee flag change and no controls. The lock flag never changes. |
| `App2.PlainContentAppends` | assets/js/app2.js:36-41 | With no limit, the single gallery's markup for a feed `a + b` is the markup for `a` followed by the markup for `b`: cards once, in feed order. The lemma is stated for "no limit" only. |
| `App2.PlainContent` | assets/js/app2.js:35-41 | The plain gallery markup is empty exactly when no item is selected, and it shows the card of every selected item. |
| `App2.RenderGallery` | assets/js/app2.js:27-46 | An absent container gets nothing. On success the content is the cards once, with one element child per selected item. On failure it is the fixed message. No class flag changes. |
| `Marquee.DragTracksLastMove` | assets/js/app.js:74-77 | While a drag is on, the last sample is the x of the last move; moves and hovers keep the drag on, the start sample and the direction (hovers still set or clear `paused`). |
| `Marquee.Attached` | assets/js/app.js:57-60 | Freshly attached controls have no drag on, `rev` cleared and the container's `paused` flag as it was; a release right after attaching changes nothing. |
| `Marquee.EndDrag` | assets/js/app.js:79-87 | After `endDrag` no drag is on. Without a drag it changes nothing. After a drag, `rev` holds exactly when the last sample is left of the first, and the track is unpaused. The samples are kept. |
| `Marquee.Step` | assets/js/app.js:63-90 | Only pointerdown and a release start or end a drag. Only pointerdown moves the start sample. The last sample moves only on pointerdown or on a pointermove during a drag. `rev` changes only on a release during a drag. |
| `Marquee.GestureSetsDirection` | assets/js/app.js:67-85 | For any prior state, a pointerdown at `x0`, then moves and hovers, then pointerup or pointercancel, has three effects. `rev` is set exactly when the last move lies left of `x0`. The drag ends. The track is unpaused. |
| `Marquee.OnlyReleaseTurns` | assets/js/app.js:79-83 | The direction changes only on a release event while a drag is on. |
| `Marquee.IdlePointerIsIgnored` | assets/js/app.js:74-80 | With no drag on, pointermove, pointerup and pointercancel change nothing. |
| `Marquee.HoverOnlyPauses` | assets/js/app.js:63-64 | mouseenter sets `paused` and mouseleave clears it; nothing else changes. |
| `Marquee.SwipeExamples` | assets/js/app.js:81-83 | A drag from 100 to 40 sets `rev`; one from 100 to 160 leaves it cleared. |
| `Marquee.MarqueeControls.Attach` | assets/js/app.js:54-60 | Attaching starts with no drag, both samples 0 and `rev` cleared. It keeps the container's `paused` flag, markup and lock. |
| `Marquee.MarqueeControls.OnMouseEnter` | assets/js/app.js:63 | The object state after the event is `Step` of the state before. |
| `Marquee.MarqueeControls.OnMouseLeave` | assets/js/app.js:64 | The object state after the event is `Step` of the state before. |
| `Marquee.MarqueeControls.OnPointerDown` | assets/js/app.js:67-72 | The object state after the event is `Step` of the state before: drag on, both samples at `x`, paused. |
| `Marquee.MarqueeControls.OnPointerMove` | assets/js/app.js:74-77 | The object state after the event is `Step` of the state before: the last sample moves only during a drag. |
| `Marquee.MarqueeControls.EndDragging` | assets/js/app.js:79-90 | Pointerup and pointercancel have the same effect, `EndDrag` of the state before. |
| `Startup.PartialsAlwaysRequested` | assets/js/app2.js:48-52 | The three partial loads (`do`, `flow`, `cta` with their paths) are always started, and no other load is. |
| `Startup.StartupCalls` | assets/js/app.js:186-198 | Three to five calls are started; every call after the three partial loads is a gallery render into a container that is present. |
| `Startup.GalleryRequests` | assets/js/app2.js:57-59 | A gallery render is started exactly for a present container. The preview gets limit 12, the full gallery gets no limit, and no other render is started. |

## Left out

- Network and browser plumbing is not modelled. This covers `fetch`, resolving paths against `window.location`, reading the body (`res.text()`, `res.json()`) and `console.warn`. Each fetch outcome is an input: `Loader.Response` for partials, `Gallery.Feed` for the feed.
- An unresolvable URL and a body that cannot be read both become `Loader.Rejected` with their message. A non-array JSON body becomes `Gallery.Unavailable`.
- The HTML parser is not modelled. `bodyElements` in `Loader.Response` is an input standing for the number of element children the browser builds from the body.
- Loader.Load: the error line counts as one element child. That holds only if the path and the message contain no markup, because they are interpolated unescaped.
- App.RenderGallery: the track counts as one element child. That holds only if image and title contain no markup.
- App2.RenderGallery: each card counts as one element child, with the same assumption about image and title.
- HTML escaping of image, title, path and message is not modelled: the script interpolates them raw.
- Feed records missing `image` or `title` are not modelled. In JavaScript they render the text "undefined"; here every record has both strings.
- `limit` is `Option<nat>`. Only 12 and "no limit" are ever passed, so `slice` with a negative or non-integer limit is not modelled.
- `clientX` is a `real`. NaN coordinates do not occur and are not modelled.
- Pointer capture (`setPointerCapture`, `releasePointerCapture` in `try`/`catch`) is not modelled: it only redirects events, and its failures are ignored.
- Calling `renderGallery` twice on one container attaches a second set of listeners. Each `MarqueeControls` object is modelled on its own; one event reaching several listener sets is not modelled.
- The reveal-on-scroll observer (`IntersectionObserver`, app.js lines 21-24 and 193) is not modelled. It is a browser callback that adds a class once per element.
- `parallax` is a no-op, and `app1.js` only logs a message, so neither is modelled.
- `attachAutoScroller` (app.js lines 113-183) is never called and is not modelled. It is driven by animation frames and uses floating-point scroll geometry.
- The touch handlers at app.js lines 94-111 are not modelled. They sit outside any function and use an out-of-scope `scroller`. The unmatched brace at line 111 means `app.js` as written does not parse, so none of it runs in a browser; the model describes `app.js` with lines 94-111 removed.
- Concurrency is not modelled: the startup calls are fire-and-forget and have no completion order. `Startup` models which calls start and with what arguments, not an interleaving.
