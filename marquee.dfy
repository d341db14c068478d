/** The marquee controls `attachMarqueeControls(scroller)` of `app.js`: hover
    pauses the track, and a completed drag pauses it while it lasts and then
    sets the flow direction from where the drag started and ended. */
module Marquee {
  import opened Dom

  /** The events the controls listen to; `x` is the event's `clientX`. */
  datatype Event =
    | MouseEnter
    | MouseLeave
    | PointerDown(x: real)
    | PointerMove(x: real)
    | PointerUp
    | PointerCancel

  predicate IsRelease(e: Event) {
    e.PointerUp? || e.PointerCancel?
  }

  /** Events that neither start nor end a drag. */
  predicate DuringDrag(e: Event) {
    e.MouseEnter? || e.MouseLeave? || e.PointerMove?
  }

  /** The closure variables `down`, `startX`, `lastX` and the container's
      `paused` and `rev` class flags. */
  datatype Controls = Controls(down: bool, startX: real, lastX: real, paused: bool, rev: bool)

  /** The state right after the controls are attached to a container whose
      `paused` flag is `paused`: no drag, both samples 0, direction cleared. */
  function Attached(paused: bool): (s: Controls)
    ensures !s.down && !s.rev && s.paused == paused
    ensures Step(s, PointerUp) == s && Step(s, PointerCancel) == s
  {
    Controls(false, 0.0, 0.0, paused, false)
  }

  /** `endDrag`, shared by pointerup and pointercancel. */
  function EndDrag(s: Controls): (r: Controls)
    ensures !r.down
    ensures !s.down ==> r == s
    ensures s.down ==> (r.rev <==> r.lastX < r.startX) && !r.paused
    ensures r.startX == s.startX && r.lastX == s.lastX
  {
    if !s.down then s else s.(rev := s.lastX < s.startX, down := false, paused := false)
  }

  /** The effect of one event on the controls. */
  function Step(s: Controls, e: Event): (r: Controls)
    ensures r.down != s.down ==> e.PointerDown? || IsRelease(e)
    ensures r.startX != s.startX ==> e.PointerDown?
    ensures r.lastX != s.lastX ==> e.PointerDown? || (e.PointerMove? && s.down)
    ensures r.rev != s.rev ==> s.down && IsRelease(e)
  {
    match e
    case MouseEnter => s.(paused := true)
    case MouseLeave => s.(paused := false)
    case PointerDown(x) => s.(down := true, startX := x, lastX := x, paused := true)
    case PointerMove(x) => if s.down then s.(lastX := x) else s
    case PointerUp => EndDrag(s)
    case PointerCancel => EndDrag(s)
  }

  /** The effect of a sequence of events, in order. */
  function Run(s: Controls, es: seq<Event>): Controls
    decreases es
  {
    if es == [] then s else Run(Step(s, es[0]), es[1..])
  }

  lemma {:induction false} RunAppend(s: Controls, a: seq<Event>, b: seq<Event>)
    ensures Run(s, a + b) == Run(Run(s, a), b)
    decreases a
  {
    if a == [] {
      assert a + b == b;
    } else {
      assert (a + b)[1..] == a[1..] + b;
      RunAppend(Step(s, a[0]), a[1..], b);
    }
  }

  /** The x of the last pointermove in `es`, or `x` when there is none. */
  function LastMoveX(x: real, es: seq<Event>): real {
    if es == [] then x
    else if es[|es| - 1].PointerMove? then es[|es| - 1].x
    else LastMoveX(x, es[..|es| - 1])
  }

  /** While a drag is on, the last sample is the x of the last move; moves and
      hovers keep the drag on, the start sample and the direction (hovers
      still set or clear `paused`). */
  lemma {:induction false} DragTracksLastMove(s: Controls, es: seq<Event>)
    requires s.down
    requires forall i :: 0 <= i < |es| ==> DuringDrag(es[i])
    ensures Run(s, es).down && Run(s, es).startX == s.startX && Run(s, es).rev == s.rev
    ensures Run(s, es).lastX == LastMoveX(s.lastX, es)
  {
    if es != [] {
      var front, e := es[..|es| - 1], es[|es| - 1];
      assert es == front + [e];
      DragTracksLastMove(s, front);
      RunAppend(s, front, [e]);
    }
  }

  /** A completed gesture (a pointerdown at `x0`, any moves and hovers, then a
      pointerup or pointercancel) sets the direction to "reverse" exactly when
      its last sample lies left of its first, ends the drag and unpauses,
      whatever the state before it. */
  lemma GestureSetsDirection(s: Controls, x0: real, es: seq<Event>, end: Event)
    requires forall i :: 0 <= i < |es| ==> DuringDrag(es[i])
    requires IsRelease(end)
    ensures Run(s, [PointerDown(x0)] + es + [end]).rev == (LastMoveX(x0, es) < x0)
    ensures !Run(s, [PointerDown(x0)] + es + [end]).down
    ensures !Run(s, [PointerDown(x0)] + es + [end]).paused
  {
    var s1 := Step(s, PointerDown(x0));
    RunAppend(s, [PointerDown(x0)], es + [end]);
    assert [PointerDown(x0)] + es + [end] == [PointerDown(x0)] + (es + [end]);
    RunAppend(s1, es, [end]);
    DragTracksLastMove(s1, es);
  }

  /** The direction changes only when a drag ends. */
  lemma OnlyReleaseTurns(s: Controls, e: Event)
    requires Step(s, e).rev != s.rev
    ensures s.down && IsRelease(e)
  {
  }

  /** Without a drag in progress, moves and releases change nothing. */
  lemma IdlePointerIsIgnored(s: Controls, x: real)
    requires !s.down
    ensures Step(s, PointerMove(x)) == s && Step(s, PointerUp) == s && Step(s, PointerCancel) == s
  {
  }

  /** Hovering only pauses and unpauses. */
  lemma HoverOnlyPauses(s: Controls)
    ensures Step(s, MouseEnter) == s.(paused := true)
    ensures Step(s, MouseLeave) == s.(paused := false)
  {
  }

  /** A drag from 100 to 40 sets the reverse direction; one from 100 to 160
      clears it. */
  lemma SwipeExamples(paused: bool)
    ensures Run(Attached(paused), [PointerDown(100.0), PointerMove(40.0), PointerUp]).rev
    ensures !Run(Attached(paused), [PointerDown(100.0), PointerMove(160.0), PointerUp]).rev
  {
    var left := [PointerDown(100.0), PointerMove(40.0), PointerUp];
    var right := [PointerDown(100.0), PointerMove(160.0), PointerUp];
    assert left == [PointerDown(100.0)] + [PointerMove(40.0)] + [PointerUp];
    assert right == [PointerDown(100.0)] + [PointerMove(160.0)] + [PointerUp];
    GestureSetsDirection(Attached(paused), 100.0, [PointerMove(40.0)], PointerUp);
    GestureSetsDirection(Attached(paused), 100.0, [PointerMove(160.0)], PointerUp);
  }

  /** The controls attached to one container: the closure variables as
      fields, the class flags on the container itself. */
  class MarqueeControls {
    const host: Element
    var down: bool
    var startX: real
    var lastX: real

    function Current(): Controls
      reads this, host
    {
      Controls(down, startX, lastX, host.paused, host.rev)
    }

    /** `attachMarqueeControls(host)`: clears `rev` and registers the listeners. */
    constructor Attach(host: Element)
      modifies host
      ensures this.host == host
      ensures Current() == Attached(old(host.paused))
      ensures host.View() == old(host.View()) && host.marquee == old(host.marquee)
    {
      this.host := host;
      down, startX, lastX := false, 0.0, 0.0;
      new;
      host.rev := false;
    }

    method OnMouseEnter()
      modifies host
      ensures Current() == Step(old(Current()), MouseEnter)
      ensures host.View() == old(host.View()) && host.marquee == old(host.marquee)
    {
      host.paused := true;
    }

    method OnMouseLeave()
      modifies host
      ensures Current() == Step(old(Current()), MouseLeave)
      ensures host.View() == old(host.View()) && host.marquee == old(host.marquee)
    {
      host.paused := false;
    }

    method OnPointerDown(x: real)
      modifies this, host
      ensures Current() == Step(old(Current()), PointerDown(x))
      ensures host.View() == old(host.View()) && host.marquee == old(host.marquee)
    {
      down := true;
      startX, lastX := x, x;
      host.paused := true;
    }

    method OnPointerMove(x: real)
      modifies this
      ensures Current() == Step(old(Current()), PointerMove(x))
    {
      if !down {
        return;
      }
      lastX := x;
    }

    /** `endDrag`, registered for both pointerup and pointercancel. */
    method EndDragging()
      modifies this, host
      ensures Current() == EndDrag(old(Current()))
      ensures Current() == Step(old(Current()), PointerUp) == Step(old(Current()), PointerCancel)
      ensures host.View() == old(host.View()) && host.marquee == old(host.marquee)
    {
      if !down {
        return;
      }
      var movedLeft := lastX < startX;
      host.rev := movedLeft;
      down := false;
      host.paused := false;
    }
  }
}
