/** The fragment loader `loadSection(id, relPath)`: inject an HTML partial into
    a placeholder unless the placeholder is absent, locked or already filled.
    `app.js` and `app2.js` carry the same loader, line for line. */
module Loader {
  import opened Dom
  import opened Strings

  /** How the fetch of a partial settles. `Responded` is a response with its
      status line and body; `bodyElements` is the number of element children
      the browser builds when that body is assigned to `innerHTML`.
      `Rejected` is any exception raised before the body is in hand: an
      unresolvable URL, a network failure or a body that cannot be read. */
  datatype Response =
    | Responded(status: nat, statusText: string, body: string, bodyElements: nat)
    | Rejected(message: string)

  /** `Response.ok`: a status in the range 200-299. */
  predicate IsOk(status: nat) {
    200 <= status <= 299
  }

  predicate Succeeded(r: Response) {
    r.Responded? && IsOk(r.status)
  }

  predicate IsDigit(c: char) {
    '0' <= c <= '9'
  }

  function Digit(d: nat): (c: char)
    requires d < 10
    ensures IsDigit(c) && c as int - '0' as int == d
  {
    "0123456789"[d]
  }

  /** JavaScript's number-to-string conversion of a status code. */
  function DecimalString(n: nat): (s: string)
    ensures |s| > 0
    ensures forall i :: 0 <= i < |s| ==> IsDigit(s[i])
    ensures |s| > 1 ==> s[0] != '0'
  {
    if n < 10 then [Digit(n)] else DecimalString(n / 10) + [Digit(n % 10)]
  }

  /** Reads a string of decimal digits back as a number. */
  function DecimalValue(s: string): nat
    requires forall i :: 0 <= i < |s| ==> IsDigit(s[i])
  {
    if s == [] then 0
    else
      assert IsDigit(s[|s| - 1]);
      DecimalValue(s[..|s| - 1]) * 10 + (s[|s| - 1] as int - '0' as int)
  }

  /** The status number written into an error line reads back as that status. */
  lemma {:induction false} DecimalRoundTrip(n: nat)
    ensures DecimalValue(DecimalString(n)) == n
  {
    var s := DecimalString(n);
    if n >= 10 {
      DecimalRoundTrip(n / 10);
      assert s[..|s| - 1] == DecimalString(n / 10);
    }
  }

  /** The message of the error a failed load throws or receives: the status
      and status text for a non-ok response, the exception's message otherwise. */
  function Detail(r: Response): (d: string)
    requires !Succeeded(r)
    ensures r.Rejected? ==> d == r.message
    ensures r.Responded? ==>
      |d| == |DecimalString(r.status)| + 1 + |r.statusText|
      && d[..|DecimalString(r.status)|] == DecimalString(r.status) && d[|DecimalString(r.status)|..] == " " + r.statusText
  {
    match r
    case Responded(status, statusText, _, _) => DecimalString(status) + " " + statusText
    case Rejected(message) => message
  }

  const FailurePrefix: string := "<div class=\"wrap muted\">Failed to load "
  const FailureSuffix: string := "</div>"

  /** The inline error line written in place of a partial that did not load. */
  function FailureLine(relPath: string, detail: string): (line: string)
    ensures |line| >= |FailurePrefix| + |FailureSuffix|
    ensures line[..|FailurePrefix|] == FailurePrefix
    ensures line[|line| - |FailureSuffix|..] == FailureSuffix
  {
    FailurePrefix + relPath + ": " + detail + FailureSuffix
  }

  /** The error line names the path that failed and the error's detail. */
  lemma FailureLineNames(relPath: string, detail: string)
    ensures Occurs(relPath, FailureLine(relPath, detail))
    ensures Occurs(detail, FailureLine(relPath, detail))
    ensures |FailureLine(relPath, detail)| > |relPath| + |detail|
  {
    var s := FailureLine(relPath, detail);
    var i := |FailurePrefix|;
    assert OccursAt(relPath, s, i);
    var j := |FailurePrefix| + |relPath| + 2;
    assert OccursAt(detail, s, j);
  }

  /** The new state of the container, and whether a request went out. */
  datatype LoadResult = LoadResult(host: Host, fetched: bool)

  /** One call of `loadSection` on a present container. */
  function Load(h: Host, relPath: string, r: Response): (out: LoadResult)
    ensures out.fetched <==> !h.locked && !Filled(h)
    ensures !out.fetched ==> out.host == h
    ensures out.host.locked == h.locked
    ensures out.fetched && Succeeded(r) ==>
      out.host.content == r.body && out.host.childCount == r.bodyElements
    ensures out.fetched && !Succeeded(r) ==>
      Filled(out.host) && Occurs(relPath, out.host.content) && Occurs(Detail(r), out.host.content)
  {
    if h.locked || Filled(h) then
      LoadResult(h, false)
    else if Succeeded(r) then
      LoadResult(h.(content := r.body, childCount := r.bodyElements), true)
    else
      FailureLineNames(relPath, Detail(r));
      LoadResult(h.(content := FailureLine(relPath, Detail(r)), childCount := 1), true)
  }

  /** `loadSection` on the element `document.getElementById(id)` returned;
      `null` stands for an absent container. */
  method LoadSection(host: Element?, relPath: string, r: Response) returns (fetched: bool)
    modifies host
    ensures host == null ==> !fetched
    ensures host != null ==>
      var out := Load(old(host.View()), relPath, r);
      host.View() == out.host && fetched == out.fetched
    ensures host != null ==>
      host.marquee == old(host.marquee) && host.paused == old(host.paused) && host.rev == old(host.rev)
  {
    if host == null {
      return false;
    }
    if host.locked || host.childCount > 0 {
      return false;
    }
    fetched := true;
    match r
    case Responded(status, statusText, body, bodyElements) =>
      if IsOk(status) {
        host.content := body;
        host.childCount := bodyElements;
      } else {
        host.content := FailureLine(relPath, DecimalString(status) + " " + statusText);
        host.childCount := 1;
      }
    case Rejected(message) =>
      host.content := FailureLine(relPath, message);
      host.childCount := 1;
  }

  /** Once a call has written an error line, or a body with at least one
      element, every later call on that container is a no-op that issues no
      request; so is every call after one that found the container locked
      or filled, whatever its response. */
  lemma ReloadIsNoOp(h: Host, relPath: string, r: Response, relPath2: string, r2: Response)
    requires Load(h, relPath, r).fetched && Succeeded(r) ==> r.bodyElements > 0
    ensures Load(Load(h, relPath, r).host, relPath2, r2) == LoadResult(Load(h, relPath, r).host, false)
  {
  }

  /** The guard looks at element children only: an ok body of any status
      (a 204 with an empty body, say) that holds no element leaves the
      container looking empty, and the next call fetches again. */
  lemma EmptyBodyIsFetchedAgain(h: Host, relPath: string, status: nat, statusText: string, body: string,
                                relPath2: string, r2: Response)
    requires !h.locked && !Filled(h)
    requires IsOk(status)
    ensures Load(Load(h, relPath, Responded(status, statusText, body, 0)).host, relPath2, r2).fetched
  {
  }
}
