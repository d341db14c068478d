/** The page's placeholder containers, as the script sees them through the DOM. */
module Dom {

  datatype Option<+T> = None | Some(value: T)

  /** What the fragment loader reads and writes of a container: whether it
      carries the `data-lock` attribute, how many element children it has
      (`children.length`) and its markup (`innerHTML`). */
  datatype Host = Host(locked: bool, childCount: nat, content: string)

  /** A container is "already filled" when it has at least one element child. */
  predicate Filled(h: Host) {
    h.childCount > 0
  }

  /** A container element. `content` is its `innerHTML`; `marquee`, `paused`
      and `rev` are the class flags the gallery and its controls toggle. */
  class Element {
    var locked: bool
    var childCount: nat
    var content: string
    var marquee: bool
    var paused: bool
    var rev: bool

    /** The part of the element the fragment loader deals with. */
    function View(): Host
      reads this
    {
      Host(locked, childCount, content)
    }
  }
}
