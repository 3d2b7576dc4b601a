/**
 * The browser as an explicit environment: the address (`location.href`),
 * the state object of the current history entry (`history.state`), and a
 * log of every write the hash history makes, in order.
 */
module Browser {
  import opened Options
  import opened Fragment
  import opened LayerStack

  /** The `state` field of a saved entry object: a list of layer paths, or not an object at all. */
  datatype StateField = NoObject | PathList(paths: seq<string>)

  /** The object `history.state` holds when an entry was written by `pushState`. */
  datatype EntryState = EntryState(state: StateField)

  /** One write to the browser, or one call of the scroll collaborator. */
  datatype Effect =
    | Push(url: string, state: StateField)      // pushState(url, state) adding an entry
    | Replace(url: string, state: StateField)   // pushState(url, state, true) / replaceState(url)
    | LocationReplace(url: string)              // window.location.replace(url)
    | HashAssign(path: string)                  // window.location.hash = path
    | Scroll(to: Route, from: seq<Route>, fromPopstate: bool)  // handleScroll(router, to, from, fromPopstate)
  {
    /** The write creates a new history entry. */
    predicate AddsEntry() {
      Push? || HashAssign?
    }

    /** The write changes the address bar. */
    predicate WritesAddress() {
      !Scroll?
    }
  }

  /** `pushState(url, state, replace)` of the push-state helper, as an effect. */
  function PushStateEffect(url: string, state: StateField, replace: bool): (e: Effect)
    ensures e.WritesAddress() && e.AddsEntry() == !replace
  {
    if replace then Replace(url, state) else Push(url, state)
  }

  /** The address after `e`: every write but a hash assignment sets it to the given URL. */
  function HrefAfter(href: string, e: Effect): (r: string)
    ensures !e.WritesAddress() ==> r == href
    ensures e.HashAssign? ==> BeforeHash(r) == BeforeHash(href) && r == UrlFor(href, e.path)
    ensures (e.Push? || e.Replace? || e.LocationReplace?) ==> r == e.url
  {
    match e
    case Push(url, _) => url
    case Replace(url, _) => url
    case LocationReplace(url) => url
    case HashAssign(path) => UrlForKeepsBase(href, path); UrlFor(href, path)
    case Scroll(_, _, _) => href
  }

  /** `history.state` after `e`: the push-state helper stores `{ state }`; other navigations leave `null`. */
  function EntryAfter(entry: Option<EntryState>, e: Effect): (r: Option<EntryState>)
    ensures !e.WritesAddress() ==> r == entry
    ensures (e.Push? || e.Replace?) ==> r == Some(EntryState(e.state))
    ensures (e.LocationReplace? || e.HashAssign?) ==> r == None
  {
    match e
    case Push(_, state) => Some(EntryState(state))
    case Replace(_, state) => Some(EntryState(state))
    case LocationReplace(_) => None
    case HashAssign(_) => None
    case Scroll(_, _, _) => entry
  }

  class Window {
    var href: string
    var entry: Option<EntryState>
    var log: seq<Effect>
    const supportsPushState: bool
    const decodeURI: string -> string

    constructor (href: string, entry: Option<EntryState>, supportsPushState: bool, decodeURI: string -> string)
      ensures this.href == href && this.entry == entry && log == []
      ensures this.supportsPushState == supportsPushState && this.decodeURI == decodeURI
    {
      this.href := href;
      this.entry := entry;
      this.log := [];
      this.supportsPushState := supportsPushState;
      this.decodeURI := decodeURI;
    }

    /** Applies one effect to the address and the entry state, and records it. */
    method Perform(e: Effect)
      modifies this
      ensures href == HrefAfter(old(href), e)
      ensures entry == EntryAfter(old(entry), e)
      ensures log == old(log) + [e]
    {
      href := HrefAfter(href, e);
      entry := EntryAfter(entry, e);
      log := log + [e];
    }
  }
}
