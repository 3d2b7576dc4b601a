/**
 * The hash-mode history: the module-level helpers of the hash history
 * (`pushHash`, `replaceHash`, `ensureSlash`, `checkFallback`) and the
 * `HashHistory` class with its layer navigation, `ensureURL`,
 * `getCurrentLocation` and the body of its popstate/hashchange listener.
 *
 * The transition engine of the base history is a parameter `resolve`: the
 * outcome it reaches for a request. `cleanPath` and `getLocation` come from
 * other files and are parameters too.
 */
module HashMode {
  import opened Options
  import opened Fragment
  import opened LayerStack
  import opened Browser

  /** `getHash()` against the window's current address. */
  function GetHash(w: Window): (r: string)
    reads w
    ensures '#' !in w.href ==> r == ""
  {
    HashOf(w.href, w.decodeURI)
  }

  /** The write `pushHash(path)` makes: a new entry at `getUrl(path)` either way. */
  function PushHashEffect(supportsPushState: bool, href: string, path: string): (e: Effect)
    ensures e.WritesAddress() && e.AddsEntry()
    ensures HrefAfter(href, e) == UrlFor(href, path)
  {
    if supportsPushState then PushStateEffect(UrlFor(href, path), NoObject, false)
    else HashAssign(path)
  }

  /** The write `replaceHash(path)` makes: the current entry moves to `getUrl(path)`, no entry is added. */
  function ReplaceHashEffect(supportsPushState: bool, href: string, path: string): (e: Effect)
    ensures e.WritesAddress() && !e.AddsEntry()
    ensures HrefAfter(href, e) == UrlFor(href, path)
  {
    if supportsPushState then PushStateEffect(UrlFor(href, path), NoObject, true)
    else LocationReplace(UrlFor(href, path))
  }

  method PushHash(w: Window, path: string)
    modifies w
    ensures w.log == old(w.log) + [PushHashEffect(w.supportsPushState, old(w.href), path)]
    ensures w.href == UrlFor(old(w.href), path)
    ensures w.entry == EntryAfter(old(w.entry), PushHashEffect(w.supportsPushState, old(w.href), path))
  {
    if w.supportsPushState {
      w.Perform(PushStateEffect(UrlFor(w.href, path), NoObject, false));
    } else {
      w.Perform(HashAssign(path));
    }
  }

  method ReplaceHash(w: Window, path: string)
    modifies w
    ensures w.log == old(w.log) + [ReplaceHashEffect(w.supportsPushState, old(w.href), path)]
    ensures w.href == UrlFor(old(w.href), path)
    ensures w.entry == EntryAfter(old(w.entry), ReplaceHashEffect(w.supportsPushState, old(w.href), path))
  {
    if w.supportsPushState {
      w.Perform(PushStateEffect(UrlFor(w.href, path), NoObject, true));
    } else {
      w.Perform(LocationReplace(UrlFor(w.href, path)));
    }
  }

  /**
   * `ensureSlash()`: true, and nothing written, when the fragment starts
   * with `/`; otherwise exactly one replace to `'/' + fragment` and false.
   */
  method EnsureSlash(w: Window) returns (ok: bool)
    modifies w
    ensures ok == StartsWithSlash(old(GetHash(w)))
    ensures ok ==> w.href == old(w.href) && w.entry == old(w.entry) && w.log == old(w.log)
    ensures !ok ==> w.log == old(w.log) + [ReplaceHashEffect(w.supportsPushState, old(w.href), "/" + old(GetHash(w)))]
    ensures !ok ==> w.href == UrlFor(old(w.href), "/" + old(GetHash(w)))
    ensures !ok ==> w.entry == EntryAfter(old(w.entry), ReplaceHashEffect(w.supportsPushState, old(w.href), "/" + old(GetHash(w))))
    ensures !ok && KeepsLeadingSlash(w.decodeURI) ==> StartsWithSlash(GetHash(w))
  {
    var path := GetHash(w);
    if StartsWithSlash(path) {
      return true;
    }
    ReplaceHash(w, "/" + path);
    if KeepsLeadingSlash(w.decodeURI) {
      SlashSurvivesReadBack(old(w.href), "/" + path, w.decodeURI);
    }
    return false;
  }

  /** The test `/^\/#/` of `checkFallback`. */
  predicate StartsWithRootHash(location: string): (b: bool)
    ensures b <==> "/#" <= location
  {
    |location| >= 2 && location[0] == '/' && location[1] == '#'
  }

  /**
   * `checkFallback(base)`: when the location is not already under `/#`, one
   * `location.replace` into the fragment and `true`; otherwise nothing is
   * written and the result is `undefined` (here `None`), never `false`.
   */
  method CheckFallback(w: Window, base: string, getLocation: (string, string) -> string, cleanPath: string -> string)
    returns (r: Option<bool>)
    modifies w
    ensures r == None || r == Some(true)
    ensures r == None <==> StartsWithRootHash(getLocation(old(w.href), base))
    ensures r == None ==> w.href == old(w.href) && w.entry == old(w.entry) && w.log == old(w.log)
    ensures r == Some(true) ==>
      var target := cleanPath(base + "/#" + getLocation(old(w.href), base));
      w.log == old(w.log) + [LocationReplace(target)] && w.href == target && w.entry == None
  {
    var location := getLocation(w.href, base);
    if !StartsWithRootHash(location) {
      w.Perform(LocationReplace(cleanPath(base + "/#" + location)));
      return Some(true);
    }
    return None;
  }

  /** The request the listener sends: the saved layer list of the entry, or else `[getHash()]`. */
  function EventRequest(entry: Option<EntryState>, hash: string): (r: seq<RawLocation>)
    ensures (entry.Some? && entry.value.state.PathList?) ==> r == PathLocations(entry.value.state.paths)
    ensures !(entry.Some? && entry.value.state.PathList?) ==> r == [PathLocation(hash)]
  {
    match entry
    case Some(EntryState(PathList(paths))) => PathLocations(paths)
    case _ => [PathLocation(hash)]
  }

  /**
   * What the listener's completion callback does for `route`: scroll
   * handling when scrolling is supported, and a `replaceHash` of the route's
   * path when the browser has no push-state. A replay never adds an entry.
   */
  function ReplayEffects(supportsPushState: bool, expectScroll: bool, href: string, route: Route, from: seq<Route>)
    : (r: seq<Effect>)
    ensures forall e :: e in r ==> !e.AddsEntry()
    ensures supportsPushState ==> forall e :: e in r ==> !e.WritesAddress()
    ensures !supportsPushState ==> |r| == 1 && HrefAfter(href, r[0]) == UrlFor(href, route.fullPath)
    ensures supportsPushState ==> r == (if expectScroll then [Scroll(route, from, true)] else [])
  {
    (if supportsPushState && expectScroll then [Scroll(route, from, true)] else [])
    + (if !supportsPushState then [ReplaceHashEffect(false, href, route.fullPath)] else [])
  }

  /** An entry saved by `ensureURL` replays the whole stack it saved, layer by layer. */
  lemma SavedEntryReplaysStack(stack: seq<Route>, hash: string)
    ensures EventRequest(Some(EntryState(PathList(FullPaths(stack)))), hash) == LayerLocations(stack)
  {
  }

  /** An entry written by `pushHash` or `replaceHash` holds no layer list, so it replays `[getHash()]`. */
  lemma HashEntryReplaysFragment(supportsPushState: bool, pushed: bool, entry: Option<EntryState>,
                                 href: string, path: string, hash: string)
    ensures var e := if pushed then PushHashEffect(supportsPushState, href, path)
                     else ReplaceHashEffect(supportsPushState, href, path);
            EventRequest(EntryAfter(entry, e), hash) == [PathLocation(hash)]
  {
  }

  /**
   * A `#`-free address reads back `""`, so it never matches a non-empty
   * path. `ensureURL` writes `cleanPath(base + fullPath)`, not
   * `getUrl(fullPath)`; see its last postcondition.
   */
  lemma EnsureUrlTargetWithoutFragment(target: string, fullPath: string, decode: string -> string)
    requires '#' !in target && fullPath != ""
    ensures HashOf(target, decode) != fullPath
  {
  }

  class HashHistory {
    var current: seq<Route>
    const base: string
    const window: Window
    const expectScroll: bool
    const cleanPath: string -> string

    /** `supportsPushState && router.options.scrollBehavior`: scroll handling needs push-state. */
    predicate SupportsScroll(): (b: bool)
      ensures b ==> window.supportsPushState && expectScroll
      ensures !window.supportsPushState ==> !b
    {
      window.supportsPushState && expectScroll
    }

    /** A listener replay calls the scroll collaborator exactly when scrolling is supported. */
    lemma ReplayScrollsIffSupported(href: string, route: Route, from: seq<Route>)
      ensures Scroll(route, from, true) in ReplayEffects(window.supportsPushState, expectScroll, href, route, from)
              <==> SupportsScroll()
    {
    }

    /**
     * With `fallback`, `checkFallback` may redirect and end the setup;
     * otherwise the fragment is normalised by `ensureSlash`.
     */
    constructor (w: Window, base: string, fallback: bool, start: seq<Route>, expectScroll: bool,
                 cleanPath: string -> string, getLocation: (string, string) -> string)
      modifies w
      ensures window == w && this.base == base && current == start
      ensures this.expectScroll == expectScroll && this.cleanPath == cleanPath
      ensures fallback && !StartsWithRootHash(getLocation(old(w.href), base)) ==>
        var target := cleanPath(base + "/#" + getLocation(old(w.href), base));
        && w.log == old(w.log) + [LocationReplace(target)]
        && w.href == target
        && w.entry == None
      ensures !(fallback && !StartsWithRootHash(getLocation(old(w.href), base))) ==>
        var path := old(HashOf(w.href, w.decodeURI));
        && (StartsWithSlash(path) ==> w.log == old(w.log) && w.href == old(w.href) && w.entry == old(w.entry))
        && (!StartsWithSlash(path) ==>
              var fix := ReplaceHashEffect(w.supportsPushState, old(w.href), "/" + path);
              && w.log == old(w.log) + [fix]
              && w.href == UrlFor(old(w.href), "/" + path)
              && w.entry == EntryAfter(old(w.entry), fix))
    {
      current := start;
      this.base := base;
      window := w;
      this.expectScroll := expectScroll;
      this.cleanPath := cleanPath;
      new;
      var redirected: Option<bool> := None;
      if fallback {
        redirected := CheckFallback(w, base, getLocation, cleanPath);
      }
      if redirected != Some(true) {
        var _ := EnsureSlash(w);
      }
    }

    /** `getCurrentLocation()`: the decoded fragment, `""` when the address has no `#`. */
    function GetCurrentLocation(): (r: string)
      reads window
      ensures '#' !in window.href ==> r == ""
    {
      GetHash(window)
    }

    /**
     * The shared tail of every navigate method once the engine reached
     * `outcome`: on abort nothing is committed or written and `onAbort`
     * gets the error; on success the stack is committed and, inside the
     * callback, exactly one `pushHash` of the top route's path is made,
     * scrolling runs, and `onComplete` gets that route.
     */
    twostate predicate Settled(outcome: Outcome, reply: Reply)
      reads this, window
    {
      match outcome
      case Rejected(error) =>
        && reply == Aborted(error)
        && current == old(current)
        && window.href == old(window.href) && window.entry == old(window.entry) && window.log == old(window.log)
      case Resolved(stack, _) =>
        && current == stack
        && (stack == [] ==>
              reply == Threw
              && window.href == old(window.href) && window.entry == old(window.entry) && window.log == old(window.log))
        && (stack != [] ==>
              var top := stack[|stack| - 1];
              var pushed := PushHashEffect(window.supportsPushState, old(window.href), top.fullPath);
              && reply == Completed(top)
              && window.log == old(window.log) + [pushed, Scroll(top, old(current), false)]
              && window.href == UrlFor(old(window.href), top.fullPath)
              && window.entry == EntryAfter(old(window.entry), pushed))
    }

    /** The success callback's writes: `pushHash(route.fullPath)`, then the scroll call. */
    method PushTopLayer(route: Route, from: seq<Route>)
      modifies window
      ensures var pushed := PushHashEffect(window.supportsPushState, old(window.href), route.fullPath);
        && window.log == old(window.log) + [pushed, Scroll(route, from, false)]
        && window.href == UrlFor(old(window.href), route.fullPath)
        && window.entry == EntryAfter(old(window.entry), pushed)
      ensures GetHash(window) == DecodeHash(route.fullPath, window.decodeURI)
      ensures FixedByDecode(window.decodeURI, route.fullPath) ==> GetHash(window) == route.fullPath
    {
      ghost var before := window.href;
      PushHash(window, route.fullPath);
      window.Perform(Scroll(route, from, false));
      HashOfUrlFor(before, route.fullPath, window.decodeURI);
      if FixedByDecode(window.decodeURI, route.fullPath) {
        UrlForReadsBack(before, route.fullPath, window.decodeURI);
      }
    }

    /** `navigateAllLayers(locations, push, onComplete, onAbort)`; `push` is not used. */
    method NavigateAllLayers(locations: seq<RawLocation>, push: bool, resolve: seq<RawLocation> -> Outcome)
      returns (reply: Reply)
      modifies this, window
      ensures Settled(resolve(locations), reply)
      ensures reply.Completed? ==> GetHash(window) == DecodeHash(reply.route.fullPath, window.decodeURI)
      ensures reply.Completed? && FixedByDecode(window.decodeURI, reply.route.fullPath) ==>
        GetHash(window) == reply.route.fullPath
    {
      var fromRoute := current;
      var outcome := resolve(locations);
      match outcome {
        case Rejected(error) =>
          reply := Aborted(error);
        case Resolved(stack, _) =>
          current := stack;
          if |current| == 0 {
            reply := Threw;
          } else {
            var route := current[|current| - 1];
            PushTopLayer(route, fromRoute);
            reply := Completed(route);
          }
      }
    }

    method NavigateLastLayer(location: RawLocation, push: bool, resolve: seq<RawLocation> -> Outcome)
      returns (reply: Reply)
      modifies this, window
      ensures Settled(resolve(LastLayerCandidates(old(current), location)), reply)
    {
      var locations := LastLayerCandidates(current, location);
      reply := NavigateAllLayers(locations, push, resolve);
    }

    method NavigateLayer(layer: int, location: RawLocation, push: bool, resolve: seq<RawLocation> -> Outcome)
      returns (reply: Reply)
      modifies this, window
      ensures Settled(resolve(LayerCandidates(old(current), layer, location)), reply)
    {
      var locations := LayerCandidates(current, layer, location);
      reply := NavigateAllLayers(locations, push, resolve);
    }

    method NavigateAddLayer(location: RawLocation, push: bool, resolve: seq<RawLocation> -> Outcome)
      returns (reply: Reply)
      modifies this, window
      ensures Settled(resolve(AddLayerCandidates(old(current), location)), reply)
    {
      var locations := AddLayerCandidates(current, location);
      reply := NavigateAllLayers(locations, push, resolve);
    }

    /** `navigateRemoveLayer`; its `location` argument is not used. */
    method NavigateRemoveLayer(location: RawLocation, push: bool, resolve: seq<RawLocation> -> Outcome)
      returns (reply: Reply)
      modifies this, window
      ensures Settled(resolve(RemoveLayerCandidates(old(current))), reply)
    {
      var locations := RemoveLayerCandidates(current);
      reply := NavigateAllLayers(locations, push, resolve);
    }

    /**
     * `ensureURL(push)`: nothing is written when `getHash()` already equals
     * the top route's path; otherwise one push-state call to
     * `cleanPath(base + fullPath)` saving the stack's paths, replacing the
     * entry unless `push`. Reading the top of an empty stack throws.
     */
    method EnsureURL(push: bool) returns (threw: bool)
      modifies window
      ensures threw <==> current == []
      ensures threw || old(GetHash(window)) == current[|current| - 1].fullPath ==>
        window.href == old(window.href) && window.entry == old(window.entry) && window.log == old(window.log)
      ensures !threw && old(GetHash(window)) != current[|current| - 1].fullPath ==>
        var path := cleanPath(base + current[|current| - 1].fullPath);
        var saved := PathList(FullPaths(current));
        && window.log == old(window.log) + [PushStateEffect(path, saved, !push)]
        && window.href == path
        && window.entry == Some(EntryState(saved))
      ensures !threw && old(GetHash(window)) != current[|current| - 1].fullPath
              && '#' !in cleanPath(base + current[|current| - 1].fullPath) && current[|current| - 1].fullPath != "" ==>
        GetHash(window) != current[|current| - 1].fullPath
    {
      if |current| == 0 {
        return true;
      }
      var route := current[|current| - 1];
      if GetHash(window) != route.fullPath {
        var path := cleanPath(base + route.fullPath);
        window.Perform(PushStateEffect(path, PathList(FullPaths(current)), !push));
        if '#' !in path && route.fullPath != "" {
          EnsureUrlTargetWithoutFragment(path, route.fullPath, window.decodeURI);
        }
      }
      return false;
    }

    /**
     * What follows the engine's `outcome` for a listener request: on abort
     * nothing; on success the stack is committed and the replay effects run.
     */
    twostate predicate Replayed(outcome: Outcome)
      reads this, window
    {
      match outcome
      case Rejected(_) =>
        && current == old(current)
        && window.href == old(window.href) && window.entry == old(window.entry) && window.log == old(window.log)
      case Resolved(stack, route) =>
        && current == stack
        && window.log == old(window.log)
             + ReplayEffects(window.supportsPushState, expectScroll, old(window.href), route, old(current))
        && window.href == (if window.supportsPushState then old(window.href) else UrlFor(old(window.href), route.fullPath))
        && window.entry == (if window.supportsPushState then old(window.entry) else None)
    }

    /**
     * The popstate/hashchange listener. A fragment without a leading `/` is
     * corrected by `ensureSlash` and no transition starts (`None`); otherwise
     * the request sent to the engine is returned and its outcome replayed.
     */
    method OnHistoryEvent(resolve: seq<RawLocation> -> Outcome) returns (request: Option<seq<RawLocation>>)
      modifies this, window
      ensures request == None <==> !StartsWithSlash(old(GetHash(window)))
      ensures request == None ==>
        var fix := ReplaceHashEffect(window.supportsPushState, old(window.href), "/" + old(GetHash(window)));
        && current == old(current)
        && window.log == old(window.log) + [fix]
        && window.href == UrlFor(old(window.href), "/" + old(GetHash(window)))
        && window.entry == EntryAfter(old(window.entry), fix)
      ensures request.Some? ==>
        && request.value == EventRequest(old(window.entry), old(GetHash(window)))
        && Replayed(resolve(request.value))
    {
      var fromRoute := current;
      var ok := EnsureSlash(window);
      if !ok {
        return None;
      }
      var locations := EventRequest(window.entry, GetHash(window));
      request := Some(locations);
      var outcome := resolve(locations);
      match outcome {
        case Rejected(_) =>
        case Resolved(stack, route) =>
          current := stack;
          if SupportsScroll() {
            window.Perform(Scroll(route, fromRoute, true));
          }
          if !window.supportsPushState {
            ReplaceHash(window, route.fullPath);
          }
      }
    }
  }
}
