/** The link action `inertia(node, options)` of `createLink`: which clicks it
    intercepts, which href it navigates to, the prefetch listeners that
    `update` installs and `destroy` removes, and the hover timer.

    Event listeners this action attached to its node are kept in
    `listeners`, by listener id; the pending `setTimeout` timers in
    `timers`. Whether a URL has the page's origin is the predicate
    `sameOrigin`, fixed per page. */
module Link {
  import opened Base
  import opened Router

  /** `prefetch?: boolean | 'hover' | 'click'`; `Unset` is `undefined`. */
  datatype PrefetchMode = Unset | Flag(on: bool) | Hover | Click

  /** `{ href?, prefetch?, cacheFor? } & VisitOptions`; `visit` holds the
      remaining visit options by name. */
  datatype ActionOptions = ActionOptions(
    href: Option<string>,
    prefetch: PrefetchMode,
    cacheFor: Option<int>,
    visit: map<string, Value>)

  /** `{}`. */
  function NoOptions(): ActionOptions {
    ActionOptions(None, Unset, None, map[])
  }

  /** The DOM element facts the action reads. */
  datatype Element = Element(isHtmlElement: bool, tagName: string, href: string, isContentEditable: bool)

  /** The mouse event fields `shouldIntercept` reads; `button` is absent when
      the event has no such field. */
  datatype MouseEvent = MouseEvent(
    target: Option<Element>,
    currentTarget: Element,
    defaultPrevented: bool,
    altKey: bool,
    ctrlKey: bool,
    metaKey: bool,
    shiftKey: bool,
    button: Option<int>)

  datatype DomEvent = ClickEv | MouseEnterEv | MouseLeaveEv | MouseDownEv

  type ListenerId = nat
  type TimerId = nat

  /** What handling an event in the action did. `Visited` is the only case
      in which the click's default action is prevented. */
  datatype Handled =
    | NoHandler
    | NotIntercepted
    | Threw(message: string)
    | CrossOrigin
    | Visited(visit: Visit)
    | Prefetched(request: PrefetchRequest)

  /** `is_anchor`: an HTML element whose tag name is exactly `A`. */
  predicate IsAnchor(e: Element) {
    e.isHtmlElement && e.tagName == "A"
  }

  /** `isLink` of `shouldIntercept`: the lower-cased tag name is `a`. */
  predicate IsLinkTag(e: Element) {
    Lower(e.tagName) == "a"
  }

  lemma AnchorIsLinkTag(e: Element)
    requires IsAnchor(e)
    ensures IsLinkTag(e)
  {
    assert Lower(e.tagName) == [LowerChar('A')];
  }

  predicate Editable(ev: MouseEvent) {
    ev.target.Some? && ev.target.value.isContentEditable
  }

  predicate Modified(ev: MouseEvent) {
    ev.altKey || ev.ctrlKey || ev.metaKey || ev.shiftKey || (ev.button.Some? && ev.button.value != 0)
  }

  /** `shouldIntercept(event)`. */
  function ShouldIntercept(ev: MouseEvent): (r: bool)
    ensures Editable(ev) || ev.defaultPrevented ==> !r
    ensures IsLinkTag(ev.currentTarget) && (ev.altKey || ev.ctrlKey || ev.metaKey || ev.shiftKey) ==> !r
    ensures IsLinkTag(ev.currentTarget) && ev.button.Some? && ev.button.value != 0 ==> !r
    ensures IsLinkTag(ev.currentTarget) ==> (r <==> !Editable(ev) && !ev.defaultPrevented && !Modified(ev))
    ensures !IsLinkTag(ev.currentTarget) ==> (r <==> !Editable(ev) && !ev.defaultPrevented)
  {
    var isLink := IsLinkTag(ev.currentTarget);
    !((ev.target.Some? && ev.target.value.isContentEditable)
      || ev.defaultPrevented
      || (isLink && ev.altKey)
      || (isLink && ev.ctrlKey)
      || (isLink && ev.metaKey)
      || (isLink && ev.shiftKey)
      || (isLink && ev.button.Some? && ev.button.value != 0))
  }

  /** `get_href()`: the anchor's own href, otherwise `opts.href`; a missing
      or empty href throws. */
  function GetHref(node: Element, opts: ActionOptions): (r: Result<string>)
    ensures r.Ok? ==> r.value != ""
    ensures r.Ok? && IsAnchor(node) ==> r.value == node.href
    ensures r.Ok? && !IsAnchor(node) ==> opts.href == Some(r.value)
    ensures r.Err? ==> r.message == "Missing href"
    ensures r.Err? <==> if IsAnchor(node) then node.href == "" else opts.href.None? || opts.href.value == ""
  {
    var href := if IsAnchor(node) then node.href else opts.href.GetOr("");
    if href == "" then Err("Missing href") else Ok(href)
  }

  /** JavaScript truthiness of the prefetch option. */
  predicate Truthy(mode: PrefetchMode) {
    match mode
    case Unset => false
    case Flag(on) => on
    case Hover => true
    case Click => true
  }

  /** `opts.cacheFor ?? (opts.prefetch ? 0 : 30_000)`. */
  function CacheFor(opts: ActionOptions): (r: int)
    ensures opts.cacheFor.Some? ==> r == opts.cacheFor.value
    ensures opts.cacheFor.None? && Truthy(opts.prefetch) ==> r == 0
    ensures opts.cacheFor.None? && !Truthy(opts.prefetch) ==> r == 30000
  {
    match opts.cacheFor
    case Some(c) => c
    case None => if Truthy(opts.prefetch) then 0 else 30000
  }

  /** The visit options `params()` picks. */
  function PickedKeys(): set<string> {
    {"method", "data", "only", "replace", "preserveScroll", "preserveState", "except", "async"}
  }

  /** `params()`: `pick(opts, ...)`. */
  function Params(opts: ActionOptions): (r: map<string, Value>)
    ensures r.Keys == opts.visit.Keys * PickedKeys()
    ensures forall k :: k in r ==> r[k] == opts.visit[k]
  {
    map k | k in opts.visit && k in PickedKeys() :: opts.visit[k]
  }

  /** The listeners `update` installs for a prefetch mode, in push order. */
  function PrefetchEvents(mode: PrefetchMode): (r: seq<DomEvent>)
    ensures mode == Hover || mode == Flag(true) ==> r == [MouseEnterEv, MouseLeaveEv]
    ensures mode == Click ==> r == [MouseDownEv]
    ensures mode == Unset || mode == Flag(false) ==> r == []
    ensures ClickEv !in r
    ensures forall i, j :: 0 <= i < j < |r| ==> r[i] != r[j]
  {
    match mode
    case Hover => [MouseEnterEv, MouseLeaveEv]
    case Flag(on) => if on then [MouseEnterEv, MouseLeaveEv] else []
    case Click => [MouseDownEv]
    case Unset => []
  }

  /** `prefetch()`: the href, the same-origin gate, then `router.prefetch`. */
  function PrefetchFor(node: Element, opts: ActionOptions, sameOrigin: string -> bool): (r: Handled)
    ensures GetHref(node, opts).Err? <==> r.Threw?
    ensures r.Prefetched? <==> GetHref(node, opts).Ok? && sameOrigin(GetHref(node, opts).value)
    ensures r.Prefetched? ==>
      r.request == PrefetchRequest(GetHref(node, opts).value, Params(opts), CacheFor(opts))
    ensures r.Threw? || r == CrossOrigin || r.Prefetched?
  {
    match GetHref(node, opts)
    case Err(m) => Threw(m)
    case Ok(href) =>
      if !sameOrigin(href) then CrossOrigin
      else Prefetched(PrefetchRequest(href, Params(opts), CacheFor(opts)))
  }

  /** The click listener: `shouldIntercept`, the href, the same-origin gate,
      then `preventDefault` and `router.visit`. */
  function ClickFor(node: Element, opts: ActionOptions, sameOrigin: string -> bool, ev: MouseEvent): (r: Handled)
    ensures !ShouldIntercept(ev) <==> r == NotIntercepted
    ensures r.Visited? <==>
      ShouldIntercept(ev) && GetHref(node, opts).Ok? && sameOrigin(GetHref(node, opts).value)
    ensures r.Visited? ==> r.visit == Visit(GetHref(node, opts).value, Params(opts))
    ensures ShouldIntercept(ev) && GetHref(node, opts).Err? ==> r == Threw("Missing href")
    ensures r == NotIntercepted || r.Threw? || r == CrossOrigin || r.Visited?
  {
    if !ShouldIntercept(ev) then NotIntercepted
    else match GetHref(node, opts)
      case Err(m) => Threw(m)
      case Ok(href) =>
        if !sameOrigin(href) then CrossOrigin
        else Visited(Visit(href, Params(opts)))
  }

  /** The listener ids of a sequence of unsubscribers. */
  function IdSet(ids: seq<ListenerId>): set<ListenerId> {
    set id | id in ids
  }

  /** The ids `n` consecutive subscriptions from `next` on receive. */
  function Ids(next: nat, n: nat): (r: seq<ListenerId>)
    ensures |r| == n && forall i :: 0 <= i < n ==> r[i] == next + i
  {
    seq(n, i => next + i)
  }

  /** `m` with `events` attached under consecutive ids from `next` on. */
  function Attach(m: map<ListenerId, DomEvent>, next: nat, events: seq<DomEvent>): (r: map<ListenerId, DomEvent>)
    ensures forall id :: id in r <==> id in m || next <= id < next + |events|
    ensures forall i :: 0 <= i < |events| ==> r[next + i] == events[i]
    ensures forall id :: id in m && !(next <= id < next + |events|) ==> r[id] == m[id]
    decreases |events|
  {
    if events == [] then m
    else Attach(m, next, events[..|events| - 1])[next + |events| - 1 := events[|events| - 1]]
  }

  /** The listener bookkeeping of an attached action: the click listener and
      the prefetch listeners named by `ids`, each kind at most once. */
  ghost predicate ListenersOk(click: ListenerId, ids: seq<ListenerId>, m: map<ListenerId, DomEvent>, next: nat) {
    && click < next
    && (forall i :: 0 <= i < |ids| ==> click < ids[i] < next)
    && (forall id :: id in m ==> id == click || id in ids)
    && (click in m ==> m[click] == ClickEv)
    && (forall id :: id in m && id != click ==> m[id] != ClickEv)
    && (forall a, b :: a in m && b in m && m[a] == m[b] ==> a == b)
  }

  /** After the prefetch listeners go, at most the click listener is left. */
  lemma KeptIsClick(click: ListenerId, ids: seq<ListenerId>, m: map<ListenerId, DomEvent>, next: nat)
    requires ListenersOk(click, ids, m, next)
    ensures forall id :: id in m - IdSet(ids) ==> id == click && (m - IdSet(ids))[id] == ClickEv
    ensures ClickEv in m.Values ==> click in m - IdSet(ids)
  {
    if ClickEv in m.Values {
      var id :| id in m && m[id] == ClickEv;
      assert id == click;
      assert click !in IdSet(ids);
    }
  }

  /** Distinct new kinds, none of them a click, keep every kind at most once. */
  lemma AttachUnique(kept: map<ListenerId, DomEvent>, click: ListenerId, next: nat, events: seq<DomEvent>)
    requires click < next
    requires forall id :: id in kept ==> id == click && kept[id] == ClickEv
    requires ClickEv !in events
    requires forall i, j :: 0 <= i < j < |events| ==> events[i] != events[j]
    ensures var r := Attach(kept, next, events);
      forall a, b :: a in r && b in r && r[a] == r[b] ==> a == b
  {
    var r := Attach(kept, next, events);
    forall a, b | a in r && b in r && r[a] == r[b]
      ensures a == b
    {
      if a != click && b != click {
        assert events[a - next] == r[a] && events[b - next] == r[b];
      } else if a == click && b != click {
        assert events[b - next] == r[b];
      } else if a != click && b == click {
        assert events[a - next] == r[a];
      }
    }
  }

  /** Every id after the attaching is the click listener or a new one. */
  lemma AttachIds(kept: map<ListenerId, DomEvent>, click: ListenerId, next: nat, events: seq<DomEvent>)
    requires click < next
    requires forall id :: id in kept ==> id == click
    ensures var r := Attach(kept, next, events);
      forall id :: id in r ==> id == click || id in Ids(next, |events|)
  {
    var r := Attach(kept, next, events);
    forall id | id in r
      ensures id == click || id in Ids(next, |events|)
    {
      if id != click {
        assert Ids(next, |events|)[id - next] == id;
      }
    }
  }

  /** The kinds present after the attaching: the new ones, and a click
      exactly when one was kept. */
  lemma AttachValues(kept: map<ListenerId, DomEvent>, click: ListenerId, next: nat, events: seq<DomEvent>)
    requires click < next
    requires forall id :: id in kept ==> id == click && kept[id] == ClickEv
    requires ClickEv !in events
    ensures var r := Attach(kept, next, events);
      && (ClickEv in r.Values <==> click in kept)
      && forall k :: k != ClickEv ==> (k in r.Values <==> k in events)
  {
    var r := Attach(kept, next, events);
    forall k | k in events
      ensures k in r.Values
    {
      var i :| 0 <= i < |events| && events[i] == k;
      assert r[next + i] == k;
    }
    forall k | k in r.Values
      ensures k == ClickEv ==> click in kept
      ensures k != ClickEv ==> k in events
    {
      var id :| id in r && r[id] == k;
      if id != click {
        assert r[next + (id - next)] == events[id - next];
      }
    }
    if click in kept {
      assert r[click] == ClickEv;
    }
  }

  /** Replacing the prefetch listeners by distinct new kinds keeps the
      bookkeeping. */
  lemma ReplaceKeepsOk(click: ListenerId, ids: seq<ListenerId>, m: map<ListenerId, DomEvent>, next: nat, events: seq<DomEvent>)
    requires ListenersOk(click, ids, m, next)
    requires ClickEv !in events
    requires forall i, j :: 0 <= i < j < |events| ==> events[i] != events[j]
    ensures ListenersOk(click, Ids(next, |events|), Attach(m - IdSet(ids), next, events), next + |events|)
    ensures var r := Attach(m - IdSet(ids), next, events);
      && (ClickEv in r.Values <==> ClickEv in m.Values)
      && forall k :: k != ClickEv ==> (k in r.Values <==> k in events)
  {
    var kept := m - IdSet(ids);
    KeptIsClick(click, ids, m, next);
    AttachUnique(kept, click, next, events);
    AttachIds(kept, click, next, events);
    AttachValues(kept, click, next, events);
    assert click in kept ==> ClickEv in m.Values by {
      if click in kept {
        assert m[click] == ClickEv;
      }
    }
  }

  class LinkAction {
    /** `false` off-browser, where `createLink` returns a no-op action. */
    const browser: bool
    const node: Element
    /** The options the action was created with; `update` compares against these. */
    const options: ActionOptions
    const sameOrigin: string -> bool
    const router: Router
    const clickListener: ListenerId

    var opts: ActionOptions
    var offprefetch: seq<ListenerId>
    var listeners: map<ListenerId, DomEvent>
    var nextListener: nat
    var hoverTimeout: Option<TimerId>
    var timers: set<TimerId>
    var nextTimer: nat

    ghost predicate Valid()
      reads this
    {
      && ListenersOk(clickListener, offprefetch, listeners, nextListener)
      && (forall t :: t in timers ==> t < nextTimer)
      && (hoverTimeout.Some? ==> hoverTimeout.value < nextTimer)
    }

    /** Some listener of this action for `kind` is attached to the node. */
    predicate Handles(kind: DomEvent)
      reads this
    {
      kind in listeners.Values
    }

    /** `inertia(node, options)`: only the click listener is attached; `opts`
        starts as `{}`. */
    constructor (browser: bool, node: Element, options: ActionOptions, sameOrigin: string -> bool, router: Router)
      ensures Valid()
      ensures this.browser == browser && this.node == node && this.options == options
      ensures this.sameOrigin == sameOrigin && this.router == router
      ensures opts == NoOptions() && offprefetch == [] && hoverTimeout == None && timers == {}
      ensures browser ==> listeners == map[clickListener := ClickEv]
      ensures !browser ==> listeners == map[]
    {
      this.browser := browser;
      this.node := node;
      this.options := options;
      this.sameOrigin := sameOrigin;
      this.router := router;
      clickListener := 0;
      opts := NoOptions();
      offprefetch := [];
      listeners := if browser then map[0 := ClickEv] else map[];
      nextListener := 1;
      hoverTimeout := None;
      timers := {};
      nextTimer := 0;
    }

    /** Calls every unsubscriber of `ids` in turn. */
    method Unsubscribe(ids: seq<ListenerId>)
      modifies this`listeners
      ensures listeners == old(listeners) - IdSet(ids)
    {
      var i := 0;
      while i < |ids|
        invariant 0 <= i <= |ids|
        invariant listeners == old(listeners) - IdSet(ids[..i])
      {
        assert ids[..i + 1] == ids[..i] + [ids[i]];
        listeners := listeners - {ids[i]};
        i := i + 1;
      }
      assert ids[..i] == ids;
    }

    /** Attaches one listener per event kind, in order, and records their
        unsubscribers. */
    method SubscribeAll(events: seq<DomEvent>)
      modifies this`offprefetch, this`listeners, this`nextListener
      ensures nextListener == old(nextListener) + |events|
      ensures offprefetch == old(offprefetch) + Ids(old(nextListener), |events|)
      ensures listeners == Attach(old(listeners), old(nextListener), events)
    {
      var i := 0;
      while i < |events|
        invariant 0 <= i <= |events|
        invariant nextListener == old(nextListener) + i
        invariant offprefetch == old(offprefetch) + Ids(old(nextListener), i)
        invariant listeners == Attach(old(listeners), old(nextListener), events[..i])
      {
        assert events[..i + 1][..i] == events[..i];
        listeners := listeners[nextListener := events[i]];
        offprefetch := offprefetch + [nextListener];
        nextListener := nextListener + 1;
        i := i + 1;
      }
      assert events[..i] == events;
    }

    /** Calls every prefetch unsubscriber, empties the list, and attaches
        one listener per kind of `events`. */
    method Resubscribe(events: seq<DomEvent>)
      requires Valid()
      requires ClickEv !in events
      requires forall i, j :: 0 <= i < j < |events| ==> events[i] != events[j]
      modifies this`offprefetch, this`listeners, this`nextListener
      ensures ListenersOk(clickListener, offprefetch, listeners, nextListener)
      ensures offprefetch == Ids(old(nextListener), |events|)
      ensures listeners == Attach(old(listeners) - IdSet(old(offprefetch)), old(nextListener), events)
      ensures nextListener == old(nextListener) + |events|
      ensures Handles(ClickEv) <==> old(Handles(ClickEv))
      ensures forall kind :: kind != ClickEv ==> (Handles(kind) <==> kind in events)
    {
      ghost var r := Attach(listeners - IdSet(offprefetch), nextListener, events);
      ReplaceKeepsOk(clickListener, offprefetch, listeners, nextListener, events);
      Unsubscribe(offprefetch);
      offprefetch := [];
      SubscribeAll(events);
      assert listeners == r;
    }

    /** `update(val)`: when `val.prefetch` differs from the creation options'
        prefetch, every prefetch listener goes and the new mode's listeners
        come, in push order; `opts` becomes `val` in every case. */
    method Update(val: ActionOptions)
      requires browser && Valid()
      modifies this`opts, this`offprefetch, this`listeners, this`nextListener
      ensures Valid() && opts == val
      ensures val.prefetch == options.prefetch ==>
        offprefetch == old(offprefetch) && listeners == old(listeners) && nextListener == old(nextListener)
      ensures val.prefetch != options.prefetch ==>
        && offprefetch == Ids(old(nextListener), |PrefetchEvents(val.prefetch)|)
        && listeners == Attach(old(listeners) - IdSet(old(offprefetch)), old(nextListener), PrefetchEvents(val.prefetch))
        && nextListener == old(nextListener) + |PrefetchEvents(val.prefetch)|
        && (Handles(ClickEv) <==> old(Handles(ClickEv)))
        && forall kind :: kind != ClickEv ==> (Handles(kind) <==> kind in PrefetchEvents(val.prefetch))
    {
      if val.prefetch != options.prefetch {
        Resubscribe(PrefetchEvents(val.prefetch));
      }
      opts := val;
    }

    /** `destroy()`: removes the click listener and every prefetch listener.
        The hover timer and `offprefetch` are left as they are. */
    method Destroy()
      requires browser && Valid()
      modifies this`listeners
      ensures Valid() && listeners == map[]
    {
      listeners := listeners - {clickListener};
      Unsubscribe(offprefetch);
    }

    /** A click on the node. */
    method OnClick(ev: MouseEvent) returns (outcome: Handled)
      requires ev.currentTarget == node
      modifies router`visits
      ensures !Handles(ClickEv) ==> outcome == NoHandler
      ensures Handles(ClickEv) ==> outcome == ClickFor(node, opts, sameOrigin, ev)
      ensures outcome.Visited? ==> router.visits == old(router.visits) + [outcome.visit]
      ensures !outcome.Visited? ==> router.visits == old(router.visits)
    {
      if !Handles(ClickEv) {
        return NoHandler;
      }
      outcome := ClickFor(node, opts, sameOrigin, ev);
      if outcome.Visited? {
        router.visits := router.visits + [outcome.visit];
      }
    }

    /** Runs `prefetch()`. */
    method Prefetch() returns (outcome: Handled)
      modifies router`prefetches
      ensures outcome == PrefetchFor(node, opts, sameOrigin)
      ensures outcome.Prefetched? ==> router.prefetches == old(router.prefetches) + [outcome.request]
      ensures !outcome.Prefetched? ==> router.prefetches == old(router.prefetches)
    {
      outcome := PrefetchFor(node, opts, sameOrigin);
      if outcome.Prefetched? {
        router.prefetches := router.prefetches + [outcome.request];
      }
    }

    /** `mouseenter`: schedules `prefetch` after 75 ms. */
    method OnMouseEnter()
      requires Valid()
      modifies this`timers, this`hoverTimeout, this`nextTimer
      ensures Valid()
      ensures Handles(MouseEnterEv) ==>
        && hoverTimeout == Some(old(nextTimer))
        && old(nextTimer) !in old(timers)
        && timers == old(timers) + {old(nextTimer)}
      ensures !Handles(MouseEnterEv) ==> timers == old(timers) && hoverTimeout == old(hoverTimeout)
    {
      if Handles(MouseEnterEv) {
        timers := timers + {nextTimer};
        hoverTimeout := Some(nextTimer);
        nextTimer := nextTimer + 1;
      }
    }

    /** `mouseleave`: clears the pending hover timer, if any. */
    method OnMouseLeave()
      requires Valid()
      modifies this`timers, this`hoverTimeout
      ensures Valid()
      ensures Handles(MouseLeaveEv) && old(hoverTimeout).Some? ==>
        hoverTimeout == None && timers == old(timers) - {old(hoverTimeout).value}
      ensures !(Handles(MouseLeaveEv) && old(hoverTimeout).Some?) ==>
        timers == old(timers) && hoverTimeout == old(hoverTimeout)
    {
      if Handles(MouseLeaveEv) && hoverTimeout.Some? {
        timers := timers - {hoverTimeout.value};
        hoverTimeout := None;
      }
    }

    /** `mousedown` in click mode: prefetches at once. */
    method OnMouseDown() returns (outcome: Handled)
      modifies router`prefetches
      ensures !Handles(MouseDownEv) ==> outcome == NoHandler && router.prefetches == old(router.prefetches)
      ensures Handles(MouseDownEv) ==> outcome == PrefetchFor(node, opts, sameOrigin)
      ensures outcome.Prefetched? ==> router.prefetches == old(router.prefetches) + [outcome.request]
      ensures !outcome.Prefetched? ==> router.prefetches == old(router.prefetches)
    {
      if !Handles(MouseDownEv) {
        return NoHandler;
      }
      outcome := Prefetch();
    }

    /** A pending timer fires: it runs `prefetch`. `hoverTimeout` keeps its value. */
    method OnTimer(t: TimerId) returns (outcome: Handled)
      requires Valid() && t in timers
      modifies this`timers, router`prefetches
      ensures Valid()
      ensures timers == old(timers) - {t}
      ensures outcome == PrefetchFor(node, opts, sameOrigin)
      ensures outcome.Prefetched? ==> router.prefetches == old(router.prefetches) + [outcome.request]
      ensures !outcome.Prefetched? ==> router.prefetches == old(router.prefetches)
    {
      timers := timers - {t};
      outcome := Prefetch();
    }
  }

  /** Hover mode: entering and leaving before the timer fires leaves no
      timer pending, so no prefetch can follow. */
  method EnterThenLeave(a: LinkAction, val: ActionOptions)
    requires a.browser && a.Valid() && a.timers == {}
    requires val.prefetch == Hover && a.options.prefetch != Hover
    modifies a
    ensures a.Valid() && a.timers == {} && a.hoverTimeout == None
  {
    a.Update(val);
    a.OnMouseEnter();
    a.OnMouseLeave();
  }

  /** Hover mode: entering and staying until the timer fires prefetches
      exactly once (for a same-origin href). */
  method EnterAndStay(a: LinkAction, val: ActionOptions) returns (outcome: Handled)
    requires a.browser && a.Valid()
    requires val.prefetch == Hover && a.options.prefetch != Hover
    modifies a, a.router
    ensures outcome == PrefetchFor(a.node, val, a.sameOrigin)
    ensures outcome.Prefetched? ==> a.router.prefetches == old(a.router.prefetches) + [outcome.request]
  {
    a.Update(val);
    assert MouseEnterEv in PrefetchEvents(val.prefetch);
    assert a.Handles(MouseEnterEv) && a.opts == val;
    a.OnMouseEnter();
    assert a.hoverTimeout.Some? && a.hoverTimeout.value in a.timers;
    assert a.opts == val;
    outcome := a.OnTimer(a.hoverTimeout.value);
    assert outcome == PrefetchFor(a.node, a.opts, a.sameOrigin);
  }

  /** `destroy` does not clear a pending hover timer: it still fires. */
  method TimerOutlivesDestroy(a: LinkAction, val: ActionOptions) returns (outcome: Handled)
    requires a.browser && a.Valid()
    requires val.prefetch == Hover && a.options.prefetch != Hover
    modifies a, a.router
    ensures a.listeners == map[]
    ensures outcome == PrefetchFor(a.node, val, a.sameOrigin)
  {
    a.Update(val);
    assert MouseEnterEv in PrefetchEvents(val.prefetch);
    assert a.Handles(MouseEnterEv) && a.opts == val;
    a.OnMouseEnter();
    assert a.hoverTimeout.Some? && a.hoverTimeout.value in a.timers;
    ghost var o := a.opts;
    a.Destroy();
    assert a.opts == o;
    outcome := a.OnTimer(a.hoverTimeout.value);
    assert outcome == PrefetchFor(a.node, a.opts, a.sameOrigin);
  }

  /** Updating back to the creation mode keeps the previous mode's
      listeners: `update` compares against the creation options. */
  method UpdateBackKeepsListeners(a: LinkAction, click: ActionOptions, hover: ActionOptions)
    requires a.browser && a.Valid() && a.options.prefetch == Hover
    requires click.prefetch == Click && hover.prefetch == Hover
    modifies a
    ensures a.Handles(MouseDownEv) && !a.Handles(MouseEnterEv)
  {
    a.Update(click);
    a.Update(hover);
  }

  /** A link created with `prefetch: 'hover'` (or `'click'`) and only ever
      updated with that same mode never gets a prefetch listener: creation
      attaches only the click listener, and every update compares equal to
      the creation options, so none resubscribes. */
  method SameModeNeverListens(node: Element, created: ActionOptions, sameOrigin: string -> bool,
                              router: Router, updates: seq<ActionOptions>) returns (a: LinkAction)
    requires created.prefetch == Hover || created.prefetch == Click
    requires forall i :: 0 <= i < |updates| ==> updates[i].prefetch == created.prefetch
    ensures a.listeners == map[a.clickListener := ClickEv]
    ensures a.Handles(ClickEv) && !a.Handles(MouseEnterEv) && !a.Handles(MouseDownEv)
    ensures |updates| > 0 ==> a.opts == updates[|updates| - 1]
  {
    a := new LinkAction(true, node, created, sameOrigin, router);
    var i := 0;
    while i < |updates|
      invariant 0 <= i <= |updates|
      invariant a.browser && a.Valid() && a.options == created
      invariant a.listeners == map[a.clickListener := ClickEv]
      invariant i > 0 ==> a.opts == updates[i - 1]
      modifies a
    {
      a.Update(updates[i]);
      i := i + 1;
    }
    assert a.clickListener in a.listeners;
  }
}
