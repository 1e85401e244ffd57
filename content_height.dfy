/** The height-tracking rule of `ReasoningContent`: the inline `maxHeight` of
    the outer element, written by each render, by the effect that runs when
    `isOpen` changes, and by the resize observer that effect attaches; and
    the lifecycle of that observer (attached by an effect run, disconnected
    by its cleanup). Browser measurements (`scrollHeight`) and resize
    notifications enter as event parameters. */
module ContentHeight {
  import opened Wrappers
  import opened Disclosure

  /** The outer element's inline `maxHeight`: not set, or a pixel length. */
  datatype Style = Unset | Px(px: nat)

  /** The state of one `ReasoningContent`:
      - `maxHeight`: the outer element's inline style;
      - `mounted`: whether the refs hold their elements (from the first commit until unmount);
      - `renderedOpen`: the `isOpen` the latest render read from the context;
      - `effectOpen`: the `isOpen` the effect last ran with, its dependency (`None` before the first run);
      - `observers`: the connected resize observers, each with the `isOpen` its callback captured;
      - `cleanup`: the observer the pending effect cleanup disconnects;
      - `nextId`: a name for the next observer an effect run creates. */
  datatype ContentState = ContentState(
    maxHeight: Style,
    mounted: bool,
    renderedOpen: bool,
    effectOpen: Option<bool>,
    observers: map<nat, bool>,
    cleanup: Option<nat>,
    nextId: nat)

  /** The observer bookkeeping is consistent: the only connected observer is
      the one the pending cleanup will disconnect, and its callback captured
      the `isOpen` of the effect run that created it. So at most one observer
      is connected at any time. */
  predicate ObserversConsistent(s: ContentState)
    ensures ObserversConsistent(s) ==> |s.observers| <= 1
  {
    match s.cleanup
    case None => s.observers == map[]
    case Some(id) =>
      id < s.nextId && s.effectOpen.Some? && s.observers == map[id := s.effectOpen.value]
  }

  /** Before the first render: no element, no style, no observer. */
  function Initial(): (s: ContentState)
    ensures ObserversConsistent(s)
    ensures !s.mounted && s.observers == map[] && s.effectOpen.None? && s.maxHeight == Unset
  {
    ContentState(Unset, false, false, None, map[], None, 0)
  }

  /** The `maxHeight` a render puts in the style prop: `0px` when closed; when
      open the outer element's `scrollHeight`, which is unavailable (so the
      style stays unset) before the element exists. */
  function RenderStyle(isOpen: bool, outerScrollHeight: Option<nat>): (r: Style)
    ensures !isOpen ==> r == Px(0)
    ensures isOpen && outerScrollHeight.None? ==> r == Unset
    ensures isOpen && outerScrollHeight.Some? ==> r == Px(outerScrollHeight.value)
  {
    if !isOpen then Px(0)
    else match outerScrollHeight
      case None => Unset
      case Some(h) => Px(h)
  }

  /** A render and its commit: the style prop is applied and the refs are
      attached; the observers and the effect's dependency are untouched.
      The caller's props are spread after the component's own `style`, so a
      caller-supplied `style` object replaces the rule: `callerStyle` is the
      `maxHeight` of that object (`Unset` when it has none), or `None` when
      the caller passes no `style`. */
  function AfterRender(s: ContentState, isOpen: bool, outerScrollHeight: nat, callerStyle: Option<Style>): (r: ContentState)
    ensures r.mounted && r.renderedOpen == isOpen
    ensures callerStyle.Some? ==> r.maxHeight == callerStyle.value
    ensures callerStyle.None? && !isOpen ==> r.maxHeight == Px(0)
    ensures callerStyle.None? && isOpen ==> r.maxHeight == if s.mounted then Px(outerScrollHeight) else Unset
    ensures r.observers == s.observers && r.cleanup == s.cleanup
    ensures r.effectOpen == s.effectOpen && r.nextId == s.nextId
  {
    var outer := if s.mounted then Some(outerScrollHeight) else None;
    var style := match callerStyle case Some(st) => st case None => RenderStyle(isOpen, outer);
    s.(maxHeight := style, mounted := true, renderedOpen := isOpen)
  }

  /** Runs the pending cleanup, if any: its observer is disconnected. */
  function Disconnect(s: ContentState): (r: ContentState)
    ensures r.cleanup.None?
    ensures ObserversConsistent(s) ==> r.observers == map[]
    ensures r.maxHeight == s.maxHeight && r.mounted == s.mounted && r.nextId == s.nextId
    ensures r.renderedOpen == s.renderedOpen && r.effectOpen == s.effectOpen
  {
    match s.cleanup
    case None => s
    case Some(id) => s.(observers := s.observers - {id}, cleanup := None)
  }

  /** The passive-effect flush after a commit. No effect runs on an instance
      that is not mounted (before its first commit, or after teardown); while
      it is mounted both refs hold their elements, so the early return at
      the top of the effect is never taken. The effect depends on `isOpen`
      only, so it runs just when the rendered `isOpen` differs from the one it
      last ran with. A run first cleans up the previous run, then attaches one
      fresh observer whose callback captures the rendered `isOpen`, and when
      open copies the inner element's `scrollHeight` into `maxHeight`. */
  function AfterEffect(s: ContentState, innerScrollHeight: nat): (r: ContentState)
    ensures !s.mounted || s.effectOpen == Some(s.renderedOpen) ==> r == s
    ensures s.effectOpen != Some(s.renderedOpen) && s.mounted ==>
              r.effectOpen == Some(s.renderedOpen) && r.cleanup == Some(s.nextId) &&
              r.maxHeight == (if s.renderedOpen then Px(innerScrollHeight) else s.maxHeight)
    ensures s.effectOpen != Some(s.renderedOpen) && s.mounted && ObserversConsistent(s) ==>
              r.observers == map[s.nextId := s.renderedOpen]
    ensures r.mounted == s.mounted && r.renderedOpen == s.renderedOpen
    ensures ObserversConsistent(s) ==> ObserversConsistent(r)
  {
    if !s.mounted || s.effectOpen == Some(s.renderedOpen) then s
    else
      var d := Disconnect(s).(effectOpen := Some(s.renderedOpen));
      var id := s.nextId;
      assert ObserversConsistent(s) ==> id !in s.observers;
      d.(observers := d.observers[id := s.renderedOpen], cleanup := Some(id), nextId := id + 1,
         maxHeight := if s.renderedOpen then Px(innerScrollHeight) else s.maxHeight)
  }

  /** A resize notification to observer `id`, carrying the inner element's new
      `scrollHeight`. A disconnected observer is not called; a connected one
      writes `maxHeight` only if the `isOpen` it captured is true and the refs
      hold their elements. Nothing else ever changes. */
  function AfterResize(s: ContentState, id: nat, innerScrollHeight: nat): (r: ContentState)
    ensures r.(maxHeight := s.maxHeight) == s
    ensures id in s.observers && s.observers[id] && s.mounted ==> r.maxHeight == Px(innerScrollHeight)
    ensures !(id in s.observers && s.observers[id] && s.mounted) ==> r == s
  {
    if id in s.observers && s.observers[id] && s.mounted then s.(maxHeight := Px(innerScrollHeight))
    else s
  }

  /** Unmount: the pending cleanup disconnects the observer and the refs are
      cleared; the style of the detached element is left as it was. */
  function AfterUnmount(s: ContentState): (r: ContentState)
    ensures ObserversConsistent(s) ==> r.observers == map[]
    ensures ObserversConsistent(r)
    ensures !r.mounted && r.cleanup.None? && r.effectOpen.None? && r.maxHeight == s.maxHeight
  {
    Disconnect(s).(mounted := false, effectOpen := None, observers := map[])
  }

  datatype ContentEvent =
    | Render(isOpen: bool, outerScrollHeight: nat, callerStyle: Option<Style>)
    | EffectFlush(innerScrollHeight: nat)
    | Resize(observer: nat, innerScrollHeight: nat)
    | Unmount

  function Step(s: ContentState, e: ContentEvent): ContentState {
    match e
    case Render(o, h, st) => AfterRender(s, o, h, st)
    case EffectFlush(h) => AfterEffect(s, h)
    case Resize(id, h) => AfterResize(s, id, h)
    case Unmount => AfterUnmount(s)
  }

  /** The state after a sequence of events, applied from the first. */
  function Run(s: ContentState, evs: seq<ContentEvent>): ContentState
    decreases |evs|
  {
    if evs == [] then s else Run(Step(s, evs[0]), evs[1..])
  }

  lemma {:induction false} RunAppend(s: ContentState, a: seq<ContentEvent>, b: seq<ContentEvent>)
    ensures Run(s, a + b) == Run(Run(s, a), b)
    decreases |a|
  {
    if a != [] {
      assert (a + b)[0] == a[0];
      assert (a + b)[1..] == a[1..] + b;
      RunAppend(Step(s, a[0]), a[1..], b);
    } else {
      assert a + b == b;
    }
  }

  /** Two events in a row are their two steps. */
  lemma RunPair(s: ContentState, e1: ContentEvent, e2: ContentEvent)
    ensures Run(s, [e1, e2]) == Step(Step(s, e1), e2)
  {
    var t := Step(s, e1);
    assert [e1, e2][1..] == [e2];
    assert Run(s, [e1, e2]) == Run(t, [e2]);
    assert [e2][1..] == [];
    assert Run(t, [e2]) == Run(Step(t, e2), []);
  }

  /** Every sequence of events keeps the observer bookkeeping consistent, so
      no instance ever has more than one connected observer. */
  lemma {:induction false} RunKeepsObserversConsistent(s: ContentState, evs: seq<ContentEvent>)
    requires ObserversConsistent(s)
    ensures ObserversConsistent(Run(s, evs))
    ensures |Run(s, evs).observers| <= 1
    decreases |evs|
  {
    if evs != [] {
      var t := Step(s, evs[0]);
      assert ObserversConsistent(t) by {
        match evs[0]
        case Render(o, h, st) =>
        case EffectFlush(h) =>
        case Resize(id, h) =>
        case Unmount =>
      }
      RunKeepsObserversConsistent(t, evs[1..]);
    }
  }

  predicate OnlyResizes(evs: seq<ContentEvent>) {
    forall i :: 0 <= i < |evs| ==> evs[i].Resize?
  }

  /** The height carried by the last of `evs` addressed to observer `id`, or
      `current` when none is. */
  function LatestFor(id: nat, evs: seq<ContentEvent>, current: Style): Style
    requires OnlyResizes(evs)
    decreases |evs|
  {
    if evs == [] then current
    else
      var next := if evs[0].observer == id then Px(evs[0].innerScrollHeight) else current;
      LatestFor(id, evs[1..], next)
  }

  /** Resize notifications addressed to one observer. */
  function ResizesTo(id: nat, hs: seq<nat>): (evs: seq<ContentEvent>)
    ensures |evs| == |hs| && OnlyResizes(evs)
    ensures forall i :: 0 <= i < |hs| ==> evs[i] == Resize(id, hs[i])
    decreases |hs|
  {
    if hs == [] then [] else [Resize(id, hs[0])] + ResizesTo(id, hs[1..])
  }

  /** While open, resizes keep `maxHeight` equal to the most recent inner
      `scrollHeight` reported to the connected observer; notifications to
      disconnected observers change nothing. */
  lemma {:induction false} OpenObserverTracksLatest(s: ContentState, evs: seq<ContentEvent>)
    requires ObserversConsistent(s) && s.mounted && s.cleanup.Some? && s.effectOpen == Some(true)
    requires OnlyResizes(evs)
    ensures Run(s, evs) == s.(maxHeight := LatestFor(s.cleanup.value, evs, s.maxHeight))
    decreases |evs|
  {
    if evs != [] {
      var t := Step(s, evs[0]);
      assert t == s.(maxHeight := if evs[0].observer == s.cleanup.value
                                  then Px(evs[0].innerScrollHeight) else s.maxHeight);
      OpenObserverTracksLatest(t, evs[1..]);
    }
  }

  /** When no connected observer captured an open state (the effect last ran
      closed, or the instance is unmounted), resize notifications change
      nothing at all. */
  lemma {:induction false} ClosedIgnoresResizes(s: ContentState, evs: seq<ContentEvent>)
    requires ObserversConsistent(s) && s.effectOpen != Some(true)
    requires OnlyResizes(evs)
    ensures Run(s, evs) == s
    decreases |evs|
  {
    if evs != [] {
      assert Step(s, evs[0]) == s;
      ClosedIgnoresResizes(s, evs[1..]);
    }
  }

  function Last(hs: seq<nat>): nat
    requires hs != []
  {
    hs[|hs| - 1]
  }

  /** Opening a settled closed instance (whose caller passes no `style`): the render and effect flush copy the
      inner height into `maxHeight`, and afterwards every size change of the
      (possibly still growing) content retargets it, with no further toggle. */
  lemma OpeningTracksGrowth(s: ContentState, outer: nat, inner: nat, hs: seq<nat>)
    requires ObserversConsistent(s) && s.mounted && s.effectOpen == Some(false)
    ensures Run(s, [Render(true, outer, None), EffectFlush(inner)] + ResizesTo(s.nextId, hs)).maxHeight
         == Px(Last([inner] + hs))
  {
    var shown := Run(s, [Render(true, outer, None), EffectFlush(inner)]);
    RunAppend(s, [Render(true, outer, None), EffectFlush(inner)], ResizesTo(s.nextId, hs));
    RunPair(s, Render(true, outer, None), EffectFlush(inner));
    assert shown == AfterEffect(AfterRender(s, true, outer, None), inner);
    assert shown.maxHeight == Px(inner) && shown.cleanup == Some(s.nextId);
    OpenObserverTracksLatest(shown, ResizesTo(s.nextId, hs));
    TracksLastHeight(s.nextId, hs, Px(inner));
  }

  lemma {:induction false} TracksLastHeight(id: nat, hs: seq<nat>, current: Style)
    ensures LatestFor(id, ResizesTo(id, hs), current) == if hs == [] then current else Px(Last(hs))
    decreases |hs|
  {
    if hs != [] {
      var evs := ResizesTo(id, hs);
      assert evs == [Resize(id, hs[0])] + ResizesTo(id, hs[1..]);
      assert evs[1..] == ResizesTo(id, hs[1..]);
      assert LatestFor(id, evs, current) == LatestFor(id, evs[1..], Px(hs[0]));
      TracksLastHeight(id, hs[1..], Px(hs[0]));
      assert hs[1..] != [] ==> Last(hs[1..]) == Last(hs);
    }
  }

  /** Closing a settled open instance (whose caller passes no `style`) with
      a render immediately followed by its effect flush: the render clips to
      `0px`, the flush replaces the observer by one that captured the closed
      state, and from then on no resize notification, to any observer,
      changes it. */
  lemma ClosingStaysClipped(s: ContentState, outer: nat, inner: nat, resizes: seq<ContentEvent>)
    requires ObserversConsistent(s) && s.mounted && s.effectOpen == Some(true)
    requires OnlyResizes(resizes)
    ensures Run(s, [Render(false, outer, None), EffectFlush(inner)] + resizes).maxHeight == Px(0)
  {
    var closed := Run(s, [Render(false, outer, None), EffectFlush(inner)]);
    RunAppend(s, [Render(false, outer, None), EffectFlush(inner)], resizes);
    RunPair(s, Render(false, outer, None), EffectFlush(inner));
    assert closed == AfterEffect(AfterRender(s, false, outer, None), inner);
    ClosedIgnoresResizes(closed, resizes);
  }

  /** Three events in a row are their three steps. */
  lemma RunTriple(s: ContentState, e1: ContentEvent, e2: ContentEvent, e3: ContentEvent)
    ensures Run(s, [e1, e2, e3]) == Step(Step(Step(s, e1), e2), e3)
  {
    var t := Step(s, e1);
    assert [e1, e2, e3][1..] == [e2, e3];
    assert Run(s, [e1, e2, e3]) == Run(t, [e2, e3]);
    RunPair(t, e2, e3);
  }

  /** The window between a closing commit and its effect flush: the observer
      attached while open is still connected and still captures open, so a
      resize it reports in that window writes the inner height, and the flush
      that follows (which writes nothing when closed) leaves the closed panel
      at that height. Every later resize is ignored (`ClosedIgnoresResizes`). */
  lemma ResizeBeforeClosingFlush(s: ContentState, outer: nat, h: nat, inner: nat)
    requires ObserversConsistent(s) && s.mounted && s.effectOpen == Some(true)
    requires s.cleanup.Some?
    ensures var r := Run(s, [Render(false, outer, None), Resize(s.cleanup.value, h), EffectFlush(inner)]);
            !r.renderedOpen && r.effectOpen == Some(false) && r.maxHeight == Px(h)
  {
    RunTriple(s, Render(false, outer, None), Resize(s.cleanup.value, h), EffectFlush(inner));
  }

  /** One `ReasoningContent` instance. */
  class ReasoningContent {
    var maxHeight: Style
    var mounted: bool
    var renderedOpen: bool
    var effectOpen: Option<bool>
    var observers: map<nat, bool>
    var cleanup: Option<nat>
    var nextId: nat

    function Model(): ContentState
      reads this
    {
      ContentState(maxHeight, mounted, renderedOpen, effectOpen, observers, cleanup, nextId)
    }

    predicate Valid()
      reads this
    {
      ObserversConsistent(Model())
    }

    constructor ()
      ensures Model() == Initial() && Valid()
    {
      maxHeight, mounted, renderedOpen, effectOpen := Unset, false, false, None;
      observers, cleanup, nextId := map[], None, 0;
    }

    /** A render and commit. Reading the context outside a provider fails and
        the render is abandoned, leaving the instance unchanged. */
    method Render(c: Option<Ctx>, outerScrollHeight: nat, callerStyle: Option<Style>) returns (r: Result<(), string>)
      requires Valid()
      modifies this
      ensures Valid()
      ensures c.None? ==> r == Failure(MissingProvider) && Model() == old(Model())
      ensures c.Some? ==> r == Success(()) && Model() == AfterRender(old(Model()), c.value.isOpen, outerScrollHeight, callerStyle)
    {
      var ctx := UseReasoningContext(c);
      if ctx.Failure? {
        return Failure(ctx.error);
      }
      var isOpen := ctx.value.isOpen;
      if callerStyle.Some? {
        maxHeight := callerStyle.value;
      } else if !isOpen {
        maxHeight := Px(0);
      } else if mounted {
        maxHeight := Px(outerScrollHeight);
      } else {
        maxHeight := Unset;
      }
      mounted := true;
      renderedOpen := isOpen;
      return Success(());
    }

    method FlushEffect(innerScrollHeight: nat)
      requires Valid()
      modifies this
      ensures Valid()
      ensures Model() == AfterEffect(old(Model()), innerScrollHeight)
    {
      if !mounted || effectOpen == Some(renderedOpen) {
        return;
      }
      if cleanup.Some? {
        observers := observers - {cleanup.value};
        cleanup := None;
      }
      effectOpen := Some(renderedOpen);
      var id := nextId;
      nextId := nextId + 1;
      observers := observers[id := renderedOpen];
      cleanup := Some(id);
      if renderedOpen {
        maxHeight := Px(innerScrollHeight);
      }
    }

    method Resize(id: nat, innerScrollHeight: nat)
      requires Valid()
      modifies this
      ensures Valid()
      ensures Model() == AfterResize(old(Model()), id, innerScrollHeight)
    {
      if id in observers && observers[id] && mounted {
        maxHeight := Px(innerScrollHeight);
      }
    }

    method Unmount()
      requires Valid()
      modifies this
      ensures Valid()
      ensures Model() == AfterUnmount(old(Model()))
    {
      if cleanup.Some? {
        observers := observers - {cleanup.value};
        cleanup := None;
      }
      mounted := false;
      effectOpen := None;
    }
  }
}
