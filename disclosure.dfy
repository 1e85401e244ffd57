/** The `Reasoning` provider of `src/components/ui/reasoning.tsx`: who owns the
    open/closed flag (the caller, through the `open` prop, or the component,
    through its internal state cell), how `handleOpenChange` updates it and
    notifies the caller, the context lookup every consumer performs, and the
    click rule of `ReasoningTrigger`. */
module Disclosure {
  import opened Wrappers

  /** The props of `Reasoning` that bear on its state: the `open` prop (absent
      in uncontrolled use) and whether an `onOpenChange` observer is supplied. */
  datatype Props = Props(open: Option<bool>, hasOnOpenChange: bool)

  /** The state of one provider: its latest props, its internal state cell,
      and the arguments the caller's `onOpenChange` has received, in order. */
  datatype RootState = RootState(props: Props, internalOpen: bool, notified: seq<bool>)

  /** Controlled exactly when an `open` prop is supplied. */
  predicate IsControlled(s: RootState)
    ensures IsControlled(s) <==> s.props.open.Some?
  {
    s.props.open.Some?
  }

  /** The `isOpen` the provider reports to its consumers: the prop when one
      is supplied, whatever the internal cell holds; the cell otherwise. */
  function IsOpen(s: RootState): (r: bool)
    ensures IsControlled(s) ==> r == s.props.open.value
    ensures !IsControlled(s) ==> r == s.internalOpen
  {
    if IsControlled(s) then s.props.open.value else s.internalOpen
  }

  /** The state of a freshly mounted provider: the internal cell starts open
      in both modes, so an instance mounted controlled that later loses its
      `open` prop reports open. */
  function Mount(p: Props): (s: RootState)
    ensures s.props == p && s.notified == [] && s.internalOpen
    ensures IsControlled(s) <==> p.open.Some?
    ensures IsControlled(s) ==> IsOpen(s) == p.open.value
    ensures !IsControlled(s) ==> IsOpen(s)
  {
    RootState(p, true, [])
  }

  /** `handleOpenChange(newOpen)`: the internal cell is written only when the
      provider is uncontrolled; the caller's observer, when supplied, is
      notified once with `newOpen` in either mode. */
  function AfterOpenChange(s: RootState, newOpen: bool): (r: RootState)
    ensures r.props == s.props
    ensures !IsControlled(s) ==> IsOpen(r) == newOpen
    ensures IsControlled(s) ==> r.internalOpen == s.internalOpen && IsOpen(r) == IsOpen(s)
    ensures s.props.hasOnOpenChange ==> r.notified == s.notified + [newOpen]
    ensures !s.props.hasOnOpenChange ==> r.notified == s.notified
  {
    var internal := if IsControlled(s) then s.internalOpen else newOpen;
    var notified := if s.props.hasOnOpenChange then s.notified + [newOpen] else s.notified;
    RootState(s.props, internal, notified)
  }

  /** A re-render of the provider with new props: the internal cell survives,
      so an instance that stops being controlled reports its old internal value. */
  function WithProps(s: RootState, p: Props): (r: RootState)
    ensures r.props == p && r.internalOpen == s.internalOpen && r.notified == s.notified
    ensures p.open.None? ==> IsOpen(r) == s.internalOpen
  {
    s.(props := p)
  }

  /** What a trigger click asks for, given the `isOpen` the trigger rendered with. */
  function TriggerRequest(isOpen: bool): (b: bool)
    ensures b != isOpen
  {
    !isOpen
  }

  /** The events a provider sees: a direct `handleOpenChange` call, a click on
      a trigger rendered from the current context (one given no `onClick` of
      the caller's), and a re-render with new props. */
  datatype RootEvent = OpenChange(newOpen: bool) | TriggerClick | PropsChange(props: Props)

  function Step(s: RootState, e: RootEvent): RootState {
    match e
    case OpenChange(b) => AfterOpenChange(s, b)
    case TriggerClick => AfterOpenChange(s, TriggerRequest(IsOpen(s)))
    case PropsChange(p) => WithProps(s, p)
  }

  /** The state after a sequence of events, applied from the first. */
  function Run(s: RootState, evs: seq<RootEvent>): RootState
    decreases |evs|
  {
    if evs == [] then s else Run(Step(s, evs[0]), evs[1..])
  }

  predicate KeepsProps(evs: seq<RootEvent>) {
    forall i :: 0 <= i < |evs| ==> !evs[i].PropsChange?
  }

  predicate OnlyOpenChanges(evs: seq<RootEvent>) {
    forall i :: 0 <= i < |evs| ==> evs[i].OpenChange?
  }

  /** The values a sequence of direct `handleOpenChange` calls passes. */
  function Requested(evs: seq<RootEvent>): seq<bool>
    requires OnlyOpenChanges(evs)
    decreases |evs|
  {
    if evs == [] then [] else [evs[0].newOpen] + Requested(evs[1..])
  }

  /** `n` consecutive trigger clicks. */
  function Clicks(n: nat): seq<RootEvent> {
    if n == 0 then [] else [TriggerClick] + Clicks(n - 1)
  }

  function Repeat(b: bool, n: nat): seq<bool> {
    if n == 0 then [] else [b] + Repeat(b, n - 1)
  }

  /** Uncontrolled: after any non-empty sequence of `handleOpenChange` calls
      the reported `isOpen` is the value passed last. */
  lemma {:induction false} UncontrolledFollowsLastChange(s: RootState, evs: seq<RootEvent>)
    requires !IsControlled(s) && OnlyOpenChanges(evs) && evs != []
    ensures !IsControlled(Run(s, evs))
    ensures IsOpen(Run(s, evs)) == evs[|evs| - 1].newOpen
    decreases |evs|
  {
    var t := Step(s, evs[0]);
    if |evs| > 1 {
      UncontrolledFollowsLastChange(t, evs[1..]);
    }
  }

  /** Controlled: as long as the props do not change, no event moves the
      reported `isOpen` off the `open` prop or writes the internal cell. */
  lemma {:induction false} ControlledIgnoresRequests(s: RootState, evs: seq<RootEvent>)
    requires IsControlled(s) && KeepsProps(evs)
    ensures Run(s, evs).props == s.props
    ensures Run(s, evs).internalOpen == s.internalOpen
    ensures IsOpen(Run(s, evs)) == s.props.open.value
    decreases |evs|
  {
    if evs != [] {
      assert !evs[0].PropsChange?;
      ControlledIgnoresRequests(Step(s, evs[0]), evs[1..]);
    }
  }

  /** Each `handleOpenChange(b)` notifies the caller exactly once, with `b`,
      in call order; nothing is recorded when no observer is supplied. */
  lemma {:induction false} OpenChangesNotifyInOrder(s: RootState, evs: seq<RootEvent>)
    requires OnlyOpenChanges(evs)
    ensures Run(s, evs).props == s.props
    ensures Run(s, evs).notified == s.notified + (if s.props.hasOnOpenChange then Requested(evs) else [])
    decreases |evs|
  {
    if evs != [] {
      var t := Step(s, evs[0]);
      OpenChangesNotifyInOrder(t, evs[1..]);
      assert Requested(evs) == [evs[0].newOpen] + Requested(evs[1..]);
    }
  }

  /** Uncontrolled: every trigger click flips the reported `isOpen`, so an
      even number of clicks restores it and an odd number negates it. */
  lemma {:induction false} UncontrolledClicksAlternate(s: RootState, n: nat)
    requires !IsControlled(s)
    ensures !IsControlled(Run(s, Clicks(n)))
    ensures IsOpen(Run(s, Clicks(n))) == (if n % 2 == 0 then IsOpen(s) else !IsOpen(s))
    decreases n
  {
    if n > 0 {
      assert Clicks(n)[1..] == Clicks(n - 1);
      UncontrolledClicksAlternate(Step(s, TriggerClick), n - 1);
    }
  }

  /** Controlled: the `open` prop does not move, so every click asks the
      caller for the same value, the negation of the prop. */
  lemma {:induction false} ControlledClicksRepeatRequest(s: RootState, n: nat)
    requires IsControlled(s)
    ensures IsOpen(Run(s, Clicks(n))) == IsOpen(s)
    ensures Run(s, Clicks(n)).notified
         == s.notified + (if s.props.hasOnOpenChange then Repeat(!IsOpen(s), n) else [])
    decreases n
  {
    if n > 0 {
      assert Clicks(n)[1..] == Clicks(n - 1);
      var t := Step(s, TriggerClick);
      ControlledClicksRepeatRequest(t, n - 1);
      assert Repeat(!IsOpen(s), n) == [!IsOpen(s)] + Repeat(!IsOpen(s), n - 1);
    }
  }

  /** The context value a provider publishes: its `isOpen` and a handle whose
      `HandleOpenChange` is the provider's `handleOpenChange`. */
  datatype Ctx = Ctx(isOpen: bool, provider: Reasoning)

  const MissingProvider: string := "useReasoningContext must be used within a Reasoning provider"

  /** `useReasoningContext`: outside a provider it fails, never a default. */
  function UseReasoningContext(c: Option<Ctx>): (r: Result<Ctx, string>)
    ensures r.Failure? <==> c.None?
    ensures c.Some? ==> r == Success(c.value)
    ensures c.None? ==> r.error == MissingProvider
  {
    match c
    case None => Failure(MissingProvider)
    case Some(ctx) => Success(ctx)
  }

  /** One mounted `Reasoning` component. */
  class Reasoning {
    var open: Option<bool>
    var hasOnOpenChange: bool
    var internalOpen: bool
    var notified: seq<bool>

    function Model(): RootState
      reads this
    {
      RootState(Props(open, hasOnOpenChange), internalOpen, notified)
    }

    /** The value the provider publishes to its consumers at render time. */
    function Context(): (c: Ctx)
      reads this
      ensures c.isOpen == IsOpen(Model()) && c.provider == this
    {
      Ctx(if open.Some? then open.value else internalOpen, this)
    }

    constructor (p: Props)
      ensures Model() == Mount(p)
    {
      open := p.open;
      hasOnOpenChange := p.hasOnOpenChange;
      internalOpen := true;
      notified := [];
    }

    method HandleOpenChange(newOpen: bool)
      modifies this
      ensures Model() == AfterOpenChange(old(Model()), newOpen)
    {
      if open.None? {
        internalOpen := newOpen;
      }
      if hasOnOpenChange {
        notified := notified + [newOpen];
      }
    }

    method SetProps(p: Props)
      modifies this
      ensures Model() == WithProps(old(Model()), p)
    {
      open := p.open;
      hasOnOpenChange := p.hasOnOpenChange;
    }
  }

  /** A click on a `ReasoningTrigger`. Rendering it looks up the context,
      which fails outside a provider (nothing changes). The caller's props are
      spread after the trigger's own `onClick`, so a caller who passes an
      `onClick` key (even one whose value is undefined) replaces the toggle:
      nothing is requested and the provider is untouched. Otherwise the click
      asks the provider for the negation of the `isOpen` the trigger rendered
      with. The result is the value requested, if any. */
  method ClickTrigger(c: Option<Ctx>, callerOnClick: bool) returns (r: Result<Option<bool>, string>)
    modifies if c.Some? then {c.value.provider} else {}
    ensures c.None? ==> r == Failure(MissingProvider)
    ensures c.Some? && callerOnClick ==> r == Success(None) && unchanged(c.value.provider)
    ensures c.Some? && !callerOnClick ==> r == Success(Some(!c.value.isOpen))
    ensures c.Some? && !callerOnClick ==>
              c.value.provider.Model() == AfterOpenChange(old(c.value.provider.Model()), !c.value.isOpen)
  {
    var ctx := UseReasoningContext(c);
    if ctx.Failure? {
      return Failure(ctx.error);
    }
    if callerOnClick {
      return Success(None);
    }
    var request := TriggerRequest(ctx.value.isOpen);
    ctx.value.provider.HandleOpenChange(request);
    return Success(Some(request));
  }

  /** A click on a trigger rendered from the provider's current context is the
      `TriggerClick` step of the provider's state machine, unless the caller
      replaced the trigger's `onClick`. */
  method ClickFreshTrigger(root: Reasoning, callerOnClick: bool) returns (r: Result<Option<bool>, string>)
    modifies root
    ensures callerOnClick ==> r == Success(None) && unchanged(root)
    ensures !callerOnClick ==> r == Success(Some(!IsOpen(old(root.Model()))))
    ensures !callerOnClick ==> root.Model() == Step(old(root.Model()), TriggerClick)
  {
    r := ClickTrigger(Some(root.Context()), callerOnClick);
  }
}
