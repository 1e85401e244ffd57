/** `ReasoningResponse`: the defaults it passes to the text-stream hook, the
    view it renders from the context and its `showFixedText` state cell, a
    latch that the hook's completion callback sets while forwarding the
    caller's `onComplete`. The hook itself is outside this model; its
    completion callback enters as an event. */
module ResponseLatch {
  import opened Wrappers
  import opened Disclosure

  datatype Mode = Typewriter | Fade

  const DefaultSpeed: int := 20
  const DefaultMode: Mode := Typewriter

  /** The props of `ReasoningResponse` that reach the hook or the view
      (the text source itself is passed through untouched). */
  datatype ResponseProps = ResponseProps(
    speed: Option<int>,
    mode: Option<Mode>,
    fadeDuration: Option<int>,
    segmentDelay: Option<int>,
    characterChunkSize: Option<int>,
    fixedText: Option<string>)

  /** The options handed to the text-stream hook. */
  datatype StreamOptions = StreamOptions(
    speed: int,
    mode: Mode,
    fadeDuration: Option<int>,
    segmentDelay: Option<int>,
    characterChunkSize: Option<int>)

  /** A default applies only where the prop is absent; a supplied value, zero
      included, is passed as given, and the fade and chunk options pass
      through with no default of this component's own. */
  function StreamOptionsOf(p: ResponseProps): (o: StreamOptions)
    ensures p.speed.None? ==> o.speed == DefaultSpeed
    ensures p.speed.Some? ==> o.speed == p.speed.value
    ensures p.mode.None? ==> o.mode == Typewriter
    ensures p.mode.Some? ==> o.mode == p.mode.value
    ensures o.fadeDuration == p.fadeDuration && o.segmentDelay == p.segmentDelay
    ensures o.characterChunkSize == p.characterChunkSize
  {
    var speed := match p.speed case None => DefaultSpeed case Some(v) => v;
    var mode := match p.mode case None => DefaultMode case Some(m) => m;
    StreamOptions(speed, mode, p.fadeDuration, p.segmentDelay, p.characterChunkSize)
  }

  /** The fixed-text block: not rendered at all, rendered collapsed, or
      rendered expanded. */
  datatype Panel = Absent | Collapsed | Expanded

  /** The block is rendered only for a non-empty `fixedText` (an empty string
      is falsy), and it is expanded exactly when `showFixedText` is set. */
  function FixedTextPanel(fixedText: Option<string>, showFixedText: bool): (r: Panel)
    ensures r == Absent <==> fixedText.None? || fixedText.value == ""
    ensures r == Expanded <==> r != Absent && showFixedText
  {
    match fixedText
    case None => Absent
    case Some(t) => if t == "" then Absent else if showFixedText then Expanded else Collapsed
  }

  /** The render-time opacity choice (presentation: the fade itself is CSS):
      fully opaque when open, transparent when closed. */
  function Opacity(isOpen: bool): (r: nat)
    ensures r <= 1
    ensures r == 1 <==> isOpen
  {
    if isOpen then 1 else 0
  }

  datatype ResponseView = ResponseView(options: StreamOptions, opacity: nat, panel: Panel)

  /** The latch: `showFixedText`, and how many times the caller's
      `onComplete` has been called. */
  datatype LatchState = LatchState(showFixedText: bool, onCompleteCalls: nat)

  /** The hook's completion callback firing (with or without an `onComplete`
      from the caller), or a re-render, for instance with a new text. */
  datatype ResponseEvent = StreamCompleted(hasOnComplete: bool) | Rerender

  function InitialLatch(): (s: LatchState)
    ensures !s.showFixedText && s.onCompleteCalls == 0
  {
    LatchState(false, 0)
  }

  /** The completion callback sets the latch and, in the same call, forwards
      to the caller's `onComplete` when there is one; nothing else touches
      the latch, and nothing resets it. */
  function LatchStep(s: LatchState, e: ResponseEvent): (r: LatchState)
    ensures e.StreamCompleted? ==> r.showFixedText
    ensures e.StreamCompleted? ==> r.onCompleteCalls == s.onCompleteCalls + (if e.hasOnComplete then 1 else 0)
    ensures e.Rerender? ==> r == s
    ensures s.showFixedText ==> r.showFixedText
  {
    match e
    case StreamCompleted(has) =>
      LatchState(true, if has then s.onCompleteCalls + 1 else s.onCompleteCalls)
    case Rerender => s
  }

  function LatchRun(s: LatchState, evs: seq<ResponseEvent>): LatchState
    decreases |evs|
  {
    if evs == [] then s else LatchRun(LatchStep(s, evs[0]), evs[1..])
  }

  /** How many completion callbacks fired in `evs`. */
  function Completions(evs: seq<ResponseEvent>): nat
    decreases |evs|
  {
    if evs == [] then 0 else (if evs[0].StreamCompleted? then 1 else 0) + Completions(evs[1..])
  }

  /** How many of those completion callbacks had a caller's `onComplete` to forward to. */
  function Forwarded(evs: seq<ResponseEvent>): (n: nat)
    ensures n <= Completions(evs)
    decreases |evs|
  {
    if evs == [] then 0
    else (if evs[0] == StreamCompleted(true) then 1 else 0) + Forwarded(evs[1..])
  }

  /** Over any sequence of events, `showFixedText` is set exactly when it was
      already set or a completion callback fired, and the caller's
      `onComplete` is called once per completion callback that carries it. */
  lemma {:induction false} LatchRunMeaning(s: LatchState, evs: seq<ResponseEvent>)
    ensures LatchRun(s, evs).showFixedText == (s.showFixedText || Completions(evs) > 0)
    ensures LatchRun(s, evs).onCompleteCalls == s.onCompleteCalls + Forwarded(evs)
    decreases |evs|
  {
    if evs != [] {
      LatchRunMeaning(LatchStep(s, evs[0]), evs[1..]);
    }
  }

  /** From mount, `showFixedText` stays false until the first completion. */
  lemma {:induction false} FalseUntilCompletion(evs: seq<ResponseEvent>)
    requires forall i :: 0 <= i < |evs| ==> evs[i].Rerender?
    ensures LatchRun(InitialLatch(), evs) == InitialLatch()
  {
    LatchRunMeaning(InitialLatch(), evs);
    NoCompletions(evs);
  }

  lemma {:induction false} NoCompletions(evs: seq<ResponseEvent>)
    requires forall i :: 0 <= i < |evs| ==> evs[i].Rerender?
    ensures Completions(evs) == 0 && Forwarded(evs) == 0
    decreases |evs|
  {
    if evs != [] {
      NoCompletions(evs[1..]);
    }
  }

  /** One `ReasoningResponse` instance. */
  class ReasoningResponse {
    var showFixedText: bool
    var onCompleteCalls: nat

    function Latch(): LatchState
      reads this
    {
      LatchState(showFixedText, onCompleteCalls)
    }

    constructor ()
      ensures Latch() == InitialLatch()
    {
      showFixedText := false;
      onCompleteCalls := 0;
    }

    /** The `onComplete` callback this component hands to the hook. */
    method OnStreamComplete(hasOnComplete: bool)
      modifies this
      ensures Latch() == LatchStep(old(Latch()), StreamCompleted(hasOnComplete))
    {
      showFixedText := true;
      if hasOnComplete {
        onCompleteCalls := onCompleteCalls + 1;
      }
    }

    /** A render: outside a provider it fails before anything else; otherwise
        it passes the defaulted options to the hook, fades with `isOpen`, and
        shows the fixed-text block as the latch says. It changes nothing. */
    method Render(c: Option<Ctx>, p: ResponseProps) returns (r: Result<ResponseView, string>)
      ensures c.None? ==> r == Failure(MissingProvider)
      ensures c.Some? ==> r.Success?
      ensures c.Some? ==> r.value.options == StreamOptionsOf(p)
      ensures c.Some? ==> r.value.opacity == Opacity(c.value.isOpen)
      ensures c.Some? ==> r.value.panel == FixedTextPanel(p.fixedText, showFixedText)
    {
      var ctx := UseReasoningContext(c);
      if ctx.Failure? {
        return Failure(ctx.error);
      }
      var options := StreamOptionsOf(p);
      var opacity := if ctx.value.isOpen then 1 else 0;
      var panel := Absent;
      if p.fixedText.Some? && p.fixedText.value != "" {
        panel := if showFixedText then Expanded else Collapsed;
      }
      return Success(ResponseView(options, opacity, panel));
    }
  }
}
