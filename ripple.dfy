/**
 * The ripple lifecycle: the trigger closure `useRipple` hands out, the
 * ripple element it spawns and styles, the cancel closure, the document's
 * release listeners, and the queue of animation-frame and timer callbacks
 * that grow, fade and finally remove the ripple.
 */
module Ripple {
  import opened Wrappers
  import opened Lists
  import opened Styles
  import opened Geometry
  import opened Dom
  import opened Options

  /** Fraction of the duration the grow animation gets before a fade may start. */
  const CompletedFactor: real := 0.4

  const Scale0: string := "translate(-50%, -50%) scale(0)"
  const Scale1: string := "translate(-50%, -50%) scale(1)"

  // ---------------------------------------------------------------------
  // Host preparation
  // ---------------------------------------------------------------------

  /**
   * The host's inline style after the trigger prepares it: overflow is
   * clipped, and a host whose computed position is `static` becomes
   * `relative` so the absolutely positioned ripple is laid out inside it.
   */
  function PrepareHost(style: Style, cascaded: string): Style {
    var clipped := Written(style, [Declaration("overflow", Keyword("hidden"))]);
    if ComputedPosition(clipped, cascaded) == "static"
    then Written(clipped, [Declaration("position", Keyword("relative"))])
    else clipped
  }

  /**
   * Preparation clips overflow, sets `position: relative` exactly when the
   * computed position was `static`, and touches no other property.
   */
  lemma PrepareHostEffect(style: Style, cascaded: string)
    ensures var r := PrepareHost(style, cascaded);
      && "overflow" in r && r["overflow"] == Keyword("hidden")
      && (ComputedPosition(style, cascaded) == "static" ==>
            "position" in r && r["position"] == Keyword("relative"))
      && (ComputedPosition(style, cascaded) != "static" ==>
            ("position" in r <==> "position" in style) &&
            ("position" in style ==> r["position"] == style["position"]))
      && forall k | k != "overflow" && k != "position" ::
            (k in r <==> k in style) && (k in style ==> r[k] == style[k])
  {
    var clip, rel := Declaration("overflow", Keyword("hidden")), Declaration("position", Keyword("relative"));
    WrittenOne(style, clip);
    var clipped := style["overflow" := Keyword("hidden")];
    WrittenOne(clipped, rel);
    assert ComputedPosition(clipped, cascaded) == ComputedPosition(style, cascaded);
  }

  /** Preparing a host twice leaves it as preparing it once does. */
  lemma PrepareHostIdempotent(style: Style, cascaded: string)
    ensures PrepareHost(PrepareHost(style, cascaded), cascaded) == PrepareHost(style, cascaded)
  {
    var once := PrepareHost(style, cascaded);
    PrepareHostEffect(style, cascaded);
    WrittenOne(once, Declaration("overflow", Keyword("hidden")));
    assert once["overflow" := Keyword("hidden")] == once;
    if ComputedPosition(style, cascaded) == "static" {
      assert ComputedPosition(once, cascaded) == "relative";
    } else {
      assert ComputedPosition(once, cascaded) == ComputedPosition(style, cascaded);
    }
  }

  // ---------------------------------------------------------------------
  // Ripple styles
  // ---------------------------------------------------------------------

  /** The declarations `createRipple` writes into a new ripple. */
  function RippleStyles(e: MinimalEvent, box: Box, o: Options): seq<Declaration> {
    var reach := RippleReach(e, box);
    var size := TwiceHypotPx(reach.vertical, reach.horizontal);
    [ Declaration("position", Keyword("absolute")),
      Declaration("height", size),
      Declaration("width", size),
      Declaration("transform", Keyword(Scale0)),
      Declaration("pointer-events", Keyword("none")),
      Declaration("border-radius", Keyword("50%")),
      Declaration("opacity", Keyword(".6")),
      Declaration("background", Keyword(o.color)),
      Declaration("transition",
                  Transition(o.duration * 0.6, o.timingFunction, Max(o.duration * 0.05, 140.0), "ease-out", None)) ]
  }

  /** The declarations `centerElementToPointer` writes. */
  function PointerStyles(e: MinimalEvent, box: Box): seq<Declaration> {
    var off := PointerOffset(e, box);
    [Declaration("top", Px(off.top)), Declaration("left", Px(off.left))]
  }

  /** The declaration the grow frame writes. */
  function GrowStyles(): seq<Declaration> {
    [Declaration("transform", Keyword(Scale1))]
  }

  /** The declarations `cancelRippleAnimation` writes. */
  function FadeStyles(duration: real, timingFunction: string): seq<Declaration> {
    [ Declaration("opacity", Keyword("0")),
      Declaration("transition",
                  Transition(duration * 0.6, timingFunction, duration * 0.65, "ease-in-out", Some(duration * 0.13))) ]
  }

  /** A new ripple's inline style at the moment it is appended to the host. */
  function SpawnStyle(e: MinimalEvent, box: Box, o: Options): Style {
    Written(Written(map[], RippleStyles(e, box, o)), PointerStyles(e, box))
  }

  /** Writing the ripple styles into an empty style gives one entry per declaration. */
  lemma CreatedStyle(e: MinimalEvent, box: Box, o: Options)
    ensures var rs := RippleStyles(e, box, o);
      Written(map[], rs) ==
        map[][rs[0].property := rs[0].value][rs[1].property := rs[1].value][rs[2].property := rs[2].value]
             [rs[3].property := rs[3].value][rs[4].property := rs[4].value][rs[5].property := rs[5].value]
             [rs[6].property := rs[6].value][rs[7].property := rs[7].value][rs[8].property := rs[8].value]
  {
    var rs := RippleStyles(e, box, o);
    assert rs[..1] == rs[..0] + [rs[0]];
    WrittenSnoc(map[], rs[..0], rs[0]);
    assert rs[..2] == rs[..1] + [rs[1]];
    WrittenSnoc(map[], rs[..1], rs[1]);
    assert rs[..3] == rs[..2] + [rs[2]];
    WrittenSnoc(map[], rs[..2], rs[2]);
    assert rs[..4] == rs[..3] + [rs[3]];
    WrittenSnoc(map[], rs[..3], rs[3]);
    assert rs[..5] == rs[..4] + [rs[4]];
    WrittenSnoc(map[], rs[..4], rs[4]);
    assert rs[..6] == rs[..5] + [rs[5]];
    WrittenSnoc(map[], rs[..5], rs[5]);
    assert rs[..7] == rs[..6] + [rs[6]];
    WrittenSnoc(map[], rs[..6], rs[6]);
    assert rs[..8] == rs[..7] + [rs[7]];
    WrittenSnoc(map[], rs[..7], rs[7]);
    assert rs[..9] == rs[..8] + [rs[8]];
    WrittenSnoc(map[], rs[..8], rs[8]);
    assert rs[..9] == rs;
  }

  /**
   * A new ripple is an absolutely positioned circle at zero scale and .6
   * opacity, centred on the pointer, whose diameter is twice the hypotenuse
   * of the reach legs; it ignores the pointer, and its opacity transition
   * lasts 5% of the duration but never less than 140 ms.
   */
  lemma SpawnStyleShape(e: MinimalEvent, box: Box, o: Options)
    ensures var s, reach := SpawnStyle(e, box, o), RippleReach(e, box);
      && "position" in s && s["position"] == Keyword("absolute")
      && "transform" in s && s["transform"] == Keyword(Scale0)
      && "opacity" in s && s["opacity"] == Keyword(".6")
      && "background" in s && s["background"] == Keyword(o.color)
      && "pointer-events" in s && s["pointer-events"] == Keyword("none")
      && "border-radius" in s && s["border-radius"] == Keyword("50%")
      && "transition" in s
      && s["transition"] == Transition(o.duration * 0.6, o.timingFunction, Max(o.duration * 0.05, 140.0), "ease-out", None)
      && "height" in s && s["height"] == TwiceHypotPx(reach.vertical, reach.horizontal)
      && "width" in s && s["width"] == TwiceHypotPx(reach.vertical, reach.horizontal)
      && "top" in s && s["top"] == Px(e.clientY - box.top)
      && "left" in s && s["left"] == Px(e.clientX - box.left)
  {
    var rs, ps := RippleStyles(e, box, o), PointerStyles(e, box);
    CreatedStyle(e, box, o);
    var created := Written(map[], rs);
    WrittenOne(created, ps[0]);
    assert ps == [ps[0]] + [ps[1]];
    WrittenSnoc(created, [ps[0]], ps[1]);
  }

  /**
   * After the grow frame and the fade, the ripple is at full scale and
   * fading to opacity 0 over 65% of the duration after a 13% delay, still
   * centred where it was spawned.
   */
  lemma FadedStyleShape(e: MinimalEvent, box: Box, o: Options, duration: real, timingFunction: string)
    ensures var s := Written(Written(SpawnStyle(e, box, o), GrowStyles()), FadeStyles(duration, timingFunction));
      && "transform" in s && s["transform"] == Keyword(Scale1)
      && "opacity" in s && s["opacity"] == Keyword("0")
      && "transition" in s
      && s["transition"] == Transition(duration * 0.6, timingFunction, duration * 0.65, "ease-in-out", Some(duration * 0.13))
      && "top" in s && s["top"] == Px(e.clientY - box.top)
      && "left" in s && s["left"] == Px(e.clientX - box.left)
  {
    var spawned := SpawnStyle(e, box, o);
    var fades := FadeStyles(duration, timingFunction);
    SpawnStyleShape(e, box, o);
    WrittenOne(spawned, GrowStyles()[0]);
    var grown := spawned["transform" := Keyword(Scale1)];
    WrittenOne(grown, fades[0]);
    assert fades == [fades[0]] + [fades[1]];
    WrittenSnoc(grown, [fades[0]], fades[1]);
  }

  // ---------------------------------------------------------------------
  // Cancellation timing
  // ---------------------------------------------------------------------

  /**
   * The delay `cancelRipple` puts before the fade, given the spawn time and
   * the release time: the fade never starts before `CompletedFactor` of the
   * duration has passed since spawn, and starts at once when it already has.
   */
  function CancelDelay(begun: real, now: real, duration: real): (delay: real)
    ensures now >= begun ==> delay >= 0.0
    ensures now + delay >= begun + CompletedFactor * duration
    ensures delay == 0.0 <==> now - begun >= CompletedFactor * duration
    ensures delay != 0.0 ==> now + delay == begun + CompletedFactor * duration
  {
    var diff := now - begun;
    if diff > 0.4 * duration then 0.0 else CompletedFactor * duration - diff
  }

  // ---------------------------------------------------------------------
  // Callback queue
  // ---------------------------------------------------------------------

  /** The callbacks the ripple schedules, each bound to its ripple element. */
  datatype Callback =
      // the frame after spawning: scale to 1
    | GrowRipple(ripple: Element)
      // the cancel timer: `cancelRippleAnimation`
    | FadeRipple(ripple: Element, duration: real, timingFunction: string)
      // the frame after fading starts: install the self-removing listener
    | ArmRemoval(ripple: Element)

  /** A `setTimeout` request: when it was made, the delay asked for, and what runs. */
  datatype Timer = Timer(requestedAt: real, delay: real, callback: Callback)

  /**
   * What running `cb` does to its ripple and to the frame queue, between
   * `old` and now; the ripple's place in the tree never changes.
   */
  twostate predicate Performed(cb: Callback, framesBefore: seq<Callback>, new framesAfter: seq<Callback>)
    reads cb.ripple
  {
    && cb.ripple.parent == old(cb.ripple.parent)
    && cb.ripple.children == old(cb.ripple.children)
    && match cb
       case GrowRipple(r) =>
         && r.style == Written(old(r.style), GrowStyles())
         && r.transitionEndListeners == old(r.transitionEndListeners)
         && framesAfter == framesBefore
       case FadeRipple(r, d, tf) =>
         && r.style == Written(old(r.style), FadeStyles(d, tf))
         && r.transitionEndListeners == old(r.transitionEndListeners)
         && framesAfter == framesBefore + [ArmRemoval(r)]
       case ArmRemoval(r) =>
         && r.style == old(r.style)
         && r.transitionEndListeners == old(r.transitionEndListeners) + [RemoveOnOpacityEnd]
         && framesAfter == framesBefore
  }

  /**
   * The browser's pending `requestAnimationFrame` and `setTimeout` callbacks,
   * each queue drained in the order it was filled.
   */
  class Scheduler {
    var frames: seq<Callback>
    var timers: seq<Timer>

    constructor ()
      ensures frames == [] && timers == []
    {
      frames := [];
      timers := [];
    }

    method RequestAnimationFrame(cb: Callback)
      modifies this
      ensures frames == old(frames) + [cb] && timers == old(timers)
    {
      frames := frames + [cb];
    }

    method SetTimeout(cb: Callback, now: real, delay: real)
      modifies this
      ensures timers == old(timers) + [Timer(now, delay, cb)] && frames == old(frames)
    {
      timers := timers + [Timer(now, delay, cb)];
    }

    /** Runs one callback. */
    method Run(cb: Callback)
      modifies this, cb.ripple
      ensures Performed(cb, old(frames), frames)
      ensures timers == old(timers)
    {
      match cb
      case GrowRipple(r) =>
        var _ := ApplyStyles(GrowStyles(), r);
      case FadeRipple(r, d, tf) =>
        CancelRippleAnimation(r, d, tf, this);
      case ArmRemoval(r) =>
        r.AddTransitionEndListener(RemoveOnOpacityEnd);
    }

    /** Runs the oldest pending frame callback, if there is one. */
    method RunNextFrame() returns (ran: bool)
      modifies this, if frames == [] then {} else {frames[0].ripple}
      ensures ran == (old(frames) != [])
      ensures !ran ==> frames == old(frames) && timers == old(timers)
      ensures ran ==> Performed(old(frames[0]), old(frames[1..]), frames) && timers == old(timers)
    {
      if frames == [] {
        return false;
      }
      var cb := frames[0];
      frames := frames[1..];
      Run(cb);
      return true;
    }

    /** Runs the oldest pending timer callback, if there is one. */
    method RunNextTimer() returns (ran: bool)
      modifies this, if timers == [] then {} else {timers[0].callback.ripple}
      ensures ran == (old(timers) != [])
      ensures !ran ==> frames == old(frames) && timers == old(timers)
      ensures ran ==> Performed(old(timers[0].callback), old(frames), frames) && timers == old(timers[1..])
    {
      if timers == [] {
        return false;
      }
      var t := timers[0];
      timers := timers[1..];
      Run(t.callback);
      return true;
    }
  }

  /**
   * `cancelRippleAnimation`: fade the ripple to opacity 0 and, on the next
   * frame, install the listener that removes it once the fade has ended.
   */
  method CancelRippleAnimation(element: Element, duration: real, timingFunction: string, sched: Scheduler)
    modifies element, sched
    ensures element.style == Written(old(element.style), FadeStyles(duration, timingFunction))
    ensures unchanged(element`parent, element`children, element`transitionEndListeners)
    ensures sched.frames == old(sched.frames) + [ArmRemoval(element)]
    ensures sched.timers == old(sched.timers)
  {
    var _ := ApplyStyles(FadeStyles(duration, timingFunction), element);
    sched.RequestAnimationFrame(ArmRemoval(element));
  }

  // ---------------------------------------------------------------------
  // Release listeners and the cancel closure
  // ---------------------------------------------------------------------

  /** The document events that release a ripple. */
  datatype ReleaseEvent = MouseUp | TouchEnd

  /** `["mouseup", "touchend"]`, in the order the source registers them. */
  const ReleaseEvents: seq<ReleaseEvent> := [MouseUp, TouchEnd]

  /** One `addEventListener(eventType, listener)` on the document. */
  datatype Registration = Registration(eventType: ReleaseEvent, listener: Canceller)

  /** What `cancelRipple` adds for `c`: one registration per release event, `mouseup` first. */
  function Registrations(c: Canceller): seq<Registration> {
    [Registration(MouseUp, c), Registration(TouchEnd, c)]
  }

  /** `regs` without any registration of `c`. */
  function Unregistered(regs: seq<Registration>, c: Canceller): (r: seq<Registration>)
    ensures forall i | 0 <= i < |r| :: r[i] in regs && r[i].listener != c
    ensures forall i | 0 <= i < |regs| && regs[i].listener != c :: regs[i] in r
  {
    if regs == [] then []
    else (if regs[0].listener == c then [] else [regs[0]]) + Unregistered(regs[1..], c)
  }

  /** `regs` without any registration of the cancellers in `cs`. */
  function UnregisteredAll(regs: seq<Registration>, cs: seq<Canceller>): (r: seq<Registration>)
    ensures forall i | 0 <= i < |r| :: r[i] in regs && r[i].listener !in cs
  {
    if cs == [] then regs
    else Unregistered(UnregisteredAll(regs, cs[..|cs| - 1]), cs[|cs| - 1])
  }

  /** A registration of a canceller outside `cs` survives their unregistering. */
  lemma {:induction false} UnregisteredAllKeeps(regs: seq<Registration>, cs: seq<Canceller>)
    ensures forall i | 0 <= i < |regs| && regs[i].listener !in cs :: regs[i] in UnregisteredAll(regs, cs)
  {
    if cs != [] {
      var init := cs[..|cs| - 1];
      UnregisteredAllKeeps(regs, init);
      forall i | 0 <= i < |regs| && regs[i].listener !in cs
        ensures regs[i] in UnregisteredAll(regs, cs)
      {
        assert regs[i].listener !in init;
        var rest := UnregisteredAll(regs, init);
        var j :| 0 <= j < |rest| && rest[j] == regs[i];
      }
    }
  }

  /** The listeners registered for `eventType`. */
  function ListenersFor(regs: seq<Registration>, eventType: ReleaseEvent): (cs: seq<Canceller>)
    ensures forall i | 0 <= i < |cs| :: Registration(eventType, cs[i]) in regs
    ensures forall i | 0 <= i < |regs| && regs[i].eventType == eventType :: regs[i].listener in cs
  {
    if regs == [] then []
    else (if regs[0].eventType == eventType then [regs[0].listener] else []) + ListenersFor(regs[1..], eventType)
  }

  /** Registration order is kept: unregistering from `a + b` unregisters from `a`, then from `b`. */
  lemma {:induction false} UnregisteredAppend(a: seq<Registration>, b: seq<Registration>, c: Canceller)
    ensures Unregistered(a + b, c) == Unregistered(a, c) + Unregistered(b, c)
  {
    if a != [] {
      UnregisteredAppend(a[1..], b, c);
      assert (a + b)[1..] == a[1..] + b;
    } else {
      assert a + b == b;
    }
  }

  /**
   * What the registrations of `c` do: each release event reaches `c` exactly
   * once, and unregistering `c` leaves none of them behind.
   */
  lemma RegistrationsReach(c: Canceller)
    ensures forall e: ReleaseEvent :: ListenersFor(Registrations(c), e) == [c]
    ensures Unregistered(Registrations(c), c) == []
  {
    var regs := Registrations(c);
    var tail := regs[1..];
    assert tail == [Registration(TouchEnd, c)] && tail[1..] == [];
    assert ListenersFor(tail, MouseUp) == [] + ListenersFor(tail[1..], MouseUp) == [];
    assert ListenersFor(tail, TouchEnd) == [c] + ListenersFor(tail[1..], TouchEnd) == [c];
    assert ListenersFor(regs, MouseUp) == [c] + ListenersFor(tail, MouseUp) == [c];
    assert ListenersFor(regs, TouchEnd) == [] + ListenersFor(tail, TouchEnd) == [c];
    assert Unregistered(tail, c) == [] + Unregistered(tail[1..], c) == [];
  }

  /**
   * Removing the registration for each release event in turn removes every
   * registration of `c`, since release events are the only ones registered.
   */
  lemma {:induction false} RemoveBoth(regs: seq<Registration>, c: Canceller)
    ensures Without(Without(regs, Registration(MouseUp, c)), Registration(TouchEnd, c)) == Unregistered(regs, c)
  {
    if regs != [] {
      var head, tail := regs[0], regs[1..];
      var up, end := Registration(MouseUp, c), Registration(TouchEnd, c);
      var rest := Without(tail, up);
      RemoveBoth(tail, c);
      assert regs == [head] + tail;
      WithoutCons(head, tail, up);
      assert Unregistered(regs, c) == (if head.listener == c then [] else [head]) + Unregistered(tail, c);
      if head == up {
        assert Without(regs, up) == rest;
      } else {
        assert Without(regs, up) == [head] + rest;
        WithoutCons(head, rest, end);
        if head != end {
          assert head.eventType.MouseUp? || head.eventType.TouchEnd?;
          assert head.listener != c;
        }
      }
    }
  }

  /**
   * Single fire: once the listeners for one release event have fired, none
   * of them is left registered for any release event.
   */
  lemma SingleFire(regs: seq<Registration>, fired: ReleaseEvent, next: ReleaseEvent)
    ensures var fs := ListenersFor(regs, fired);
      forall c | c in ListenersFor(UnregisteredAll(regs, fs), next) :: c !in fs
  {
  }

  /**
   * With no pair registered twice, one release event reaches each listener
   * at most once, so no canceller fires twice in one dispatch.
   */
  lemma {:induction false} ListenersForDistinct(regs: seq<Registration>, eventType: ReleaseEvent)
    requires Distinct(regs)
    ensures Distinct(ListenersFor(regs, eventType))
  {
    if regs != [] {
      var tail := regs[1..];
      DistinctTail(regs);
      ListenersForDistinct(tail, eventType);
      if regs[0].eventType == eventType {
        var l := regs[0].listener;
        assert regs[0] == Registration(eventType, l);
        assert l !in ListenersFor(tail, eventType);
        DistinctCons(l, ListenersFor(tail, eventType));
      }
    }
  }

  /** The fade timer `cancelRipple` sets when released at `now`: never due before `CompletedFactor` of the duration. */
  function FadeTimer(c: Canceller, now: real): (t: Timer)
    ensures t.requestedAt + t.delay >= c.begun + CompletedFactor * c.duration
    ensures now >= c.begun ==> t.delay >= 0.0
    ensures t.callback == FadeRipple(c.ripple, c.duration, c.timingFunction)
  {
    Timer(now, CancelDelay(c.begun, now, c.duration), FadeRipple(c.ripple, c.duration, c.timingFunction))
  }

  /** The fade timers of the cancellers `cs` released at `now`, in order. */
  function FadeTimers(cs: seq<Canceller>, now: real): (ts: seq<Timer>)
    ensures |ts| == |cs|
    ensures forall i | 0 <= i < |cs| :: ts[i] == FadeTimer(cs[i], now)
  {
    if cs == [] then [] else FadeTimers(cs[..|cs| - 1], now) + [FadeTimer(cs[|cs| - 1], now)]
  }

  lemma FadeTimersPrefix(cs: seq<Canceller>, i: nat, now: real)
    requires i < |cs|
    ensures FadeTimers(cs[..i + 1], now) == FadeTimers(cs[..i], now) + [FadeTimer(cs[i], now)]
  {
    assert cs[..i + 1][..i] == cs[..i];
  }

  lemma UnregisteredAllPrefix(regs: seq<Registration>, cs: seq<Canceller>, i: nat)
    requires i < |cs|
    ensures UnregisteredAll(regs, cs[..i + 1]) == Unregistered(UnregisteredAll(regs, cs[..i]), cs[i])
  {
    assert cs[..i + 1][..i] == cs[..i];
  }

  /**
   * The `cancelRipple` closure: it remembers when its ripple was spawned,
   * which ripple, and the options the fade needs.
   */
  class Canceller {
    const begun: real
    const ripple: Element
    const duration: real
    const timingFunction: string

    constructor (begun: real, ripple: Element, duration: real, timingFunction: string)
      ensures this.begun == begun && this.ripple == ripple
      ensures this.duration == duration && this.timingFunction == timingFunction
    {
      this.begun := begun;
      this.ripple := ripple;
      this.duration := duration;
      this.timingFunction := timingFunction;
    }

    /**
     * Calling `cancelRipple` at time `now`: set the fade timer, then take
     * itself off both release events of `doc`.
     */
    method Fire(now: real, doc: Document, sched: Scheduler)
      requires doc.Valid()
      modifies doc, sched
      ensures sched.timers == old(sched.timers) + [FadeTimer(this, now)]
      ensures sched.frames == old(sched.frames)
      ensures doc.listeners == Unregistered(old(doc.listeners), this)
      ensures doc.Valid()
    {
      sched.SetTimeout(FadeRipple(ripple, duration, timingFunction), now, CancelDelay(begun, now, duration));
      for i := 0 to |ReleaseEvents|
        invariant sched.timers == old(sched.timers) + [FadeTimer(this, now)]
        invariant sched.frames == old(sched.frames)
        invariant doc.Valid()
        invariant i == 0 ==> doc.listeners == old(doc.listeners)
        invariant i == 1 ==> doc.listeners == Without(old(doc.listeners), Registration(MouseUp, this))
        invariant i == 2 ==> doc.listeners == Without(Without(old(doc.listeners), Registration(MouseUp, this)),
                                                      Registration(TouchEnd, this))
      {
        doc.RemoveEventListener(ReleaseEvents[i], this);
      }
      RemoveBoth(old(doc.listeners), this);
    }
  }

  /** The document, as far as the ripple uses it: its release-event listeners. */
  class Document {
    var listeners: seq<Registration>

    /** The browser keeps at most one registration of each (event, listener) pair. */
    predicate Valid()
      reads this
    {
      Distinct(listeners)
    }

    constructor ()
      ensures listeners == [] && Valid()
    {
      listeners := [];
    }

    /** `addEventListener`: a listener already registered for the event is not added twice. */
    method AddEventListener(eventType: ReleaseEvent, listener: Canceller)
      requires Valid()
      modifies this
      ensures listeners == if Registration(eventType, listener) in old(listeners) then old(listeners)
                           else old(listeners) + [Registration(eventType, listener)]
      ensures Valid()
    {
      if Registration(eventType, listener) !in listeners {
        DistinctSnoc(listeners, Registration(eventType, listener));
        listeners := listeners + [Registration(eventType, listener)];
      }
    }

    method RemoveEventListener(eventType: ReleaseEvent, listener: Canceller)
      requires Valid()
      modifies this
      ensures listeners == Without(old(listeners), Registration(eventType, listener))
      ensures Valid()
    {
      WithoutDistinct(listeners, Registration(eventType, listener));
      listeners := Without(listeners, Registration(eventType, listener));
    }

    /**
     * A release event reaches the document at time `now`: every listener
     * registered for it when dispatch starts runs in registration order,
     * each setting its fade timer and unregistering itself.
     */
    method DispatchRelease(eventType: ReleaseEvent, now: real, sched: Scheduler)
      requires Valid()
      modifies this, sched
      ensures var fired := ListenersFor(old(listeners), eventType);
        && sched.timers == old(sched.timers) + FadeTimers(fired, now)
        && sched.frames == old(sched.frames)
        && listeners == UnregisteredAll(old(listeners), fired)
      ensures Valid()
    {
      ghost var regs, timers := listeners, sched.timers;
      var fired := ListenersFor(listeners, eventType);
      for i := 0 to |fired|
        invariant sched.timers == timers + FadeTimers(fired[..i], now)
        invariant sched.frames == old(sched.frames)
        invariant listeners == UnregisteredAll(regs, fired[..i])
        invariant Valid()
      {
        ghost var timersBefore, listenersBefore := sched.timers, listeners;
        FadeTimersPrefix(fired, i, now);
        UnregisteredAllPrefix(regs, fired, i);
        fired[i].Fire(now, this, sched);
        assert sched.timers == timersBefore + [FadeTimer(fired[i], now)];
        assert listeners == Unregistered(listenersBefore, fired[i]);
      }
      assert fired[..|fired|] == fired;
    }
  }

  // ---------------------------------------------------------------------
  // Spawning
  // ---------------------------------------------------------------------

  /**
   * `createRipple`: a new detached div carrying the ripple styles, with the
   * grow callback queued for the next frame.
   */
  method CreateRipple(e: MinimalEvent, box: Box, o: Options, sched: Scheduler) returns (element: Element)
    modifies sched
    ensures fresh(element)
    ensures element.style == Written(map[], RippleStyles(e, box, o))
    ensures element.parent == null && element.children == [] && element.transitionEndListeners == []
    ensures sched.frames == old(sched.frames) + [GrowRipple(element)]
    ensures sched.timers == old(sched.timers)
  {
    element := new Element("static");
    sched.RequestAnimationFrame(GrowRipple(element));
    var _ := ApplyStyles(RippleStyles(e, box, o), element);
  }

  /** `centerElementToPointer`: place the element's centre on the pointer, relative to the host. */
  method CenterElementToPointer(e: MinimalEvent, box: Box, element: Element) returns (r: Element)
    modifies element
    ensures r == element
    ensures element.style == Written(old(element.style), PointerStyles(e, box))
    ensures unchanged(element`parent, element`children, element`transitionEndListeners)
  {
    var off := PointerOffset(e, box);
    var ps := PointerStyles(e, box);
    WrittenOne(element.style, ps[0]);
    assert ps == [ps[0]] + [ps[1]];
    WrittenSnoc(element.style, [ps[0]], ps[1]);
    element.style := element.style["top" := Px(off.top)];
    element.style := element.style["left" := Px(off.left)];
    return element;
  }

  /**
   * The host preparation at the start of the trigger: clip overflow, then
   * make a statically positioned host `relative`. The same element is returned.
   */
  method PrepareTarget(host: Element) returns (target: Element)
    modifies host
    ensures target == host
    ensures host.style == PrepareHost(old(host.style), host.cascadedPosition)
    ensures unchanged(host`parent, host`children, host`transitionEndListeners)
  {
    var clipped := ApplyStyles([Declaration("overflow", Keyword("hidden"))], host);
    target := clipped;
    if ComputedPosition(target.style, target.cascadedPosition) == "static" {
      var _ := ApplyStyles([Declaration("position", Keyword("relative"))], target);
    }
  }

  /**
   * Registering a new `cancelRipple` closure for each release event in turn:
   * both registrations are added, in order.
   */
  method ListenForRelease(doc: Document, cancel: Canceller)
    requires doc.Valid()
    requires forall r | r in doc.listeners :: r.listener != cancel
    modifies doc
    ensures doc.listeners == old(doc.listeners) + Registrations(cancel)
    ensures doc.Valid()
  {
    for i := 0 to |ReleaseEvents|
      invariant doc.listeners == old(doc.listeners) + Registrations(cancel)[..i]
      invariant doc.Valid()
    {
      doc.AddEventListener(ReleaseEvents[i], cancel);
    }
  }

  /** The context object `onSpawn` receives. */
  datatype SpawnContext = SpawnContext(ripple: Element, cancelRipple: Canceller, event: MinimalEvent, ref: RefObject)

  /** One invocation of the caller's `onSpawn`. */
  datatype SpawnCall = SpawnCall(hook: SpawnHook, context: SpawnContext)

  /**
   * One `useRipple` hook: its merged options (with the ref in use) and the
   * record of the `onSpawn` invocations its trigger has made.
   */
  class RippleHook {
    const internalRef: RefObject
    const options: Options
    var spawnCalls: seq<SpawnCall>

    /** `useRipple(input)`: a fresh internal ref, and the caller's options over the defaults. */
    constructor (input: Option<PartialOptions>)
      ensures fresh(internalRef) && internalRef.current == null
      ensures options == Resolve(input, internalRef)
      ensures spawnCalls == []
    {
      var ref := new RefObject();
      internalRef := ref;
      options := Resolve(input, ref);
      spawnCalls := [];
    }

    /**
     * The trigger closure, called with the event at clock time `now` while
     * the host's bounding box is `box`; `doc` and `sched` are the document
     * and the browser's callback queues. Returns the context handed to
     * `onSpawn`, or None when nothing was spawned.
     */
    method Trigger(event: MinimalEvent, now: real, box: Box, doc: Document, sched: Scheduler)
      returns (spawned: Option<SpawnContext>)
      requires doc.Valid()
      modifies this, doc, sched, options.ref.current
      ensures options.ref.current == old(options.ref.current)
      ensures doc.Valid()
      ensures spawned.None? <==> old(options.ref.current) == null || options.disabled
      ensures spawned.None? ==>
        && unchanged(this, doc, sched)
        && (old(options.ref.current) != null ==> unchanged(old(options.ref.current)))
      ensures spawned.Some? ==>
        var host, ctx := old(options.ref.current), spawned.value;
        var ripple, cancel := ctx.ripple, ctx.cancelRipple;
        // the host: prepared, with the ripple appended last
        && host.style == PrepareHost(old(host.style), host.cascadedPosition)
        && host.children == old(host.children) + [ripple]
        && host.parent == old(host.parent)
        && host.transitionEndListeners == old(host.transitionEndListeners)
        // the ripple: new, styled at zero scale, grow queued for the next frame
        && fresh(ripple) && fresh(cancel)
        && ripple.parent == host && ripple.children == [] && ripple.transitionEndListeners == []
        && ripple.style == SpawnStyle(event, box, options)
        && sched.frames == old(sched.frames) + [GrowRipple(ripple)]
        // the cancel closure and the cancellation policy
        && cancel.begun == now && cancel.ripple == ripple
        && cancel.duration == options.duration && cancel.timingFunction == options.timingFunction
        && (if options.cancelAutomatically
            then doc.listeners == old(doc.listeners) &&
                 sched.timers == old(sched.timers) +
                   [Timer(now, options.duration * CompletedFactor,
                          FadeRipple(ripple, options.duration, options.timingFunction))]
            else doc.listeners == old(doc.listeners) + Registrations(cancel) &&
                 sched.timers == old(sched.timers))
        // the onSpawn hook
        && ctx == SpawnContext(ripple, cancel, event, options.ref)
        && spawnCalls == old(spawnCalls) +
             (if options.onSpawn.Some? then [SpawnCall(options.onSpawn.value, ctx)] else [])
    {
      var host := options.ref.current;
      if host == null || options.disabled {
        return None;
      }
      var target := PrepareTarget(host);
      // the source's second `!target` guard cannot fire: target is the host
      var begun := now;
      var ripple := CreateRipple(event, box, options, sched);
      ripple := CenterElementToPointer(event, box, ripple);
      var cancelRipple := new Canceller(begun, ripple, options.duration, options.timingFunction);
      if !options.cancelAutomatically {
        ListenForRelease(doc, cancelRipple);
      } else {
        sched.SetTimeout(FadeRipple(ripple, options.duration, options.timingFunction),
                         now, options.duration * CompletedFactor);
      }
      target.AppendChild(ripple);
      var ctx := SpawnContext(ripple, cancelRipple, event, options.ref);
      if options.onSpawn.Some? {
        spawnCalls := spawnCalls + [SpawnCall(options.onSpawn.value, ctx)];
      }
      spawned := Some(ctx);
    }
  }
}
