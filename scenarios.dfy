/**
 * Client code that drives one ripple through its whole life using only the
 * contracts of the operations: what a caller can conclude from them.
 */
module Scenarios {
  import opened Wrappers
  import opened Lists
  import opened Styles
  import opened Geometry
  import opened Dom
  import opened Options
  import opened Ripple

  /** Firing a canceller takes every one of its registrations off the document. */
  lemma OnlyRegistrations(c: Canceller)
    ensures UnregisteredAll(Registrations(c), [c]) == []
  {
    RegistrationsReach(c);
    assert [c][..0] == [];
    assert UnregisteredAll(Registrations(c), [c]) == Unregistered(Registrations(c), c);
  }

  /**
   * A press at (80, 10) on a 100 × 50 host at the origin: the ripple is
   * appended at scale(0), centred on the pointer, its canceller listens for
   * both release events, and the next frame grows it.
   */
  method Press() {
    var doc := new Document();
    var sched := new Scheduler();
    var hook := new RippleHook(None);
    var host := new Element("static");
    hook.options.ref.current := host;
    var e, box := MinimalEvent(80.0, 10.0), Box(0.0, 0.0, 100.0, 50.0);

    var spawned := hook.Trigger(e, 1000.0, box, doc, sched);
    assert spawned.Some?;
    var ripple, cancel := spawned.value.ripple, spawned.value.cancelRipple;
    assert host.children == [ripple] && ripple.parent == host;
    assert RippleReach(e, box) == Reach(40.0, 80.0);
    SpawnStyleShape(e, box, hook.options);
    assert ripple.style["transform"] == Keyword(Scale0);
    assert ripple.style["top"] == Px(10.0) && ripple.style["left"] == Px(80.0);
    assert doc.listeners == Registrations(cancel);
    assert sched.frames == [GrowRipple(ripple)] && sched.timers == [];

    // the next frame grows the ripple
    var ran := sched.RunNextFrame();
    WrittenOne(SpawnStyle(e, box, hook.options), GrowStyles()[0]);
    assert ripple.style["transform"] == Keyword(Scale1);
  }

  /**
   * A ripple spawned at time 1000 with the default 450 ms duration, released
   * 100 ms later: the fade waits the remaining 80 ms, and the touchend of the
   * same gesture finds no listener left.
   */
  method Release() {
    var doc := new Document();
    var sched := new Scheduler();
    var ripple := new Element("static");
    var cancel := new Canceller(1000.0, ripple, DefaultDuration, DefaultTimingFunction);
    ListenForRelease(doc, cancel);
    assert doc.listeners == Registrations(cancel);

    OnlyRegistrations(cancel);
    RegistrationsReach(cancel);
    assert ListenersFor(Registrations(cancel), MouseUp) == [cancel];
    doc.DispatchRelease(MouseUp, 1100.0, sched);
    assert doc.listeners == UnregisteredAll(Registrations(cancel), [cancel]) == [];
    assert sched.timers == FadeTimers([cancel], 1100.0) == [FadeTimer(cancel, 1100.0)];
    assert FadeTimer(cancel, 1100.0).delay == 80.0;

    // the touchend of the same gesture finds nothing left to fire
    doc.DispatchRelease(TouchEnd, 1101.0, sched);
    assert ListenersFor([], TouchEnd) == [] && FadeTimers([], 1101.0) == [];
    assert |sched.timers| == 1;
  }

  /**
   * A ripple attached to its host and released: the fade timer fades it, the
   * frame after arms its removal, and of the two transition ends only the
   * opacity one detaches it.
   */
  method FadeAndRemove() {
    var sched := new Scheduler();
    var host := new Element("relative");
    var ripple := new Element("static");
    host.AppendChild(ripple);
    var tf := DefaultTimingFunction;
    sched.SetTimeout(FadeRipple(ripple, 450.0, tf), 1100.0, 80.0);

    // the timer fades the ripple, and the frame after arms its removal
    var ran := sched.RunNextTimer();
    assert ran && ripple.style == Written(map[], FadeStyles(450.0, tf));
    WrittenOne(map[], FadeStyles(450.0, tf)[0]);
    assert FadeStyles(450.0, tf) == [FadeStyles(450.0, tf)[0]] + [FadeStyles(450.0, tf)[1]];
    WrittenSnoc(map[], [FadeStyles(450.0, tf)[0]], FadeStyles(450.0, tf)[1]);
    assert ripple.style["opacity"] == Keyword("0");
    assert sched.frames == [ArmRemoval(ripple)];
    ran := sched.RunNextFrame();
    assert ripple.transitionEndListeners == [RemoveOnOpacityEnd];
    assert ripple.parent == host && host.children == [ripple];

    // the transform transition ends first: the ripple stays
    ripple.DispatchTransitionEnd("transform");
    assert ripple.parent == host && host.children == [ripple];

    // the opacity transition ends: the ripple is gone
    ripple.DispatchTransitionEnd("opacity");
    assert ripple.parent == null && host.children == [];

    // a later opacity transition-end finds it detached and changes nothing
    ripple.DispatchTransitionEnd("opacity");
    assert ripple.parent == null && host.children == [];
  }
}
