/**
 * Ripple options: the built-in defaults, the shallow object spread that
 * layers caller options over them, and the preset layer of `customRipple`.
 */
module Options {
  import opened Wrappers
  import opened Dom

  /** The caller's `onSpawn` callback, by identity; what it does is not modelled. */
  datatype SpawnHook = SpawnHook(name: string)

  /** `Partial<Options>`: every key may be absent (None). */
  datatype PartialOptions = PartialOptions(
    duration: Option<real>,
    color: Option<string>,
    timingFunction: Option<string>,
    disabled: Option<bool>,
    onSpawn: Option<SpawnHook>,
    cancelAutomatically: Option<bool>,
    ref: Option<RefObject>)

  /** The merged options a ripple hook runs with. */
  datatype Options = Options(
    duration: real,
    color: string,
    timingFunction: string,
    disabled: bool,
    onSpawn: Option<SpawnHook>,
    cancelAutomatically: bool,
    ref: RefObject)

  const DefaultDuration: real := 450.0
  const DefaultColor: string := "rgba(255, 255, 255, .3)"
  const DefaultTimingFunction: string := "cubic-bezier(.42,.36,.28,.88)"

  /** `{}`: an options object with no keys. */
  const NoOptions := PartialOptions(None, None, None, None, None, None, None)

  /** `{ ...lower, ...upper }`: a key present in `upper` replaces the one in `lower`. */
  function Spread(lower: PartialOptions, upper: PartialOptions): PartialOptions {
    PartialOptions(
      if upper.duration.Some? then upper.duration else lower.duration,
      if upper.color.Some? then upper.color else lower.color,
      if upper.timingFunction.Some? then upper.timingFunction else lower.timingFunction,
      if upper.disabled.Some? then upper.disabled else lower.disabled,
      if upper.onSpawn.Some? then upper.onSpawn else lower.onSpawn,
      if upper.cancelAutomatically.Some? then upper.cancelAutomatically else lower.cancelAutomatically,
      if upper.ref.Some? then upper.ref else lower.ref)
  }

  /** The object literal `useRipple` spreads the caller's options over. */
  function Defaults(internalRef: RefObject): PartialOptions {
    PartialOptions(Some(DefaultDuration), Some(DefaultColor), Some(DefaultTimingFunction),
                   Some(false), None, Some(false), Some(internalRef))
  }

  /** Reads a spread object whose required keys are all present as `Options`. */
  function Complete(p: PartialOptions): Options
    requires p.duration.Some? && p.color.Some? && p.timingFunction.Some?
    requires p.disabled.Some? && p.cancelAutomatically.Some? && p.ref.Some?
  {
    Options(p.duration.value, p.color.value, p.timingFunction.value, p.disabled.value,
            p.onSpawn, p.cancelAutomatically.value, p.ref.value)
  }

  /**
   * The options `useRipple(input)` runs with (`input ?? {}` spread over the
   * defaults): a key the caller gives wins, every other key takes its default,
   * and without a caller ref the hook's own `internalRef` is used.
   */
  function Resolve(input: Option<PartialOptions>, internalRef: RefObject): (o: Options)
    ensures var given := input.GetOr(NoOptions);
      && o.duration == given.duration.GetOr(DefaultDuration)
      && o.color == given.color.GetOr(DefaultColor)
      && o.timingFunction == given.timingFunction.GetOr(DefaultTimingFunction)
      && o.disabled == given.disabled.GetOr(false)
      && o.onSpawn == given.onSpawn
      && o.cancelAutomatically == given.cancelAutomatically.GetOr(false)
      && o.ref == given.ref.GetOr(internalRef)
  {
    Complete(Spread(Defaults(internalRef), input.GetOr(NoOptions)))
  }

  /**
   * `customRipple(presets)(overrides)`: the options object the generated hook
   * hands to `useRipple`.
   */
  function CustomRipple(presets: Option<PartialOptions>, overrides: Option<PartialOptions>): (p: PartialOptions)
    ensures overrides.None? ==> p == presets.GetOr(NoOptions)
    ensures presets.None? ==> p == overrides.GetOr(NoOptions)
  {
    Spread(presets.GetOr(NoOptions), overrides.GetOr(NoOptions))
  }

  /**
   * Three layers: an override wins over a preset, a preset over the built-in
   * default. The preset type omits the ref, but a preset object that carries
   * one at run time is spread like any other key.
   */
  lemma CustomRipplePrecedence(presets: Option<PartialOptions>, overrides: Option<PartialOptions>,
                               internalRef: RefObject)
    ensures var o, pre, over := Resolve(Some(CustomRipple(presets, overrides)), internalRef),
                                presets.GetOr(NoOptions), overrides.GetOr(NoOptions);
      && o.duration == over.duration.GetOr(pre.duration.GetOr(DefaultDuration))
      && o.color == over.color.GetOr(pre.color.GetOr(DefaultColor))
      && o.timingFunction == over.timingFunction.GetOr(pre.timingFunction.GetOr(DefaultTimingFunction))
      && o.disabled == over.disabled.GetOr(pre.disabled.GetOr(false))
      && o.onSpawn == (if over.onSpawn.Some? then over.onSpawn else pre.onSpawn)
      && o.cancelAutomatically == over.cancelAutomatically.GetOr(pre.cancelAutomatically.GetOr(false))
      && o.ref == over.ref.GetOr(pre.ref.GetOr(internalRef))
  {
  }
}
