/** `BridgeSettings`: the immutable parameters of bridge placement, in mm. */
module BridgeSettingsVO {
  import opened Wrappers

  datatype BridgeSettings = BridgeSettings(
    minLength: real,
    singleBridgeMax: real,
    targetInterval: real,
    gapSize: real,
    edgeMargin: real)

  /** What every constructed value satisfies. */
  predicate Valid(s: BridgeSettings) {
    0.0 < s.minLength <= s.singleBridgeMax && s.targetInterval > 0.0 &&
    s.gapSize > 0.0 && s.edgeMargin >= 0.0
  }

  /** The constructor with `__post_init__`: the first violated rule, in the
      source's order, is the `ValueError` raised. */
  function MakeBridgeSettings(minLength: real, singleBridgeMax: real, targetInterval: real,
                              gapSize: real, edgeMargin: real): (r: Result<BridgeSettings>)
    ensures r.Success? <==> Valid(BridgeSettings(minLength, singleBridgeMax, targetInterval, gapSize, edgeMargin))
    ensures r.Success? ==> r.value == BridgeSettings(minLength, singleBridgeMax, targetInterval, gapSize, edgeMargin)
    ensures minLength <= 0.0 ==> r == Failure("min_length must be positive")
    ensures minLength > 0.0 && singleBridgeMax < minLength ==> r == Failure("single_bridge_max must be >= min_length")
  {
    if minLength <= 0.0 then Failure("min_length must be positive")
    else if singleBridgeMax < minLength then Failure("single_bridge_max must be >= min_length")
    else if targetInterval <= 0.0 then Failure("target_interval must be positive")
    else if gapSize <= 0.0 then Failure("gap_size must be positive")
    else if edgeMargin < 0.0 then Failure("edge_margin must be non-negative")
    else Success(BridgeSettings(minLength, singleBridgeMax, targetInterval, gapSize, edgeMargin))
  }

  /** `default()`: 20 / 50 / 60 / 3 / 10. */
  function Default(): (s: BridgeSettings)
    ensures Valid(s)
    ensures MakeBridgeSettings(20.0, 50.0, 60.0, 3.0, 10.0) == Success(s)
  {
    BridgeSettings(20.0, 50.0, 60.0, 3.0, 10.0)
  }

  /** `for_cut()`: the defaults. */
  function ForCut(): (s: BridgeSettings)
    ensures Valid(s) && s == Default()
  {
    BridgeSettings(20.0, 50.0, 60.0, 3.0, 10.0)
  }

  /** `for_crease()`: the defaults with a 50 mm interval and 2 mm gaps. */
  function ForCrease(): (s: BridgeSettings)
    ensures Valid(s)
    ensures s == Default().(targetInterval := 50.0, gapSize := 2.0)
  {
    BridgeSettings(20.0, 50.0, 50.0, 2.0, 10.0)
  }
}
