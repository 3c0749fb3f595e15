/** UIInterfaceOrientation and the controller's orientation-dependent decisions. */
module Orientations {
  import opened Wrappers

  /** The values of UIInterfaceOrientation. */
  datatype InterfaceOrientation = Unknown | Portrait | PortraitUpsideDown | LandscapeRight | LandscapeLeft

  /** MTSplitViewController.IsLandscape, for a given orientation. */
  predicate IsLandscape(o: InterfaceOrientation)
  {
    o == LandscapeLeft || o == LandscapeRight
  }

  /**
   * Whether the master is embedded in the split view rather than hidden in a
   * popover: the landscape flag decides in both landscape orientations, the
   * portrait flag in every other one (Unknown included).
   */
  function ShouldShowMasterForInterfaceOrientation(o: InterfaceOrientation,
                                                   showsMasterInPortrait: bool,
                                                   showsMasterInLandscape: bool): (show: bool)
    ensures IsLandscape(o) ==> show == showsMasterInLandscape
    ensures !IsLandscape(o) ==> show == showsMasterInPortrait
  {
    if o == LandscapeLeft || o == LandscapeRight then showsMasterInLandscape else showsMasterInPortrait
  }

  /**
   * A readable name; None (the source's null) for an orientation outside the
   * four named ones. The landscape names are exactly those starting "Landscape".
   */
  function NameOfInterfaceOrientation(o: InterfaceOrientation): (name: Option<string>)
    ensures name.None? <==> o == Unknown
    ensures name.Some? ==> (IsLandscape(o) <==> "Landscape" <= name.value)
  {
    match o
    case Portrait => Some("Portrait")
    case PortraitUpsideDown =>
      assert "Portrait (Upside Down)"[0] != "Landscape"[0];
      Some("Portrait (Upside Down)")
    case LandscapeLeft => Some("Landscape (Left)")
    case LandscapeRight => Some("Landscape (Right)")
    case Unknown => None
  }

  /** No two orientations share a name. */
  lemma NamesIdentifyOrientations(a: InterfaceOrientation, b: InterfaceOrientation)
    requires NameOfInterfaceOrientation(a).Some? && NameOfInterfaceOrientation(a) == NameOfInterfaceOrientation(b)
    ensures a == b
  {
  }
}
