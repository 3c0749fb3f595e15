/**
 * The state of an MTSplitViewController as a value, and one function per
 * operation giving the state that operation leaves behind. The classes in
 * SplitViewLib are proved to change their fields exactly as these functions say.
 *
 * UIKit's own objects are reduced to what the controller's decisions depend on:
 * the popover is known by the controller it was made for, the bar button item
 * by its presence, the master's view is detached, embedded in the split view
 * or held by the popover, and each view keeps the frame the controller last
 * gave it. The controller's C# events are recorded, in order, as the
 * notifications it raises.
 */
module SplitViewState {
  import opened Wrappers
  import opened Geometry
  import opened Orientations
  import opened DividerDrag

  /** Width of the master view in UISplitViewController. */
  const DefaultSplitPosition: real := 320.0
  /** Width of the gutter in UISplitViewController. */
  const DefaultSplitWidth: real := 1.0
  const DefaultCornerRadius: real := 5.0
  const PanesplitterCornerRadius: real := 0.0
  const PanesplitterSplitWidth: real := 25.0
  /** The narrowest a pane may become by moving the split under the default constraints. */
  const MinViewWidth: real := 200.0

  /** MTSplitDividerView.DividerStyle. */
  datatype DividerStyle = Thin | PaneSplitter

  /** A child UIViewController, by identity. */
  datatype ViewController = ViewController(id: nat)

  /** Where the master controller's view currently lives. */
  datatype MasterHost = Detached | Embedded | InPopover

  /** The notifications the controller raises through its C# events. */
  datatype Event =
    | WillChangeSplitOrientationToVertical(vertical: bool)
    | WillMoveSplitToPosition(position: real)
    | WillHideViewController(hidden: ViewController)
    | WillShowViewController(shown: ViewController)
    | WillPresentViewController(presented: Option<ViewController>)

  /** How an assignment to ViewControllers ends. */
  datatype Outcome = Done | ArgumentException(message: string)

  /** The controller's configurable properties. */
  datatype Settings = Settings(
    isVertical: bool,
    masterBeforeDetail: bool,
    showsMasterInPortrait: bool,
    showsMasterInLandscape: bool,
    splitPosition: real,
    splitWidth: real,
    dividerStyle: DividerStyle,
    autoProvidePopoverAndBarItem: bool)

  /** The ViewControllers array: absent, or master at index 0 and detail at index 1. */
  datatype Children = Children(arraySet: bool, master: Option<ViewController>, detail: Option<ViewController>)

  /** HiddenPopoverController (by the controller it was made for), whether it is on screen, and BarButtonItem. */
  datatype PopoverState = PopoverState(content: Option<ViewController>, visible: bool, barButton: bool)

  /** The frames of the master, divider and detail views and of the two corner views. */
  datatype Placement = Placement(panes: Frames, corners: Corners)

  datatype SplitState = SplitState(
    orientation: InterfaceOrientation,   // InterfaceOrientation, kept by UIKit
    bounds: Rect,                        // SplitViewRectangleForOrientation, i.e. View.Bounds, kept by UIKit
    settings: Settings,
    children: Children,
    popover: PopoverState,
    masterHost: MasterHost,
    detailEmbedded: bool,                // the detail's view is a subview of the split view
    cornerRadius: Option<real>,          // None while CornerViews is null
    frames: Placement,
    reconfigurePopup: bool,
    events: seq<Event>)

  const NoRect := Rect(0.0, 0.0, 0.0, 0.0)

  /** The state of a freshly allocated controller before Setup runs: C#'s default field values. */
  function DefaultState(o: InterfaceOrientation, bounds: Rect): SplitState
  {
    SplitState(o, bounds, Settings(false, false, false, false, 0.0, 0.0, Thin, true),
               Children(false, None, None), PopoverState(None, false, false), Detached, false, None,
               Placement(Frames(NoRect, NoRect, NoRect), Corners(NoRect, NoRect)), false, [])
  }

  // ---------------------------------------------------------------------------
  // Popover notifications

  /** The WillHide (true) and WillShow (false) notifications among `events`, in order. */
  function PopoverTransitions(events: seq<Event>): seq<bool>
  {
    if events == [] then []
    else
      (match events[0]
       case WillHideViewController(_) => [true]
       case WillShowViewController(_) => [false]
       case _ => []) + PopoverTransitions(events[1..])
  }

  lemma {:induction false} PopoverTransitionsAppend(a: seq<Event>, b: seq<Event>)
    ensures PopoverTransitions(a + b) == PopoverTransitions(a) + PopoverTransitions(b)
  {
    if a == [] {
      assert a + b == b;
    } else {
      assert (a + b)[0] == a[0];
      assert (a + b)[1..] == a[1..] + b;
      PopoverTransitionsAppend(a[1..], b);
    }
  }

  /** Hide and show strictly alternate, starting with hide, and the popover exists exactly after a hide. */
  predicate Alternates(t: seq<bool>, inPopover: bool)
  {
    (forall i :: 0 <= i < |t| ==> t[i] == (i % 2 == 0)) && (inPopover <==> |t| % 2 == 1)
  }

  /** Raising one notification keeps the alternation, given whether the popover exists afterwards. */
  lemma RaiseKeepsAlternation(events: seq<Event>, e: Event, inPopover: bool)
    requires Alternates(PopoverTransitions(events), inPopover)
    ensures e.WillHideViewController? && !inPopover ==> Alternates(PopoverTransitions(events + [e]), true)
    ensures e.WillShowViewController? && inPopover ==> Alternates(PopoverTransitions(events + [e]), false)
    ensures !e.WillHideViewController? && !e.WillShowViewController? ==>
              PopoverTransitions(events + [e]) == PopoverTransitions(events)
  {
    PopoverTransitionsAppend(events, [e]);
    assert [e][1..] == [];
  }

  // ---------------------------------------------------------------------------
  // Invariants and derived properties

  predicate HasPopover(s: SplitState)
  {
    s.popover.content.Some?
  }

  /** What holds between the steps of an operation. */
  predicate Coherent(s: SplitState)
  {
    && s.settings.splitWidth >= 0.0
    && (HasPopover(s) <==> s.popover.barButton)
    && (s.popover.visible ==> HasPopover(s))
    && (s.masterHost == InPopover ==> HasPopover(s))
    && (s.children.master.None? ==> s.masterHost == Detached)
    && (!s.children.arraySet ==> s.children.master.None? && s.children.detail.None?)
    && (s.children.detail.Some? && !s.detailEmbedded ==> s.children.master.Some?)
    && Alternates(PopoverTransitions(s.events), HasPopover(s))
  }

  /** What holds whenever no operation is running. */
  predicate Inv(s: SplitState)
  {
    && Coherent(s)
    && !s.reconfigurePopup
    && (s.children.master.Some? ==> s.masterHost != Detached && s.cornerRadius.Some?)
    && (s.children.detail.Some? ==> s.detailEmbedded)
  }

  function ShouldShowMasterFor(s: SplitState, o: InterfaceOrientation): bool
  {
    ShouldShowMasterForInterfaceOrientation(o, s.settings.showsMasterInPortrait, s.settings.showsMasterInLandscape)
  }

  /** MTSplitViewController.ShouldShowMaster. */
  function ShouldShowMaster(s: SplitState): bool
  {
    ShouldShowMasterFor(s, s.orientation)
  }

  /** MTSplitViewController.IsShowingMaster. */
  predicate IsShowingMaster(s: SplitState)
  {
    ShouldShowMaster(s) && s.children.master.Some? && s.masterHost == Embedded
  }

  /** The two states agree on the environment, every setting and the child controllers. */
  predicate SameSettings(a: SplitState, b: SplitState)
  {
    a.orientation == b.orientation && a.bounds == b.bounds && a.settings == b.settings && a.children == b.children
  }

  /** The master stays where it is: same popover, same bar button, same host view. */
  predicate MasterStaysPut(a: SplitState, b: SplitState)
  {
    a.popover.content == b.popover.content && a.popover.barButton == b.popover.barButton && a.masterHost == b.masterHost
  }

  /** Where the geometry puts master, divider and detail for orientation `o`. */
  function PaneFrames(s: SplitState, o: InterfaceOrientation): Frames
  {
    var st := s.settings;
    SplitFrames(s.bounds, st.isVertical, st.masterBeforeDetail, ShouldShowMasterFor(s, o), st.splitPosition, st.splitWidth)
  }

  /** Where the geometry puts the corner strips for orientation `o` and corner radius `radius`. */
  function CornerStrips(s: SplitState, o: InterfaceOrientation, radius: real): Corners
  {
    var st := s.settings;
    CornerFrames(s.bounds, st.isVertical, st.masterBeforeDetail, ShouldShowMasterFor(s, o), st.splitPosition, st.splitWidth, radius)
  }

  /** The corner views exist and every view in use has the frame the geometry gives it for orientation `o`. */
  predicate LaidOut(s: SplitState, o: InterfaceOrientation)
  {
    && s.cornerRadius.Some?
    && var f := PaneFrames(s, o);
    && (s.children.master.Some? ==> s.frames.panes.master == f.master && s.frames.panes.divider == f.divider)
    && (s.children.detail.Some? ==> s.frames.panes.detail == f.detail)
    && s.frames.corners == CornerStrips(s, o, s.cornerRadius.value)
  }

  /** Dismiss the popover if it is on screen. */
  function DismissPopover(s: SplitState): (r: SplitState)
    ensures Coherent(s) ==> Coherent(r) && r == s.(popover := s.popover.(visible := false))
  {
    if HasPopover(s) && s.popover.visible then s.(popover := s.popover.(visible := false)) else s
  }

  /** Raises a notification other than WillHide and WillShow. */
  function Notify(s: SplitState, e: Event): (r: SplitState)
    requires !e.WillHideViewController? && !e.WillShowViewController?
    ensures (Coherent(s) ==> Coherent(r)) && r == s.(events := s.events + [e])
  {
    var r := s.(events := s.events + [e]);
    assert Coherent(s) ==> Coherent(r) by {
      if Coherent(s) {
        RaiseKeepsAlternation(s.events, e, HasPopover(s));
      }
    }
    r
  }

  // ---------------------------------------------------------------------------
  // Popover reconfiguration and layout

  /**
   * Where the master's view is left when the popover is taken down: presenting
   * the popover for a moment moves the view of the controller it was made for
   * into it, and a master view outside the split view is then detached.
   */
  function HostAfterPopover(s: SplitState): (host: MasterHost)
    ensures host != InPopover
    ensures host == Embedded ==> s.masterHost == Embedded
  {
    if s.popover.content == s.children.master || s.masterHost != Embedded then Detached else Embedded
  }

  /** Whether ReconfigureForMasterInPopover(inPopover) has anything to do. */
  predicate ReconfigureActs(s: SplitState, inPopover: bool)
  {
    s.settings.autoProvidePopoverAndBarItem && s.children.master.Some? && inPopover != HasPopover(s)
  }

  /** The WillHide (into the popover) or WillShow (out of it) that ReconfigureForMasterInPopover raises, if it acts. */
  function ReconfigureNotice(s: SplitState, inPopover: bool): (notice: seq<Event>)
    ensures |notice| <= 1 && (notice != [] <==> ReconfigureActs(s, inPopover))
    ensures notice != [] ==> notice[0] == (if inPopover then WillHideViewController(s.children.master.value)
                                           else WillShowViewController(s.children.master.value))
  {
    if !ReconfigureActs(s, inPopover) then []
    else if inPopover then [WillHideViewController(s.children.master.value)]
    else [WillShowViewController(s.children.master.value)]
  }

  /**
   * ReconfigureForMasterInPopover: always clears the reconfigure flag; when the
   * controller provides the popover, has a master and the master is not yet where
   * `inPopover` asks, it creates the popover for the master and the bar button
   * together and raises WillHide, or destroys both, detaches the master's view
   * unless it is still in the split view, and raises WillShow.
   */
  function Reconfigure(s: SplitState, inPopover: bool): (r: SplitState)
    ensures (Coherent(s) ==> Coherent(r)) && !r.reconfigurePopup
    ensures r.popover.visible ==> s.popover.visible
    ensures !ReconfigureActs(s, inPopover) ==> r == s.(reconfigurePopup := false)
    ensures Coherent(s) ==> r.events == s.events + ReconfigureNotice(s, inPopover)
    ensures Coherent(s) && ReconfigureActs(s, inPopover) ==>
              && SameSettings(r, s) && r.frames == s.frames
              && r.cornerRadius == s.cornerRadius && r.detailEmbedded == s.detailEmbedded
              && r.popover == PopoverState(if inPopover then s.children.master else None, false, inPopover)
              && r.masterHost == (if inPopover then s.masterHost else HostAfterPopover(s))
              && r.events == s.events + [if inPopover then WillHideViewController(s.children.master.value)
                                         else WillShowViewController(s.children.master.value)]
  {
    var s0 := s.(reconfigurePopup := false);
    var master := s0.children.master;
    if !s0.settings.autoProvidePopoverAndBarItem then s0
    else if (inPopover && HasPopover(s0)) || (!inPopover && !HasPopover(s0)) || master.None? then s0
    else if inPopover && !HasPopover(s0) && !s0.popover.barButton then
      var e := WillHideViewController(master.value);
      var r := s0.(popover := PopoverState(master, false, true), events := s0.events + [e]);
      assert Coherent(s) ==> Coherent(r) by {
        if Coherent(s) {
          RaiseKeepsAlternation(s0.events, e, false);
        }
      }
      r
    else if !inPopover && HasPopover(s0) && s0.popover.barButton then
      var e := WillShowViewController(master.value);
      var r := s0.(popover := PopoverState(None, false, false), masterHost := HostAfterPopover(s0), events := s0.events + [e]);
      assert Coherent(s) ==> Coherent(r) by {
        if Coherent(s) {
          RaiseKeepsAlternation(s0.events, e, true);
        }
      }
      r
    else s0
  }

  /** A second reconfiguration towards the same place finds the master already there. */
  lemma ReconfigureTwice(s: SplitState, inPopover: bool)
    requires Coherent(s)
    ensures Reconfigure(Reconfigure(s, inPopover), inPopover) == Reconfigure(s, inPopover)
  {
  }

  /**
   * The positioning half of LayoutSubviewsForInterfaceOrientation: each view in
   * use gets its frame, a detached master or detail view is embedded (a master
   * held by the popover stays there), the corner views are created with the
   * default radius if missing, and the corner strips are placed.
   */
  function Place(s: SplitState, o: InterfaceOrientation): (r: SplitState)
    ensures (Coherent(s) ==> Coherent(r)) && LaidOut(r, o) && SameSettings(r, s)
    ensures r.reconfigurePopup == s.reconfigurePopup && r.events == s.events && r.popover == s.popover
    ensures s.children.master.Some? ==> r.masterHost != Detached
    ensures s.masterHost != Detached ==> r.masterHost == s.masterHost
    ensures s.children.detail.Some? ==> r.detailEmbedded
    ensures r.cornerRadius == Some(if s.cornerRadius.Some? then s.cornerRadius.value else DefaultCornerRadius)
    ensures s.children.master.None? ==> r.frames.panes.master == s.frames.panes.master && r.frames.panes.divider == s.frames.panes.divider
    ensures s.children.detail.None? ==> r.frames.panes.detail == s.frames.panes.detail && r.detailEmbedded == s.detailEmbedded
  {
    PlaceCorners(PlaceDetail(PlaceMaster(s, o), o), o)
  }

  /** The master's view and the divider take their frames; a detached master view is embedded. */
  function PlaceMaster(s: SplitState, o: InterfaceOrientation): (r: SplitState)
    ensures (Coherent(s) ==> Coherent(r)) && SameSettings(r, s) && r.reconfigurePopup == s.reconfigurePopup
    ensures s.children.master.None? ==> r == s
    ensures s.children.master.Some? ==>
              r.frames.panes.master == PaneFrames(s, o).master && r.frames.panes.divider == PaneFrames(s, o).divider &&
              r.masterHost != Detached && (s.masterHost != Detached ==> r.masterHost == s.masterHost)
  {
    if s.children.master.None? then s
    else
      var f := PaneFrames(s, o);
      s.(frames := s.frames.(panes := s.frames.panes.(master := f.master, divider := f.divider)),
         masterHost := if s.masterHost == Detached then Embedded else s.masterHost)
  }

  /** The detail's view takes its frame and is embedded. */
  function PlaceDetail(s: SplitState, o: InterfaceOrientation): (r: SplitState)
    ensures (Coherent(s) ==> Coherent(r)) && SameSettings(r, s) && r.reconfigurePopup == s.reconfigurePopup
    ensures s.children.detail.None? ==> r == s
    ensures s.children.detail.Some? ==> r.frames.panes.detail == PaneFrames(s, o).detail && r.detailEmbedded
  {
    if s.children.detail.None? then s
    else s.(frames := s.frames.(panes := s.frames.panes.(detail := PaneFrames(s, o).detail)), detailEmbedded := true)
  }

  /** The corner views are created with the default radius if missing, and both strips are placed. */
  function PlaceCorners(s: SplitState, o: InterfaceOrientation): (r: SplitState)
    ensures (Coherent(s) ==> Coherent(r)) && SameSettings(r, s) && r.reconfigurePopup == s.reconfigurePopup
    ensures r.cornerRadius.Some? && (s.cornerRadius.Some? ==> r.cornerRadius == s.cornerRadius)
    ensures r.frames.corners == CornerStrips(s, o, r.cornerRadius.value) && r.frames.panes == s.frames.panes
  {
    var radius := if s.cornerRadius.Some? then s.cornerRadius.value else DefaultCornerRadius;
    s.(frames := s.frames.(corners := CornerStrips(s, o, radius)), cornerRadius := Some(radius))
  }

  /**
   * LayoutSubviewsForInterfaceOrientation: first the pending popover
   * reconfiguration for orientation `o`, then the positioning.
   */
  function Layout(s: SplitState, o: InterfaceOrientation): (r: SplitState)
    ensures (Coherent(s) ==> Inv(r)) && LaidOut(r, o) && SameSettings(r, s)
    ensures r.popover.visible ==> s.popover.visible
    ensures !s.reconfigurePopup ==> r.events == s.events && r.popover == s.popover
    ensures !s.reconfigurePopup && (s.children.master.Some? ==> s.masterHost != Detached) ==> MasterStaysPut(r, s)
    ensures Coherent(s) && s.reconfigurePopup && s.settings.autoProvidePopoverAndBarItem && s.children.master.Some? ==>
              HasPopover(r) == !ShouldShowMasterFor(s, o)
    ensures Coherent(s) && s.reconfigurePopup ==> r.events == s.events + ReconfigureNotice(s, !ShouldShowMasterFor(s, o))
    ensures Coherent(s) && s.reconfigurePopup && ReconfigureActs(s, !ShouldShowMasterFor(s, o)) ==>
              r.popover == (if ShouldShowMasterFor(s, o) then PopoverState(None, false, false)
                            else PopoverState(s.children.master, false, true))
    ensures s.reconfigurePopup && !ReconfigureActs(s, !ShouldShowMasterFor(s, o)) ==> r.popover == s.popover
    ensures Coherent(s) && s.children.master.Some? && !HasPopover(r) ==> r.masterHost == Embedded
    ensures s.cornerRadius.Some? ==> r.cornerRadius == s.cornerRadius
  {
    var s1 := if s.reconfigurePopup then Reconfigure(s, !ShouldShowMasterFor(s, o)) else s;
    Place(s1, o)
  }

  /** LayoutSubviews: layout for the current orientation. */
  function Relayout(s: SplitState): (r: SplitState)
    ensures (Coherent(s) ==> Inv(r)) && LaidOut(r, r.orientation) && SameSettings(r, s)
    ensures r.popover.visible ==> s.popover.visible
    ensures !s.reconfigurePopup ==> r.events == s.events && r.popover == s.popover
    ensures !s.reconfigurePopup && (s.children.master.Some? ==> s.masterHost != Detached) ==> MasterStaysPut(r, s)
    ensures Coherent(s) && s.reconfigurePopup && s.settings.autoProvidePopoverAndBarItem && s.children.master.Some? ==>
              HasPopover(r) == !ShouldShowMaster(s)
    ensures Coherent(s) && s.reconfigurePopup ==> r.events == s.events + ReconfigureNotice(s, !ShouldShowMaster(s))
    ensures Coherent(s) && s.reconfigurePopup && ReconfigureActs(s, !ShouldShowMaster(s)) ==>
              r.popover == (if ShouldShowMaster(s) then PopoverState(None, false, false)
                            else PopoverState(s.children.master, false, true))
    ensures s.reconfigurePopup && !ReconfigureActs(s, !ShouldShowMaster(s)) ==> r.popover == s.popover
    ensures Coherent(s) && s.children.master.Some? && !HasPopover(r) ==> r.masterHost == Embedded
    ensures s.cornerRadius.Some? ==> r.cornerRadius == s.cornerRadius
  {
    Layout(s, s.orientation)
  }

  /** Laying out again for the same orientation changes nothing. */
  lemma LayoutIdempotent(s: SplitState, o: InterfaceOrientation)
    requires Coherent(s)
    ensures Layout(Layout(s, o), o) == Layout(s, o)
  {
  }

  // ---------------------------------------------------------------------------
  // Property setters

  /** ShowsMasterInPortrait: ignored when unchanged; in portrait, reconfigures the popover and lays out. */
  function SetShowsMasterInPortrait(s: SplitState, v: bool): (r: SplitState)
    requires Inv(s)
    ensures Inv(r) && SameSettings(r, s.(settings := s.settings.(showsMasterInPortrait := v)))
    ensures v == s.settings.showsMasterInPortrait ==> r == s
    ensures v != s.settings.showsMasterInPortrait && IsLandscape(s.orientation) ==>
              r == s.(settings := s.settings.(showsMasterInPortrait := v))
    ensures v != s.settings.showsMasterInPortrait && !IsLandscape(s.orientation) ==>
              !r.popover.visible && LaidOut(r, r.orientation) &&
              (s.settings.autoProvidePopoverAndBarItem && s.children.master.Some? ==> HasPopover(r) == !v) &&
              r.events == s.events + ReconfigureNotice(s, !v)
  {
    if v == s.settings.showsMasterInPortrait then s
    else
      var s1 := s.(settings := s.settings.(showsMasterInPortrait := v));
      if IsLandscape(s1.orientation) then s1
      else ReshowMaster(s1)
  }

  /** ShowsMasterInLandscape: stores the flag; in landscape, always reconfigures the popover and lays out. */
  function SetShowsMasterInLandscape(s: SplitState, v: bool): (r: SplitState)
    requires Inv(s)
    ensures Inv(r) && SameSettings(r, s.(settings := s.settings.(showsMasterInLandscape := v)))
    ensures !IsLandscape(s.orientation) ==> r == s.(settings := s.settings.(showsMasterInLandscape := v))
    ensures IsLandscape(s.orientation) ==>
              !r.popover.visible && LaidOut(r, r.orientation) &&
              (s.settings.autoProvidePopoverAndBarItem && s.children.master.Some? ==> HasPopover(r) == !v) &&
              r.events == s.events + ReconfigureNotice(s, !v)
  {
    var s1 := s.(settings := s.settings.(showsMasterInLandscape := v));
    if !IsLandscape(s1.orientation) then s1
    else ReshowMaster(s1)
  }

  /**
   * What both visibility setters do when the flag they changed is the one in
   * force: dismiss the popover, then lay out with the popover reconfigured, so
   * that the master goes into the popover exactly when it is no longer shown.
   */
  function ReshowMaster(s: SplitState): (r: SplitState)
    requires Inv(s)
    ensures Inv(r) && SameSettings(r, s) && !r.popover.visible && LaidOut(r, r.orientation)
    ensures s.settings.autoProvidePopoverAndBarItem && s.children.master.Some? ==> HasPopover(r) == !ShouldShowMaster(s)
    ensures s.settings.autoProvidePopoverAndBarItem && s.children.master.Some? ==> (IsShowingMaster(r) <==> ShouldShowMaster(s))
    ensures r.events == s.events + ReconfigureNotice(s, !ShouldShowMaster(s))
    ensures ReconfigureActs(s, !ShouldShowMaster(s)) ==>
              r.popover.content == (if ShouldShowMaster(s) then None else s.children.master)
    ensures !ReconfigureActs(s, !ShouldShowMaster(s)) ==> r.popover == s.popover.(visible := false)
  {
    Relayout(DismissPopover(s).(reconfigurePopup := true))
  }

  /**
   * Writing back the current portrait flag is a no-op, while writing back the
   * current landscape flag in landscape still dismisses a visible popover.
   */
  lemma RedundantVisibilityWrites(s: SplitState)
    requires Inv(s)
    ensures SetShowsMasterInPortrait(s, s.settings.showsMasterInPortrait) == s
    ensures IsLandscape(s.orientation) && s.popover.visible ==>
              SetShowsMasterInLandscape(s, s.settings.showsMasterInLandscape) != s
  {
  }

  /** IsVertical: ignored when unchanged; otherwise raises WillChangeSplitOrientationToVertical and lays out. */
  function SetIsVertical(s: SplitState, v: bool): (r: SplitState)
    requires Inv(s)
    ensures Inv(r)
    ensures v == s.settings.isVertical ==> r == s
    ensures v != s.settings.isVertical ==>
              && SameSettings(r, s.(settings := s.settings.(isVertical := v))) && MasterStaysPut(r, s)
              && !r.popover.visible && LaidOut(r, r.orientation)
              && r.events == s.events + [WillChangeSplitOrientationToVertical(v)]
  {
    if v == s.settings.isVertical then s
    else
      var s1 := DismissPopover(s).(settings := s.settings.(isVertical := v));
      Relayout(Notify(s1, WillChangeSplitOrientationToVertical(v)))
  }

  /** MasterBeforeDetail: ignored when unchanged; otherwise lays out only while the master is showing. */
  function SetMasterBeforeDetail(s: SplitState, v: bool): (r: SplitState)
    requires Inv(s)
    ensures Inv(r)
    ensures v == s.settings.masterBeforeDetail ==> r == s
    ensures v != s.settings.masterBeforeDetail ==>
              && SameSettings(r, s.(settings := s.settings.(masterBeforeDetail := v))) && MasterStaysPut(r, s)
              && !r.popover.visible && r.events == s.events
              && (IsShowingMaster(s) ==> LaidOut(r, r.orientation))
              && (!IsShowingMaster(s) ==> r.frames == s.frames)
  {
    if v == s.settings.masterBeforeDetail then s
    else
      var s1 := DismissPopover(s).(settings := s.settings.(masterBeforeDetail := v));
      if IsShowingMaster(s1) then Relayout(s1) else s1
  }

  /** The container's extent along the split axis. */
  function SplitExtent(s: SplitState): real
  {
    if s.settings.isVertical then s.bounds.width else s.bounds.height
  }

  /** The default constraints on a new split position. */
  predicate DefaultAccepts(s: SplitState, p: real)
  {
    var minPos := MinViewWidth;
    var maxPos := SplitExtent(s) - (MinViewWidth + s.settings.splitWidth);
    p != s.settings.splitPosition && p >= minPos && p <= maxPos
  }

  /**
   * The default constraints accept exactly the new positions at which, with
   * the master shown, master and detail are both at least MinViewWidth along
   * the split axis.
   */
  lemma DefaultAcceptsKeepsPanesWide(s: SplitState, p: real)
    ensures DefaultAccepts(s, p) <==>
              var st := s.settings;
              var f := SplitFrames(s.bounds, st.isVertical, st.masterBeforeDetail, true, p, st.splitWidth);
              var master := if st.isVertical then f.master.width else f.master.height;
              var detail := if st.isVertical then f.detail.width else f.detail.height;
              p != st.splitPosition && master >= MinViewWidth && detail >= MinViewWidth
  {
  }

  /** The outcome of an accepted move of the split to `p`. */
  predicate MovedTo(s: SplitState, r: SplitState, p: real)
  {
    && SameSettings(r, s.(settings := s.settings.(splitPosition := p))) && MasterStaysPut(r, s)
    && !r.popover.visible && r.events == s.events + [WillMoveSplitToPosition(p)]
    && (IsShowingMaster(s) ==> LaidOut(r, r.orientation))
    && (!IsShowingMaster(s) ==> r.frames == s.frames)
  }

  /** The second half of the SplitPosition setter, once a new position is accepted. */
  function MoveSplit(s: SplitState, newPos: real): (r: SplitState)
    requires Inv(s)
    ensures Inv(r) && MovedTo(s, r, newPos)
  {
    var s1 := DismissPopover(s).(settings := s.settings.(splitPosition := newPos));
    var s2 := Notify(s1, WillMoveSplitToPosition(newPos));
    if IsShowingMaster(s2) then Relayout(s2) else s2
  }

  /**
   * SplitPosition: with a ConstrainSplitPosition callback the callback's answer
   * is taken as it is; without one the default constraints decide, and a
   * rejected position changes nothing at all.
   */
  function SetSplitPosition(s: SplitState, constrain: Option<(real, real, real) -> real>, value: real): (r: SplitState)
    requires Inv(s)
    ensures Inv(r)
    ensures constrain.Some? ==> MovedTo(s, r, constrain.value(value, s.bounds.width, s.bounds.height))
    ensures constrain.None? && DefaultAccepts(s, value) ==> MovedTo(s, r, value)
    ensures constrain.None? && !DefaultAccepts(s, value) ==> r == s
  {
    var newPos := if constrain.Some? then constrain.value(value, s.bounds.width, s.bounds.height) else value;
    var constrained := constrain.Some? || DefaultAccepts(s, newPos);
    if !constrained then s else MoveSplit(s, newPos)
  }

  /** Assigning the same position twice without a delegate: the second assignment is rejected as unchanged. */
  lemma SetSplitPositionTwice(s: SplitState, value: real)
    requires Inv(s)
    ensures SetSplitPosition(SetSplitPosition(s, None, value), None, value) == SetSplitPosition(s, None, value)
  {
  }

  /** SplitWidth: a negative or unchanged width is ignored; otherwise it is stored, with a layout while the master shows. */
  function SetSplitWidth(s: SplitState, v: real): (r: SplitState)
    requires Inv(s)
    ensures Inv(r)
    ensures MasterStaysPut(r, s) && r.events == s.events && r.popover == s.popover && r.cornerRadius == s.cornerRadius
    ensures SameSettings(r, s.(settings := s.settings.(splitWidth := if v >= 0.0 then v else s.settings.splitWidth)))
    ensures v < 0.0 || v == s.settings.splitWidth ==> r == s
    ensures v >= 0.0 && v != s.settings.splitWidth ==>
              && (IsShowingMaster(s) ==> LaidOut(r, r.orientation))
              && (!IsShowingMaster(s) ==> r == s.(settings := s.settings.(splitWidth := v)))
  {
    if v != s.settings.splitWidth && v >= 0.0 then
      var s1 := s.(settings := s.settings.(splitWidth := v));
      if IsShowingMaster(s1) then Relayout(s1) else s1
    else s
  }

  /** Assigning the same width twice: the second assignment is ignored as unchanged. */
  lemma SetSplitWidthTwice(s: SplitState, v: real)
    requires Inv(s)
    ensures SetSplitWidth(SetSplitWidth(s, v), v) == SetSplitWidth(s, v)
  {
  }

  /** The gutter width a style presets; the SplitWidth setter accepts it, as it is not negative. */
  function PresetSplitWidth(style: DividerStyle): (width: real)
    ensures width >= 0.0
  {
    if style == Thin then DefaultSplitWidth else PanesplitterSplitWidth
  }

  /** The corner radius a style presets: rounded for Thin, square for PaneSplitter. */
  function PresetCornerRadius(style: DividerStyle): (radius: real)
    ensures style == Thin ==> radius > 0.0
    ensures style == PaneSplitter ==> radius == 0.0
  {
    if style == Thin then DefaultCornerRadius else PanesplitterCornerRadius
  }

  /**
   * DividerStyle: a preset, applied even when the style is unchanged. Thin gives
   * a 1-unit gutter and corners of radius 5, PaneSplitter a 25-unit gutter and
   * square corners; the split view is laid out afresh.
   */
  function SetDividerStyle(s: SplitState, style: DividerStyle): (r: SplitState)
    requires Inv(s)
    ensures Inv(r) && LaidOut(r, r.orientation) && MasterStaysPut(r, s) && !r.popover.visible && r.events == s.events
    ensures SameSettings(r, s.(settings := s.settings.(dividerStyle := style, splitWidth := PresetSplitWidth(style))))
    ensures r.settings.splitWidth == if style == Thin then 1.0 else 25.0
    ensures r.cornerRadius == Some(if s.cornerRadius.Some? then PresetCornerRadius(style) else DefaultCornerRadius)
  {
    Relayout(ApplyStylePreset(s, style))
  }

  /** The DividerStyle setter up to its final layout: the gutter width and the corners' radius. */
  function ApplyStylePreset(s: SplitState, style: DividerStyle): (r: SplitState)
    requires Inv(s)
    ensures Inv(r) && MasterStaysPut(r, s) && !r.popover.visible && r.events == s.events
    ensures SameSettings(r, s.(settings := s.settings.(dividerStyle := style, splitWidth := PresetSplitWidth(style))))
    ensures r.cornerRadius == if s.cornerRadius.Some? then Some(PresetCornerRadius(style)) else None
  {
    var s1 := DismissPopover(s).(settings := s.settings.(dividerStyle := style));
    RestyleCorners(SetSplitWidth(s1, PresetSplitWidth(style)), PresetCornerRadius(style))
  }

  /** Gives existing corner views the radius `radius`. */
  function RestyleCorners(s: SplitState, radius: real): (r: SplitState)
    requires Inv(s)
    ensures Inv(r) && r.cornerRadius == if s.cornerRadius.Some? then Some(radius) else None
    ensures r == s.(cornerRadius := r.cornerRadius)
  {
    if s.cornerRadius.Some? then s.(cornerRadius := Some(radius)) else s
  }

  // ---------------------------------------------------------------------------
  // Child controllers

  /**
   * The source inserts a new detail view above MasterViewController.View, so
   * giving a new detail to a controller without a master dereferences null.
   */
  predicate DetailInsertable(s: SplitState, value: Option<ViewController>)
  {
    value.None? || value == s.children.detail || s.children.master.Some?
  }

  /** The same for a whole ViewControllers array, whose slots are cleared first. */
  predicate ArrayInsertable(value: Option<seq<Option<ViewController>>>)
  {
    value.None? || |value.value| < 2 || value.value[0].Some? || value.value[1].None?
  }

  /**
   * ViewControllers: detaches the current children's views and clears both
   * slots; then a missing array or one shorter than two throws ArgumentException,
   * leaving no children at all, and otherwise element 0 becomes the master,
   * element 1 the detail, and the split view is laid out.
   */
  function SetViewControllers(s: SplitState, value: Option<seq<Option<ViewController>>>): (res: (SplitState, Outcome))
    requires Inv(s) && ArrayInsertable(value)
    ensures Inv(res.0) && res.0.children.arraySet
    ensures res.1.ArgumentException? <==> value.None? || |value.value| < 2
    ensures res.1.ArgumentException? ==> res.0.children.master.None? && res.0.children.detail.None?
    ensures res.1.Done? ==> res.0.children == Children(true, value.value[0], value.value[1]) && LaidOut(res.0, res.0.orientation)
    ensures res.0.settings == s.settings && res.0.orientation == s.orientation && res.0.bounds == s.bounds
    ensures res.0.popover == s.popover && res.0.events == s.events
    decreases 3
  {
    var s2 := ClearChildren(s);
    if value.Some? && |value.value| >= 2 then
      var s3 := SetMasterViewController(s2, value.value[0]);
      var s4 := SetDetailViewController(s3, value.value[1]);
      (Relayout(s4), Done)
    else
      (s2, ArgumentException("Error: This component requires 2 view-controllers"))
  }

  /** The ViewControllers setter's first step: the old children's views are detached and both slots emptied. */
  function ClearChildren(s: SplitState): (r: SplitState)
    requires Inv(s)
    ensures Inv(r) && r.children == Children(true, None, None)
    ensures r == s.(children := r.children, masterHost := r.masterHost, detailEmbedded := r.detailEmbedded)
    ensures s.children.arraySet ==> r.masterHost == Detached && !r.detailEmbedded
  {
    var s1 := if s.children.arraySet then s.(masterHost := Detached, detailEmbedded := false) else s;
    s1.(children := Children(true, None, None))
  }

  /**
   * MasterViewController: creates an empty ViewControllers array first if there
   * is none; ignored when unchanged; otherwise the old master's view is detached,
   * the new master stored and the split view laid out.
   */
  function SetMasterViewController(s: SplitState, value: Option<ViewController>): (r: SplitState)
    requires Inv(s)
    ensures Inv(r) && r.children.arraySet && r.children.master == value
    ensures r.settings == s.settings && r.orientation == s.orientation && r.bounds == s.bounds
    ensures r.popover == s.popover && r.events == s.events
    ensures s.children.arraySet ==> r.children.detail == s.children.detail
    ensures !s.children.arraySet ==> r.children.detail.None?
    ensures s.children.arraySet && value == s.children.master ==> r == s
    ensures value != s.children.master ==> LaidOut(r, r.orientation)
    decreases if s.children.arraySet then 1 else 5
  {
    ReplaceMaster(EnsureArray(s), value)
  }

  /** The rest of the MasterViewController setter, once the array exists. */
  function ReplaceMaster(s: SplitState, value: Option<ViewController>): (r: SplitState)
    requires Inv(s) && s.children.arraySet
    ensures Inv(r) && r.children == s.children.(master := value)
    ensures r.settings == s.settings && r.orientation == s.orientation && r.bounds == s.bounds
    ensures r.popover == s.popover && r.events == s.events
    ensures value == s.children.master ==> r == s
    ensures value != s.children.master ==> LaidOut(r, r.orientation)
  {
    if s.children.master == value then s
    else Relayout(s.(children := s.children.(master := value), masterHost := Detached))
  }

  /** The child setters' first step: a controller without a ViewControllers array gets an empty one. */
  function EnsureArray(s: SplitState): (r: SplitState)
    requires Inv(s)
    ensures Inv(r) && r.children.arraySet && r.settings == s.settings && r.orientation == s.orientation && r.bounds == s.bounds
    ensures r.popover == s.popover && r.events == s.events
    ensures s.children.arraySet ==> r == s
    ensures !s.children.arraySet ==> r.children.master.None? && r.children.detail.None?
    decreases if s.children.arraySet then 0 else 4
  {
    if !s.children.arraySet then SetViewControllers(s, Some([None, None])).0 else s
  }

  /** DetailViewController: as MasterViewController, for the detail; the layout embeds the new detail's view. */
  function SetDetailViewController(s: SplitState, value: Option<ViewController>): (r: SplitState)
    requires Inv(s) && DetailInsertable(s, value)
    ensures Inv(r) && r.children.arraySet && r.children.detail == value
    ensures r.settings == s.settings && r.orientation == s.orientation && r.bounds == s.bounds
    ensures r.popover == s.popover && r.events == s.events
    ensures s.children.arraySet ==> r.children.master == s.children.master
    ensures !s.children.arraySet ==> r.children.master.None?
    ensures s.children.arraySet && value == s.children.detail ==> r == s
    ensures value != s.children.detail ==> LaidOut(r, r.orientation)
    decreases if s.children.arraySet then 1 else 5
  {
    ReplaceDetail(EnsureArray(s), value)
  }

  /** The rest of the DetailViewController setter, once the array exists. */
  function ReplaceDetail(s: SplitState, value: Option<ViewController>): (r: SplitState)
    requires Inv(s) && s.children.arraySet && DetailInsertable(s, value)
    ensures Inv(r) && r.children == s.children.(detail := value)
    ensures r.settings == s.settings && r.orientation == s.orientation && r.bounds == s.bounds
    ensures r.popover == s.popover && r.events == s.events
    ensures value == s.children.detail ==> r == s
    ensures value != s.children.detail ==> LaidOut(r, r.orientation)
  {
    if s.children.detail == value then s
    else Relayout(s.(children := s.children.(detail := value), detailEmbedded := false))
  }

  // ---------------------------------------------------------------------------
  // Toggles, rotation, appearance and the popover button

  /** ToggleSplitOrientation: flips IsVertical, but only while the master is showing. */
  function ToggleSplitOrientation(s: SplitState): (r: SplitState)
    requires Inv(s)
    ensures Inv(r)
    ensures !IsShowingMaster(s) ==> r == s
    ensures IsShowingMaster(s) ==>
              && SameSettings(r, s.(settings := s.settings.(isVertical := !s.settings.isVertical)))
              && IsShowingMaster(r) && LaidOut(r, r.orientation)
              && r.events == s.events + [WillChangeSplitOrientationToVertical(!s.settings.isVertical)]
  {
    if !IsShowingMaster(s) then s else SetIsVertical(s, !s.settings.isVertical)
  }

  /** ToggleMasterBeforeDetail: flips MasterBeforeDetail, but only while the master is showing. */
  function ToggleMasterBeforeDetail(s: SplitState): (r: SplitState)
    requires Inv(s)
    ensures Inv(r)
    ensures !IsShowingMaster(s) ==> r == s
    ensures IsShowingMaster(s) ==>
              && SameSettings(r, s.(settings := s.settings.(masterBeforeDetail := !s.settings.masterBeforeDetail)))
              && IsShowingMaster(r) && LaidOut(r, r.orientation) && r.events == s.events
  {
    if !IsShowingMaster(s) then s else SetMasterBeforeDetail(s, !s.settings.masterBeforeDetail)
  }

  /** Toggling the split orientation twice while the master shows restores every setting and every frame. */
  lemma ToggleSplitOrientationTwice(s: SplitState)
    requires Inv(s) && IsShowingMaster(s) && LaidOut(s, s.orientation)
    ensures var r := ToggleSplitOrientation(ToggleSplitOrientation(s));
            SameSettings(r, s) && r.frames == s.frames
  {
  }

  /**
   * ToggleMasterView: brings back a master that is not showing, then flips the
   * visibility flag of the current orientation only, so whether the master is
   * shown in this orientation flips and the popover follows.
   */
  function ToggleMasterView(s: SplitState): (r: SplitState)
    requires Inv(s)
    ensures Inv(r) && LaidOut(r, r.orientation) && !r.popover.visible
    ensures IsLandscape(s.orientation) ==>
              r.settings == s.settings.(showsMasterInLandscape := !s.settings.showsMasterInLandscape)
    ensures !IsLandscape(s.orientation) ==>
              r.settings == s.settings.(showsMasterInPortrait := !s.settings.showsMasterInPortrait)
    ensures r.orientation == s.orientation && r.bounds == s.bounds && r.children == s.children
    ensures ShouldShowMaster(r) == !ShouldShowMaster(s)
    ensures s.settings.autoProvidePopoverAndBarItem && s.children.master.Some? ==> HasPopover(r) == !ShouldShowMaster(r)
    ensures !(s.settings.autoProvidePopoverAndBarItem && s.children.master.Some?) ==> r.events == s.events
    ensures s.settings.autoProvidePopoverAndBarItem && s.children.master.Some? ==>
              var m := s.children.master.value;
              r.events == s.events
                          + (if HasPopover(s) && !IsShowingMaster(s) then [WillShowViewController(m)] else [])
                          + (if ShouldShowMaster(s) && !(HasPopover(s) && IsShowingMaster(s)) then [WillHideViewController(m)] else [])
    ensures s.settings.autoProvidePopoverAndBarItem && s.children.master.Some? && HasPopover(s) == !ShouldShowMaster(s) ==>
              r.events == s.events + [if ShouldShowMaster(s) then WillHideViewController(s.children.master.value)
                                      else WillShowViewController(s.children.master.value)]
  {
    var s2 := PrepareMasterToggle(s);
    var r := FlipShownFlag(s2);
    ToggleMasterViewNotices(s, s2, r);
    r
  }

  /** The notifications of the two halves of ToggleMasterView, put together. */
  lemma ToggleMasterViewNotices(s: SplitState, s2: SplitState, r: SplitState)
    requires Inv(s) && s2 == PrepareMasterToggle(s) && r == FlipShownFlag(s2)
    ensures ShouldShowMaster(r) == !ShouldShowMaster(s)
    ensures !(s.settings.autoProvidePopoverAndBarItem && s.children.master.Some?) ==> r.events == s.events
    ensures s.settings.autoProvidePopoverAndBarItem && s.children.master.Some? ==>
            var m := s.children.master.value;
            r.events == s.events
                        + (if HasPopover(s) && !IsShowingMaster(s) then [WillShowViewController(m)] else [])
                        + (if ShouldShowMaster(s) && !(HasPopover(s) && IsShowingMaster(s)) then [WillHideViewController(m)] else [])
    ensures s.settings.autoProvidePopoverAndBarItem && s.children.master.Some? && HasPopover(s) == !ShouldShowMaster(s) ==>
              r.events == s.events + [if ShouldShowMaster(s) then WillHideViewController(s.children.master.value)
                                      else WillShowViewController(s.children.master.value)]
  {
    assert SameSettings(s2, s);
    if s.settings.autoProvidePopoverAndBarItem && s.children.master.Some? {
      assert ShouldShowMaster(s2) == ShouldShowMaster(s) && s2.children == s.children;
      assert HasPopover(s2) == (HasPopover(s) && IsShowingMaster(s));
    }
  }

  /** The second half of ToggleMasterView: the current orientation's visibility flag goes through its setter, negated. */
  function FlipShownFlag(s: SplitState): (r: SplitState)
    requires Inv(s)
    ensures Inv(r) && LaidOut(r, r.orientation) && !r.popover.visible
    ensures IsLandscape(s.orientation) ==>
              r.settings == s.settings.(showsMasterInLandscape := !s.settings.showsMasterInLandscape)
    ensures !IsLandscape(s.orientation) ==>
              r.settings == s.settings.(showsMasterInPortrait := !s.settings.showsMasterInPortrait)
    ensures r.orientation == s.orientation && r.bounds == s.bounds && r.children == s.children
    ensures ShouldShowMaster(r) == !ShouldShowMaster(s)
    ensures s.settings.autoProvidePopoverAndBarItem && s.children.master.Some? ==> HasPopover(r) == ShouldShowMaster(s)
    ensures r.events == s.events + ReconfigureNotice(s, ShouldShowMaster(s))
  {
    if IsLandscape(s.orientation) then SetShowsMasterInLandscape(s, !s.settings.showsMasterInLandscape)
    else SetShowsMasterInPortrait(s, !s.settings.showsMasterInPortrait)
  }

  /**
   * The first half of ToggleMasterView: the popover is dismissed and, unless the
   * master is showing, taken down so that the master is laid out in the split view.
   */
  function PrepareMasterToggle(s: SplitState): (r: SplitState)
    requires Inv(s)
    ensures Inv(r) && SameSettings(r, s) && !r.popover.visible
    ensures !IsShowingMaster(s) && s.children.master.Some? && s.settings.autoProvidePopoverAndBarItem ==> !HasPopover(r)
    ensures IsShowingMaster(s) ==> r == DismissPopover(s)
    ensures !IsShowingMaster(s) ==> LaidOut(r, r.orientation) && r.events == s.events + ReconfigureNotice(s, false)
    ensures !IsShowingMaster(s) && !ReconfigureActs(s, false) ==> r.popover == s.popover.(visible := false)
    ensures !IsShowingMaster(s) && s.children.master.Some? && s.settings.autoProvidePopoverAndBarItem ==> r.masterHost == Embedded
  {
    var s1 := DismissPopover(s);
    if !IsShowingMaster(s1) then Relayout(Reconfigure(s1.(reconfigurePopup := true), false)) else s1
  }

  /**
   * ShowMasterPopover: presents an existing, hidden popover after raising
   * WillPresentViewController; the master's view moves into the popover when
   * the popover was made for the current master.
   */
  function ShowMasterPopover(s: SplitState): (r: SplitState)
    requires Inv(s)
    ensures Inv(r)
    ensures !HasPopover(s) || s.popover.visible ==> r == s
    ensures HasPopover(s) && !s.popover.visible ==>
              && SameSettings(r, s) && r.frames == s.frames
              && r.popover == s.popover.(visible := true)
              && r.events == s.events + [WillPresentViewController(s.children.master)]
              && r.masterHost == (if s.popover.content == s.children.master then InPopover else s.masterHost)
  {
    if !HasPopover(s) || s.popover.visible then s
    else
      Notify(s, WillPresentViewController(s.children.master)).(
        popover := s.popover.(visible := true),
        masterHost := if s.popover.content == s.children.master then InPopover else s.masterHost)
  }

  /**
   * A new master does not get the popover made for the old one: the master
   * setter leaves the popover alone, and a later reconfiguration finds a
   * popover already there, so the bar button still presents the old master
   * while the new master's view stays in the split view.
   */
  lemma ReplacedMasterKeepsStalePopover(s: SplitState, m: ViewController)
    requires Inv(s) && s.children.arraySet && s.settings.autoProvidePopoverAndBarItem && !ShouldShowMaster(s)
    requires HasPopover(s) && !s.popover.visible && s.popover.content == s.children.master && Some(m) != s.children.master
    ensures var r := ShowMasterPopover(ViewDidAppear(SetMasterViewController(s, Some(m))));
            && r.children.master == Some(m) && r.popover.visible && r.popover.content == s.popover.content
            && r.popover.content != r.children.master && r.masterHost == Embedded
  {
  }

  /** WillAnimateRotation: dismisses the popover, reconfigures it for the target orientation and lays out for it. */
  function WillAnimateRotation(s: SplitState, to: InterfaceOrientation): (r: SplitState)
    requires Inv(s)
    ensures Inv(r) && SameSettings(r, s) && LaidOut(r, to) && !r.popover.visible
    ensures s.settings.autoProvidePopoverAndBarItem && s.children.master.Some? ==> HasPopover(r) == !ShouldShowMasterFor(s, to)
    ensures r.events == s.events + ReconfigureNotice(s, !ShouldShowMasterFor(s, to))
    ensures ReconfigureActs(s, !ShouldShowMasterFor(s, to)) ==>
              r.popover.content == (if ShouldShowMasterFor(s, to) then None else s.children.master)
    ensures !ReconfigureActs(s, !ShouldShowMasterFor(s, to)) ==> r.popover == s.popover.(visible := false)
  {
    Layout(DismissPopover(s).(reconfigurePopup := true), to)
  }

  /** ViewDidAppear: reconfigures the popover for the current orientation and lays out. */
  function ViewDidAppear(s: SplitState): (r: SplitState)
    requires Inv(s)
    ensures Inv(r) && SameSettings(r, s) && LaidOut(r, r.orientation)
    ensures s.settings.autoProvidePopoverAndBarItem && s.children.master.Some? ==> HasPopover(r) == !ShouldShowMaster(s)
    ensures r.events == s.events + ReconfigureNotice(s, !ShouldShowMaster(s))
    ensures ReconfigureActs(s, !ShouldShowMaster(s)) ==>
              r.popover == (if ShouldShowMaster(s) then PopoverState(None, false, false) else PopoverState(s.children.master, false, true))
    ensures !ReconfigureActs(s, !ShouldShowMaster(s)) ==> r.popover == s.popover
  {
    Relayout(s.(reconfigurePopup := true))
  }

  /** MTSplitDividerView.TouchesMoved: without a touch nothing changes; otherwise the dragged position goes through the setter. */
  function DragDivider(s: SplitState, constrain: Option<(real, real, real) -> real>, touch: Option<Touch>): (r: SplitState)
    requires Inv(s)
    ensures Inv(r)
    ensures touch.None? ==> r == s
    ensures touch.Some? && constrain.None? ==>
              var p := ProposedSplitPosition(s.settings.splitPosition, s.settings.isVertical, s.settings.masterBeforeDetail, touch.value);
              (DefaultAccepts(s, p) ==> MovedTo(s, r, p)) && (!DefaultAccepts(s, p) ==> r == s)
    ensures touch.Some? && constrain.Some? ==>
              var p := ProposedSplitPosition(s.settings.splitPosition, s.settings.isVertical, s.settings.masterBeforeDetail, touch.value);
              MovedTo(s, r, constrain.value(p, s.bounds.width, s.bounds.height))
  {
    if touch.None? then s
    else
      var st := s.settings;
      SetSplitPosition(s, constrain, ProposedSplitPosition(st.splitPosition, st.isVertical, st.masterBeforeDetail, touch.value))
  }

  // ---------------------------------------------------------------------------
  // Construction

  /** The frame Setup gives the divider view it creates. */
  function SetupDividerFrame(s: SplitState): Rect
  {
    if s.settings.isVertical then s.bounds.(y := s.settings.splitPosition, height := s.settings.splitWidth)
    else s.bounds.(x := s.settings.splitPosition, width := s.settings.splitWidth)
  }

  /** Whether the default split position fits the container under the default constraints. */
  predicate DefaultPositionFits(bounds: Rect)
  {
    MinViewWidth <= DefaultSplitPosition <= bounds.width - (MinViewWidth + DefaultSplitWidth)
  }

  /**
   * Setup, run by every constructor: one-unit gutter, master hidden in portrait
   * and shown in landscape, vertical split with the master first, the default
   * split position if the container is wide enough for it, a new divider view,
   * and the Thin style.
   */
  function Setup(o: InterfaceOrientation, bounds: Rect): (r: SplitState)
    ensures Inv(r) && LaidOut(r, o) && r.orientation == o && r.bounds == bounds
    ensures r.settings == Settings(true, true, false, true, if DefaultPositionFits(bounds) then DefaultSplitPosition else 0.0,
                                   DefaultSplitWidth, Thin, true)
    ensures r.children == Children(false, None, None) && r.popover == PopoverState(None, false, false)
    ensures r.cornerRadius == Some(DefaultCornerRadius)
    ensures r.frames.panes.divider == bounds.(y := r.settings.splitPosition, height := DefaultSplitWidth)
    ensures r.events == [WillChangeSplitOrientationToVertical(true)]
                        + (if DefaultPositionFits(bounds) then [WillMoveSplitToPosition(DefaultSplitPosition)] else [])
  {
    SetDividerStyle(SetupSplit(SetupVisibility(DefaultState(o, bounds))), Thin)
  }

  /** The start of Setup: the gutter width and where the master shows. */
  function SetupVisibility(s: SplitState): (r: SplitState)
    requires Inv(s)
    ensures Inv(r)
  {
    var s1 := SetSplitWidth(s, DefaultSplitWidth);
    var s2 := SetShowsMasterInPortrait(s1, false);
    SetShowsMasterInLandscape(s2, true).(reconfigurePopup := false)
  }

  /** The middle of Setup: a vertical split with the master first at the default position, and the divider's frame. */
  function SetupSplit(s: SplitState): (r: SplitState)
    requires Inv(s)
    ensures Inv(r)
  {
    var s5 := SetIsVertical(s, true);
    var s6 := SetMasterBeforeDetail(s5, true);
    var s7 := SetSplitPosition(s6, None, DefaultSplitPosition);
    s7.(frames := s7.frames.(panes := s7.frames.panes.(divider := SetupDividerFrame(s7))))
  }

  // ---------------------------------------------------------------------------
  // Runs of operations

  /** Everything that can happen to a controller: its public operations, and what UIKit and the app do to it. */
  datatype Action =
    | AssignShowsMasterInPortrait(v: bool)
    | AssignShowsMasterInLandscape(v: bool)
    | AssignIsVertical(v: bool)
    | AssignMasterBeforeDetail(v: bool)
    | AssignSplitPosition(constrain: Option<(real, real, real) -> real>, position: real)
    | AssignSplitWidth(width: real)
    | AssignDividerStyle(style: DividerStyle)
    | AssignViewControllers(controllers: Option<seq<Option<ViewController>>>)
    | AssignMasterViewController(controller: Option<ViewController>)
    | AssignDetailViewController(controller: Option<ViewController>)
    | AssignAutoProvidePopoverAndBarItem(v: bool)
    | PressToggleSplitOrientation
    | PressToggleMasterBeforeDetail
    | PressToggleMasterView
    | PressMasterBarButton
    | Drag(dragConstrain: Option<(real, real, real) -> real>, touch: Option<Touch>)
    | Rotate(to: InterfaceOrientation, newBounds: Rect)
    | Appear
    | UserDismissesPopover

  /** Whether the source can carry the action out without dereferencing a missing master. */
  predicate Permitted(s: SplitState, a: Action)
  {
    match a
    case AssignViewControllers(v) => ArrayInsertable(v)
    case AssignDetailViewController(v) => DetailInsertable(s, v)
    case _ => true
  }

  /**
   * One action. UIKit updates the orientation and the bounds before it asks
   * the controller to animate a rotation.
   */
  function Apply(s: SplitState, a: Action): (r: SplitState)
    requires Inv(s) && Permitted(s, a)
    ensures Inv(r)
  {
    match a
    case AssignShowsMasterInPortrait(v) => SetShowsMasterInPortrait(s, v)
    case AssignShowsMasterInLandscape(v) => SetShowsMasterInLandscape(s, v)
    case AssignIsVertical(v) => SetIsVertical(s, v)
    case AssignMasterBeforeDetail(v) => SetMasterBeforeDetail(s, v)
    case AssignSplitPosition(constrain, p) => SetSplitPosition(s, constrain, p)
    case AssignSplitWidth(w) => SetSplitWidth(s, w)
    case AssignDividerStyle(style) => SetDividerStyle(s, style)
    case AssignViewControllers(v) => SetViewControllers(s, v).0
    case AssignMasterViewController(v) => SetMasterViewController(s, v)
    case AssignDetailViewController(v) => SetDetailViewController(s, v)
    case AssignAutoProvidePopoverAndBarItem(v) => s.(settings := s.settings.(autoProvidePopoverAndBarItem := v))
    case PressToggleSplitOrientation => ToggleSplitOrientation(s)
    case PressToggleMasterBeforeDetail => ToggleMasterBeforeDetail(s)
    case PressToggleMasterView => ToggleMasterView(s)
    case PressMasterBarButton => ShowMasterPopover(s)
    case Drag(constrain, touch) => DragDivider(s, constrain, touch)
    case Rotate(to, b) => WillAnimateRotation(s.(orientation := to, bounds := b), to)
    case Appear => ViewDidAppear(s)
    case UserDismissesPopover => DismissPopover(s)
  }

  /**
   * The actions applied in order, as far as each is permitted; the run stops
   * at the first action the source could not carry out. Every state reached
   * has the popover and the bar button together, and its WillHide and WillShow
   * notifications alternate, a popover existing exactly after a WillHide.
   */
  function Run(s: SplitState, actions: seq<Action>): (r: SplitState)
    requires Inv(s)
    ensures Inv(r)
    ensures HasPopover(r) == r.popover.barButton && Alternates(PopoverTransitions(r.events), HasPopover(r))
    decreases |actions|
  {
    if actions == [] || !Permitted(s, actions[0]) then s
    else Run(Apply(s, actions[0]), actions[1..])
  }
}
