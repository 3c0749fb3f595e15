/**
 * MTSplitViewController and MTSplitDividerView as classes whose fields the
 * property setters and event handlers update in place. Every method is proved
 * to leave the controller in exactly the state that the SplitViewState
 * function named in its ensures describes, which is where the properties are
 * proved.
 */
module SplitViewLib {
  import opened Wrappers
  import opened Geometry
  import opened Orientations
  import opened DividerDrag
  import opened SplitViewState

  class SplitViewController {
    var orientation: InterfaceOrientation
    var bounds: Rect
    /** The configurable properties, IsVertical through AutoProvidePopoverAndBarItem. */
    var settings: Settings
    /** The ConstrainSplitPosition delegate: proposed position, container width, container height. */
    var constrainSplitPosition: Option<(real, real, real) -> real>
    /** ViewControllers, MasterViewController and DetailViewController. */
    var children: Children
    /** HiddenPopoverController and BarButtonItem. */
    var popover: PopoverState
    var masterHost: MasterHost
    var detailEmbedded: bool
    var cornerRadius: Option<real>
    var masterFrame: Rect
    var detailFrame: Rect
    /** The frames of the two views in CornerViews. */
    var corners: Corners
    var reconfigurePopup: bool
    var events: seq<Event>
    /** DividerView. */
    const divider: SplitDividerView

    ghost function Model(): SplitState
      reads this, divider
    {
      SplitState(orientation, bounds, settings, children, popover, masterHost, detailEmbedded, cornerRadius,
                 Placement(Frames(masterFrame, divider.frame, detailFrame), corners),
                 reconfigurePopup, events)
    }

    /** The divider belongs to this controller. */
    ghost predicate Linked()
      reads this, divider
    {
      divider.splitViewController == this && divider.Valid()
    }

    ghost predicate Valid()
      reads this, divider
    {
      Linked() && Inv(Model())
    }

    /** What an operation keeps besides the modelled state: the delegate and the divider's dragging switch. */
    twostate predicate Keeps()
      reads this, divider
    {
      constrainSplitPosition == old(constrainSplitPosition) && AllowsDraggingDivider() == old(AllowsDraggingDivider())
    }

    /** AllowsDraggingDivider, read through the divider. */
    predicate AllowsDraggingDivider()
      reads this, divider
    {
      divider.allowsDragging
    }

    /** IsShowingMaster: the master should show and its view is in the split view. */
    predicate IsShowingMaster()
      reads this, divider
      ensures IsShowingMaster() == SplitViewState.IsShowingMaster(Model())
    {
      ShouldShowMasterForInterfaceOrientation(orientation, settings.showsMasterInPortrait, settings.showsMasterInLandscape)
      && children.master.Some? && masterHost == Embedded
    }

    /**
     * The constructor for a view in orientation `o` with bounds `bounds`: C#'s
     * default field values, then Setup.
     */
    constructor (o: InterfaceOrientation, bounds: Rect)
      ensures Valid() && fresh(divider)
      ensures Model() == SplitViewState.Setup(o, bounds)
      ensures !AllowsDraggingDivider() && constrainSplitPosition.None?
    {
      orientation := o;
      this.bounds := bounds;
      settings := Settings(false, false, false, false, 0.0, 0.0, Thin, true);
      constrainSplitPosition := None;
      children := Children(false, None, None);
      popover := PopoverState(None, false, false);
      masterHost, detailEmbedded, cornerRadius := Detached, false, None;
      masterFrame, detailFrame := NoRect, NoRect;
      corners := Corners(NoRect, NoRect);
      reconfigurePopup := false;
      events := [];
      divider := new SplitDividerView(NoRect);
      new;
      divider.splitViewController := this;
      assert Model() == DefaultState(o, bounds);
      Setup();
    }

    /** Setup, run by every constructor on the default field values. */
    method Setup()
      requires Linked() && Inv(Model()) && !AllowsDraggingDivider() && constrainSplitPosition.None?
      modifies this, divider
      ensures Valid() && constrainSplitPosition == old(constrainSplitPosition)
      ensures Model() == SplitViewState.SetDividerStyle(SplitViewState.SetupSplit(SplitViewState.SetupVisibility(old(Model()))), Thin)
      ensures !AllowsDraggingDivider()
    {
      SetupVisibility();
      SetupSplit();
      SetDividerStyle(Thin);
    }

    /** The start of Setup. */
    method SetupVisibility()
      requires Valid()
      modifies this, divider
      ensures Valid() && Keeps() && Model() == SplitViewState.SetupVisibility(old(Model()))
    {
      SetSplitWidth(DefaultSplitWidth);
      SetupMasterVisibility();
    }

    /** The master hidden in portrait and shown in landscape. */
    method SetupMasterVisibility()
      requires Valid()
      modifies this, divider
      ensures Valid() && Keeps()
      ensures Model() == SplitViewState.SetShowsMasterInLandscape(SplitViewState.SetShowsMasterInPortrait(old(Model()), false), true).(reconfigurePopup := false)
    {
      SetShowsMasterInPortrait(false);
      SetShowsMasterInLandscape(true);
      reconfigurePopup := false;
    }

    /** The middle of Setup, up to the divider view's frame. */
    method SetupSplit()
      requires Valid() && constrainSplitPosition.None?
      modifies this, divider
      ensures Valid() && Keeps() && Model() == SplitViewState.SetupSplit(old(Model()))
    {
      ghost var s0 := Model();
      ghost var s1 := SplitViewState.SetMasterBeforeDetail(SplitViewState.SetIsVertical(s0, true), true);
      SetIsVertical(true);
      SetMasterBeforeDetail(true);
      assert Model() == s1;
      ghost var s2 := SplitViewState.SetSplitPosition(s1, None, DefaultSplitPosition);
      SetSplitPosition(DefaultSplitPosition);
      assert Model() == s2;
      PlaceNewDivider();
    }

    /** The frame Setup gives the divider view: the container with the split position as its y (vertical) or x (horizontal) and the gutter width as its height or width. */
    method PlaceNewDivider()
      requires Valid()
      modifies divider
      ensures Valid() && Keeps()
      ensures Model() == old(Model()).(frames := old(Model()).frames.(panes := old(Model()).frames.panes.(divider := SetupDividerFrame(old(Model())))))
    {
      var divRect := bounds;
      if settings.isVertical {
        divRect := divRect.(y := settings.splitPosition, height := settings.splitWidth);
      } else {
        divRect := divRect.(x := settings.splitPosition, width := settings.splitWidth);
      }
      divider.frame := divRect;
    }

    /** HiddenPopoverController.Dismiss, when the popover exists and is on screen. */
    method DismissHiddenPopover()
      requires Linked()
      modifies this
      ensures Linked() && Keeps() && Model() == DismissPopover(old(Model()))
    {
      if popover.content.Some? && popover.visible {
        popover := popover.(visible := false);
      }
    }

    method SetShowsMasterInPortrait(value: bool)
      requires Valid()
      modifies this, divider
      ensures Valid() && Keeps()
      ensures Model() == SplitViewState.SetShowsMasterInPortrait(old(Model()), value)
    {
      if value == settings.showsMasterInPortrait {
        return;
      }
      settings := settings.(showsMasterInPortrait := value);
      if IsLandscape(orientation) {
        return;
      }
      ReshowMaster();
    }

    method SetShowsMasterInLandscape(value: bool)
      requires Valid()
      modifies this, divider
      ensures Valid() && Keeps()
      ensures Model() == SplitViewState.SetShowsMasterInLandscape(old(Model()), value)
    {
      settings := settings.(showsMasterInLandscape := value);
      if !IsLandscape(orientation) {
        return;
      }
      ReshowMaster();
    }

    /** Dismisses the popover and lays out with the popover reconfigured. */
    method ReshowMaster()
      requires Valid()
      modifies this, divider
      ensures Valid() && Keeps() && Model() == SplitViewState.ReshowMaster(old(Model()))
    {
      ghost var s1 := DismissPopover(Model()).(reconfigurePopup := true);
      DismissHiddenPopover();
      reconfigurePopup := true;
      assert Model() == s1;
      LayoutSubviews();
    }

    method SetIsVertical(value: bool)
      requires Valid()
      modifies this, divider
      ensures Valid() && Keeps()
      ensures Model() == SplitViewState.SetIsVertical(old(Model()), value)
    {
      if value == settings.isVertical {
        return;
      }
      ghost var s0 := Model();
      ghost var s1 := DismissPopover(s0).(settings := s0.settings.(isVertical := value));
      DismissHiddenPopover();
      settings := settings.(isVertical := value);
      assert Model() == s1;
      ghost var s2 := Notify(s1, WillChangeSplitOrientationToVertical(value));
      RaiseEvent(WillChangeSplitOrientationToVertical(value));
      assert Model() == s2;
      LayoutSubviews();
    }

    method SetMasterBeforeDetail(value: bool)
      requires Valid()
      modifies this, divider
      ensures Valid() && Keeps()
      ensures Model() == SplitViewState.SetMasterBeforeDetail(old(Model()), value)
    {
      if value == settings.masterBeforeDetail {
        return;
      }
      DismissHiddenPopover();
      settings := settings.(masterBeforeDetail := value);
      if IsShowingMaster() {
        LayoutSubviews();
      }
    }

    method SetSplitPosition(value: real)
      requires Valid()
      modifies this, divider
      ensures Valid() && Keeps()
      ensures Model() == SplitViewState.SetSplitPosition(old(Model()), constrainSplitPosition, value)
    {
      var constrained: bool;
      var fullWidth, fullHeight := bounds.width, bounds.height;
      var newPos := value;
      if constrainSplitPosition.Some? {
        newPos := constrainSplitPosition.value(value, fullWidth, fullHeight);
        constrained := true;
      } else {
        var minPos := MinViewWidth;
        var maxPos := (if settings.isVertical then fullWidth else fullHeight) - (MinViewWidth + settings.splitWidth);
        constrained := newPos != settings.splitPosition && newPos >= minPos && newPos <= maxPos;
      }
      if !constrained {
        return;
      }
      AcceptSplitPosition(newPos);
    }

    /** The second half of the SplitPosition setter, once `newPos` is accepted. */
    method AcceptSplitPosition(newPos: real)
      requires Valid()
      modifies this, divider
      ensures Valid() && Keeps() && Model() == MoveSplit(old(Model()), newPos)
    {
      ghost var s0 := Model();
      ghost var s1 := DismissPopover(s0).(settings := s0.settings.(splitPosition := newPos));
      DismissHiddenPopover();
      settings := settings.(splitPosition := newPos);
      assert Model() == s1;
      ghost var s2 := Notify(s1, WillMoveSplitToPosition(newPos));
      RaiseEvent(WillMoveSplitToPosition(newPos));
      assert Model() == s2;
      if IsShowingMaster() {
        LayoutSubviews();
      }
    }

    method SetSplitWidth(value: real)
      requires Valid()
      modifies this, divider
      ensures Valid() && Keeps()
      ensures Model() == SplitViewState.SetSplitWidth(old(Model()), value)
    {
      if value != settings.splitWidth && value >= 0.0 {
        settings := settings.(splitWidth := value);
        if IsShowingMaster() {
          LayoutSubviews();
        }
      }
    }

    /** The AllowsDraggingDivider setter: forwarded to the divider. */
    method SetAllowsDraggingDivider(value: bool)
      requires Valid()
      modifies divider
      ensures Valid() && Model() == old(Model())
      ensures AllowsDraggingDivider() == value
    {
      divider.SetAllowsDragging(value);
    }

    method SetDividerStyle(style: DividerStyle)
      requires Valid()
      modifies this, divider
      ensures Valid() && constrainSplitPosition == old(constrainSplitPosition)
      ensures Model() == SplitViewState.SetDividerStyle(old(Model()), style)
      ensures AllowsDraggingDivider() == (style == PaneSplitter)
    {
      ApplyStylePreset(style);
      LayoutSubviews();
    }

    /** The DividerStyle setter up to its final layout. */
    method ApplyStylePreset(style: DividerStyle)
      requires Valid()
      modifies this, divider
      ensures Valid() && constrainSplitPosition == old(constrainSplitPosition)
      ensures Model() == SplitViewState.ApplyStylePreset(old(Model()), style)
      ensures AllowsDraggingDivider() == (style == PaneSplitter)
    {
      ghost var s0 := Model();
      DismissHiddenPopover();
      settings := settings.(dividerStyle := style);
      ghost var s1 := Model();
      assert s1 == SplitViewState.DismissPopover(s0).(settings := s0.settings.(dividerStyle := style));
      ApplyPresetWidth(style);
      ghost var s2 := Model();
      if cornerRadius.Some? {
        cornerRadius := Some(PresetCornerRadius(style));
      }
      assert Model() == SplitViewState.RestyleCorners(s2, PresetCornerRadius(style));
    }

    /** The preset's gutter width, and dragging for PaneSplitter only. */
    method ApplyPresetWidth(style: DividerStyle)
      requires Valid()
      modifies this, divider
      ensures Valid() && constrainSplitPosition == old(constrainSplitPosition)
      ensures Model() == SplitViewState.SetSplitWidth(old(Model()), PresetSplitWidth(style))
      ensures AllowsDraggingDivider() == (style == PaneSplitter)
    {
      if style == Thin {
        SetSplitWidth(DefaultSplitWidth);
        SetAllowsDraggingDivider(false);
      } else {
        SetSplitWidth(PanesplitterSplitWidth);
        SetAllowsDraggingDivider(true);
      }
    }

    /**
     * The ViewControllers setter: the exception it throws for a missing or
     * short array is returned as `outcome`.
     */
    method SetViewControllers(value: Option<seq<Option<ViewController>>>) returns (outcome: Outcome)
      requires Valid() && ArrayInsertable(value)
      modifies this, divider
      ensures Valid() && Keeps()
      ensures (Model(), outcome) == SplitViewState.SetViewControllers(old(Model()), value)
      decreases 3
    {
      ClearChildren();
      if value.Some? && |value.value| >= 2 {
        AdoptChildren(value.value[0], value.value[1]);
      } else {
        return ArgumentException("Error: This component requires 2 view-controllers");
      }
      return Done;
    }

    /** The start of the ViewControllers setter: the old children's views are detached and both slots emptied. */
    method ClearChildren()
      requires Valid()
      modifies this
      ensures Valid() && Keeps() && Model() == SplitViewState.ClearChildren(old(Model()))
    {
      if children.arraySet {
        masterHost := Detached;
        detailEmbedded := false;
      }
      children := Children(true, None, None);
    }

    /** The end of the ViewControllers setter: the master, then the detail, then a layout. */
    method AdoptChildren(master: Option<ViewController>, detail: Option<ViewController>)
      requires Valid() && children.arraySet && (detail.None? || master.Some?)
      modifies this, divider
      ensures Valid() && Keeps()
      ensures Model() == Relayout(SplitViewState.SetDetailViewController(SplitViewState.SetMasterViewController(old(Model()), master), detail))
      decreases 2
    {
      ghost var s3 := SplitViewState.SetMasterViewController(Model(), master);
      SetMasterViewController(master);
      assert Model() == s3;
      SetDetailViewController(detail);
      LayoutSubviews();
    }

    method SetMasterViewController(value: Option<ViewController>)
      requires Valid()
      modifies this, divider
      ensures Valid() && Keeps()
      ensures Model() == SplitViewState.SetMasterViewController(old(Model()), value)
      decreases if children.arraySet then 1 else 5
    {
      EnsureArray();
      ReplaceMaster(value);
    }

    /** The rest of the MasterViewController setter, once the array exists. */
    method ReplaceMaster(value: Option<ViewController>)
      requires Valid() && children.arraySet
      modifies this, divider
      ensures Valid() && Keeps() && Model() == SplitViewState.ReplaceMaster(old(Model()), value)
    {
      if children.master == value {
        return;
      }
      masterHost := Detached;
      children := children.(master := value);
      LayoutSubviews();
    }

    method SetDetailViewController(value: Option<ViewController>)
      requires Valid() && DetailInsertable(Model(), value)
      modifies this, divider
      ensures Valid() && Keeps()
      ensures Model() == SplitViewState.SetDetailViewController(old(Model()), value)
      decreases if children.arraySet then 1 else 5
    {
      EnsureArray();
      ReplaceDetail(value);
    }

    /** The rest of the DetailViewController setter, once the array exists. */
    method ReplaceDetail(value: Option<ViewController>)
      requires Valid() && children.arraySet && DetailInsertable(Model(), value)
      modifies this, divider
      ensures Valid() && Keeps() && Model() == SplitViewState.ReplaceDetail(old(Model()), value)
    {
      if children.detail == value {
        return;
      }
      detailEmbedded := false;
      children := children.(detail := value);
      LayoutSubviews();
    }

    /** Gives a controller without a ViewControllers array an empty one, as the child setters do first. */
    method EnsureArray()
      requires Valid()
      modifies this, divider
      ensures Valid() && Keeps() && children.arraySet
      ensures Model() == SplitViewState.EnsureArray(old(Model()))
      decreases if children.arraySet then 0 else 4
    {
      if !children.arraySet {
        var _ := SetViewControllers(Some([None, None]));
      }
    }

    /** Raises one of the C# events other than WillHideViewController and WillShowViewController. */
    method RaiseEvent(e: Event)
      requires Linked() && !e.WillHideViewController? && !e.WillShowViewController?
      modifies this
      ensures Linked() && Keeps() && Model() == Notify(old(Model()), e)
    {
      events := events + [e];
    }

    method LayoutSubviews()
      requires Linked()
      modifies this, divider
      ensures Linked() && Keeps() && Model() == Relayout(old(Model()))
    {
      LayoutSubviewsForInterfaceOrientation(orientation);
    }

    method LayoutSubviewsForInterfaceOrientation(o: InterfaceOrientation)
      requires Linked()
      modifies this, divider
      ensures Linked() && Keeps() && Model() == Layout(old(Model()), o)
    {
      if reconfigurePopup {
        ReconfigureForMasterInPopover(!ShouldShowMasterForInterfaceOrientation(o, settings.showsMasterInPortrait, settings.showsMasterInLandscape));
      }
      Position(o);
    }

    /** The positioning half of LayoutSubviewsForInterfaceOrientation. */
    method Position(o: InterfaceOrientation)
      requires Linked()
      modifies this, divider
      ensures Linked() && Keeps() && Model() == Place(old(Model()), o)
    {
      var show := ShouldShowMasterForInterfaceOrientation(o, settings.showsMasterInPortrait, settings.showsMasterInLandscape);
      var panes := SplitFrames(bounds, settings.isVertical, settings.masterBeforeDetail, show, settings.splitPosition, settings.splitWidth);
      PositionMaster(o, panes);
      PositionDetail(o, panes);
      PositionCorners(o, show);
    }

    /** The master's view and the divider take their frames; a detached master view is embedded. */
    method PositionMaster(o: InterfaceOrientation, panes: Frames)
      requires Linked() && panes == PaneFrames(Model(), o)
      modifies this, divider
      ensures Linked() && Keeps() && Model() == PlaceMaster(old(Model()), o)
    {
      if children.master.Some? {
        masterFrame := panes.master;
        if masterHost == Detached {
          masterHost := Embedded;
        }
        divider.frame := panes.divider;
      }
    }

    /** The detail's view takes its frame and is embedded. */
    method PositionDetail(o: InterfaceOrientation, panes: Frames)
      requires Linked() && panes == PaneFrames(Model(), o)
      modifies this
      ensures Linked() && Keeps() && Model() == PlaceDetail(old(Model()), o)
    {
      if children.detail.Some? {
        detailFrame := panes.detail;
        detailEmbedded := true;
      }
    }

    /** The corner views are created with the default radius if missing, and both strips are placed. */
    method PositionCorners(o: InterfaceOrientation, show: bool)
      requires Linked() && show == ShouldShowMasterFor(Model(), o)
      modifies this
      ensures Linked() && Keeps() && Model() == PlaceCorners(old(Model()), o)
    {
      if cornerRadius.None? {
        cornerRadius := Some(DefaultCornerRadius);
      }
      corners := CornerFrames(bounds, settings.isVertical, settings.masterBeforeDetail, show, settings.splitPosition, settings.splitWidth, cornerRadius.value);
    }

    method ReconfigureForMasterInPopover(inPopover: bool)
      requires Linked()
      modifies this
      ensures Linked() && Keeps() && Model() == Reconfigure(old(Model()), inPopover)
    {
      reconfigurePopup := false;
      if !settings.autoProvidePopoverAndBarItem {
        return;
      }
      var master := children.master;
      if (inPopover && popover.content.Some?) || (!inPopover && popover.content.None?) || master.None? {
        return;
      }
      if inPopover && popover.content.None? && !popover.barButton {
        popover := PopoverState(master, false, true);
        events := events + [WillHideViewController(master.value)];
      } else if !inPopover && popover.content.Some? && popover.barButton {
        var movesMaster := popover.content == master;
        popover := PopoverState(None, false, false);
        events := events + [WillShowViewController(master.value)];
        if movesMaster || masterHost != Embedded {
          masterHost := Detached;
        }
      }
    }

    method ToggleSplitOrientation()
      requires Valid()
      modifies this, divider
      ensures Valid() && Keeps()
      ensures Model() == SplitViewState.ToggleSplitOrientation(old(Model()))
    {
      if !IsShowingMaster() {
        return;
      }
      SetIsVertical(!settings.isVertical);
    }

    method ToggleMasterBeforeDetail()
      requires Valid()
      modifies this, divider
      ensures Valid() && Keeps()
      ensures Model() == SplitViewState.ToggleMasterBeforeDetail(old(Model()))
    {
      if !IsShowingMaster() {
        return;
      }
      SetMasterBeforeDetail(!settings.masterBeforeDetail);
    }

    method ToggleMasterView()
      requires Valid()
      modifies this, divider
      ensures Valid() && Keeps()
      ensures Model() == SplitViewState.ToggleMasterView(old(Model()))
    {
      PrepareMasterToggle();
      FlipShownFlag();
    }

    /** The second half of ToggleMasterView: negate the current orientation's visibility flag through its setter. */
    method FlipShownFlag()
      requires Valid()
      modifies this, divider
      ensures Valid() && Keeps()
      ensures Model() == SplitViewState.FlipShownFlag(old(Model()))
    {
      if IsLandscape(orientation) {
        SetShowsMasterInLandscape(!settings.showsMasterInLandscape);
      } else {
        SetShowsMasterInPortrait(!settings.showsMasterInPortrait);
      }
    }

    /** The first half of ToggleMasterView: dismiss the popover and, unless the master is showing, take it down. */
    method PrepareMasterToggle()
      requires Valid()
      modifies this, divider
      ensures Valid() && Keeps() && Model() == SplitViewState.PrepareMasterToggle(old(Model()))
    {
      DismissHiddenPopover();
      if !IsShowingMaster() {
        ghost var s1 := Reconfigure(Model().(reconfigurePopup := true), false);
        reconfigurePopup := true;
        ReconfigureForMasterInPopover(false);
        assert Model() == s1;
        LayoutSubviews();
      }
    }

    /** The bar button's action. */
    method ShowMasterPopover()
      requires Valid()
      modifies this
      ensures Valid() && Keeps()
      ensures Model() == SplitViewState.ShowMasterPopover(old(Model()))
    {
      if popover.content.None? || popover.visible {
        return;
      }
      RaiseEvent(WillPresentViewController(children.master));
      popover := popover.(visible := true);
      if popover.content == children.master {
        masterHost := InPopover;
      }
    }

    method WillAnimateRotation(to: InterfaceOrientation)
      requires Valid()
      modifies this, divider
      ensures Valid() && Keeps()
      ensures Model() == SplitViewState.WillAnimateRotation(old(Model()), to)
    {
      DismissHiddenPopover();
      reconfigurePopup := true;
      LayoutSubviewsForInterfaceOrientation(to);
    }

    method ViewDidAppear()
      requires Valid()
      modifies this, divider
      ensures Valid() && Keeps()
      ensures Model() == SplitViewState.ViewDidAppear(old(Model()))
    {
      reconfigurePopup := true;
      LayoutSubviews();
    }
  }

  class SplitDividerView {
    var frame: Rect
    var allowsDragging: bool
    var userInteractionEnabled: bool
    /** SplitViewController: the controller whose split this divider moves. */
    var splitViewController: SplitViewController?

    /** The view takes touches exactly when dragging is allowed. */
    ghost predicate Valid()
      reads this
    {
      userInteractionEnabled == allowsDragging
    }

    /** The frame constructor: a divider that ignores touches and does not allow dragging. */
    constructor (frame: Rect)
      ensures Valid() && this.frame == frame && !allowsDragging && !userInteractionEnabled
      ensures splitViewController == null
    {
      this.frame := frame;
      userInteractionEnabled := false;
      allowsDragging := false;
      splitViewController := null;
    }

    /** The AllowsDragging setter: dragging and touch handling are switched together. */
    method SetAllowsDragging(value: bool)
      modifies this
      ensures Valid() && allowsDragging == value && userInteractionEnabled == value
      ensures frame == old(frame) && splitViewController == old(splitViewController)
    {
      allowsDragging := value;
      userInteractionEnabled := value;
    }

    /**
     * TouchesMoved: the pointer's movement along the split axis, negated when
     * the master comes last, is added to the controller's split position.
     */
    method TouchesMoved(touch: Option<Touch>)
      requires splitViewController != null && splitViewController.divider == this && splitViewController.Valid()
      modifies splitViewController, this
      ensures splitViewController == old(splitViewController) && splitViewController.Valid()
      ensures splitViewController.Keeps() && splitViewController.divider == this
      ensures splitViewController.Model()
              == DragDivider(old(splitViewController.Model()), old(splitViewController.constrainSplitPosition), touch)
    {
      if touch.None? {
        return;
      }
      var t := touch.value;
      var controller := splitViewController;
      var offset := if controller.settings.isVertical then t.current.x - t.previous.x else t.current.y - t.previous.y;
      if !controller.settings.masterBeforeDetail {
        offset := -offset;
      }
      controller.SetSplitPosition(controller.settings.splitPosition + offset);
    }
  }
}
