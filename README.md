# MTSplitViewController in Dafny

A model of MTSplitViewController, a Xamarin.iOS split view controller. It
shows a master and a detail view controller side by side, or one above the
other, separated by a divider. In the orientations where the master is
configured as hidden, it moves the master into a popover reached from a bar
button. The model covers the following:

- the property setters that rearrange the split: ShowsMasterInPortrait,
  ShowsMasterInLandscape, IsVertical, MasterBeforeDetail, SplitPosition,
  SplitWidth, DividerStyle, AllowsDraggingDivider, ViewControllers,
  MasterViewController and DetailViewController;
- the layout pass: the master/divider/detail rectangles and the two
  corner strips;
- the popover reconfiguration;
- the three toggles and the bar button's action;
- the rotation and appearance hooks that lay the view out;
- Setup, run by every constructor;
- MTSplitDividerView: its frame constructor, its AllowsDragging setter, and
  TouchesMoved, which turns a drag into a new split position.

Modules, one file each:

- `Wrappers`: `Option`, standing for a C# reference that may be null.
- `Geometry`: the rectangle arithmetic of the layout pass, as pure functions
  over `real`. It also keeps two as-written variants (see Findings).
- `Orientations`: `UIInterfaceOrientation`, `IsLandscape`,
  `ShouldShowMasterForInterfaceOrientation` and `NameOfInterfaceOrientation`.
- `DividerDrag`: the drag rule of `TouchesMoved`.
- `SplitViewState`: the controller's state as a value (`SplitState`), and one
  function per operation giving the state the operation leaves behind.
  - It defines the invariant `Inv`: the popover and the bar button exist
    together; WillHideViewController and WillShowViewController notifications
    strictly alternate; the master's view is in the popover only while a
    popover exists; no popover reconfiguration is pending; a master has its
    view in the split view or in the popover, and the corner views exist; a
    detail is embedded in the split view.
  - Every operation is proved to keep `Inv`. The lemmas relating the
    operations are proved here too.
  - `Run` applies any sequence of operations and keeps the popover/bar-button
    pairing and the alternation.
- `SplitViewLib`: the classes `SplitViewController` and `SplitDividerView`,
  whose methods update fields in place as the C# setters do.
  - `Model()` reads the controller's fields as a `SplitState`.
  - Every method is proved to change the fields exactly as the
    `SplitViewState` function named in its `ensures` says.
  - The controller groups its configurable properties into one `Settings`
    record field, its children into `Children`, and the popover and bar button
    into `PopoverState`. The C# class keeps these as separate backing fields.

Notes on what the model abstracts:

- UIKit objects are reduced to what the controller's decisions depend on:
  - the popover, by the controller it was made for, and whether it is on
    screen;
  - the bar button item, by whether it exists;
  - the master's view, by where it is (detached, embedded in the split view,
    or in the popover);
  - every view, by the frame it was last given.
- The C# events are recorded, in order, as the notifications raised. Whether
  anybody subscribed does not change the controller's state.
- The ConstrainSplitPosition delegate is a pure function field.
- The popover is known by the controller it was made for, which need not be
  the current master: the MasterViewController setter never touches the
  popover, and a reconfiguration that finds one already there leaves it. So
  "a popover exists" below does not mean that the current master is in it;
  `ReplacedMasterKeepsStalePopover` shows the old master being presented after
  a replacement.
- `nfloat` is `real`.

## Model

| member | source | states |
|---|---|---|
| Orientations.ShouldShowMasterForInterfaceOrientation | MTSplitViewLib/MTSplitViewController.cs:660-667 | the landscape flag decides in both landscape orientations, and the portrait flag in every other orientation |
| Orientations.NameOfInterfaceOrientation | MTSplitViewLib/MTSplitViewController.cs:635-655 | the name is null exactly for an orientation outside the four named ones; a name starts with "Landscape" exactly for a landscape orientation |
| Orientations.NamesIdentifyOrientations | MTSplitViewLib/MTSplitViewController.cs:635-655 | no two orientations share a name |
| DividerDrag.ProposedSplitPosition | MTSplitViewLib/MTSplitDividerView.cs:216-229 | the proposed position grows exactly when the pointer moves towards the detail; the change is the pointer's movement along the split axis, with its sign set by the master order |
| DividerDrag.DragMirrorsWithMasterOrder | MTSplitViewLib/MTSplitDividerView.cs:223-227 | the same pointer move proposes opposite changes with the master first and with the master last |
| DividerDrag.DragIgnoresCrossAxis | MTSplitViewLib/MTSplitDividerView.cs:223 | movement across the split axis proposes no change |
| DividerDrag.DragThereAndBack | MTSplitViewLib/MTSplitDividerView.cs:216-229 | dragging back along the same path proposes the starting position |
| Geometry.SplitPartition | MTSplitViewLib/MTSplitViewController.cs:913-948 | master, divider and detail are adjacent in the configured order, with lengths SplitPosition and SplitWidth; with the master shown, the three fill the container; with it hidden, the detail takes the whole container and the master and divider lie outside it |
| Geometry.SplitFrames | MTSplitViewLib/MTSplitViewController.cs:907-1040 | a vertical split cuts the columns and gives every pane the container's full height; a horizontal split cuts the rows and gives every pane its full width; shown panes add up to the container |
| Geometry.CornerFrames | MTSplitViewLib/MTSplitViewController.cs:1133-1184 | each strip is the gutter widened by the radius on both sides and one radius deep; one strip sits at each end of the divider, astride it, flush with the container's edges; with the master hidden they sit astride a gutter ending at the container's leading edge |
| Geometry.PartitionAsWrittenAgreesOnlyAtOrigin | MTSplitViewLib/MTSplitViewController.cs:928 | the source's partition equals the corrected one exactly when the master comes last or the container starts at 0 |
| Geometry.PartitionAsWrittenFallsShort | MTSplitViewLib/MTSplitViewController.cs:928 | for a container at x = 10 that is 768 wide, the source's detail ends at 768, ten units short of the container's edge |
| Geometry.CornersAsWrittenAgreeOnlyAtLeftEdgeZero | MTSplitViewLib/MTSplitViewController.cs:1136-1184 | the source's corner strips equal the corrected ones exactly when the container's left edge is 0 |
| Geometry.CornersAsWrittenMissDivider | MTSplitViewLib/MTSplitViewController.cs:1136-1157 | for a container at x = 10, the divider starts at 330 but the source centres the corners on 320 |
| Orientations.IsLandscape | MTSplitViewLib/MTSplitViewController.cs:582-585 | exactly the two landscape orientations are landscape |
| SplitViewState.ShouldShowMaster | MTSplitViewLib/MTSplitViewController.cs:607-610 | whether the master should show, decided for the current orientation |
| SplitViewState.IsShowingMaster | MTSplitViewLib/MTSplitViewController.cs:590-599 | the master is showing exactly when it should show, there is a master, and its view is in the split view |
| SplitViewLib.SplitViewController.IsShowingMaster | MTSplitViewLib/MTSplitViewController.cs:590-599 | the controller's own getter agrees with SplitViewState.IsShowingMaster on its modelled state |
| SplitViewLib.SplitViewController.AllowsDraggingDivider | MTSplitViewLib/MTSplitViewController.cs:341-344 | dragging is allowed exactly when the divider view allows it; the controller always has a divider view |
| SplitViewState.DefaultAccepts | MTSplitViewLib/MTSplitViewController.cs:254-257 | without a delegate, a position is accepted when it differs from the current one and lies between MinViewWidth and the split axis's extent less MinViewWidth and the gutter |
| SplitViewState.SetupDividerFrame | MTSplitViewLib/MTSplitViewController.cs:682-692 | as the source writes it: a vertical split's new divider is the container with y set to SplitPosition and height to SplitWidth; a horizontal split's is the container with x and width set. The first layout replaces it |
| SplitViewState.HostAfterPopover | MTSplitViewLib/MTSplitViewController.cs:1257-1283 | after the popover is torn down the master's view is never left in it, and stays in the split view only if it was there before |
| SplitViewState.PlaceMaster | MTSplitViewLib/MTSplitViewController.cs:951-977 | without a master nothing changes; with one, master and divider take the geometry's frames, a detached master is embedded, and a master in the popover stays there |
| SplitViewState.PlaceDetail | MTSplitViewLib/MTSplitViewController.cs:979-998 | without a detail nothing changes; with one, it takes the geometry's frame and is embedded |
| SplitViewState.PlaceCorners | MTSplitViewLib/MTSplitViewController.cs:1093-1184 | the corner views exist afterwards, existing ones keep their radius, new ones get the default, and both strips take the geometry's frames; the pane frames are untouched |
| SplitViewState.PresetSplitWidth | MTSplitViewLib/MTSplitViewController.cs:528-540 | a preset gutter width is never negative, so the SplitWidth setter accepts it |
| SplitViewState.PresetCornerRadius | MTSplitViewLib/MTSplitViewController.cs:528-540 | Thin presets rounded corners, PaneSplitter square ones |
| Geometry.PartitionAsWritten | MTSplitViewLib/MTSplitViewController.cs:913-948 | the source's partition: same lengths and adjacency as the corrected one, but with the master first the detail ends at the container's extent rather than at its trailing edge; with the detail first it is the corrected partition |
| Geometry.CornersAsWritten | MTSplitViewLib/MTSplitViewController.cs:1133-1184 | the source's corner strips: vertical strips placed by the split position alone, horizontal strips at x = 0 and at the container's width less the radius, never offset by the container's left edge |
| SplitViewState.DismissPopover | MTSplitViewLib/MTSplitViewController.cs:131-134 | dismissing hides the popover and keeps the invariant; nothing else changes |
| SplitViewState.Notify | MTSplitViewLib/MTSplitViewController.cs:191-195 | raising any notification other than hide/show appends it and keeps the hide/show alternation |
| SplitViewState.RaiseKeepsAlternation | MTSplitViewLib/MTSplitViewController.cs:1217-1285 | a WillHide raised without a popover, or a WillShow raised with one, keeps hide and show alternating; other notifications leave the sequence of hides and shows as it was |
| SplitViewState.PopoverTransitionsAppend | MTSplitViewLib/MTSplitViewController.cs:1217-1285 | the hides and shows of two runs of notifications are those of the first run followed by those of the second |
| SplitViewState.ReconfigureNotice | MTSplitViewLib/MTSplitViewController.cs:1217-1285 | the reconfiguration raises at most one notification, one exactly when it acts: WillHide for the master when moving it into the popover, WillShow when moving it out |
| SplitViewState.Reconfigure | MTSplitViewLib/MTSplitViewController.cs:1217-1285 | always clears the reconfigure flag. It does nothing unless the controller provides the popover, has a master, and the master is not where asked. Otherwise: moving into the popover creates popover and bar button together and raises WillHide; moving out destroys both, detaches the master's view unless it is still in the split view, and raises WillShow |
| SplitViewState.ReconfigureTwice | MTSplitViewLib/MTSplitViewController.cs:1227-1231 | a second reconfiguration towards the same place changes nothing more |
| SplitViewState.Place | MTSplitViewLib/MTSplitViewController.cs:951-1092 | after positioning, every view in use has the frame the geometry gives it, a detached master or detail is embedded, a master in the popover stays there, the corner views exist, and settings, popover and notifications are unchanged |
| SplitViewState.Layout | MTSplitViewLib/MTSplitViewController.cs:883-1209 | the layout establishes the invariant and the frames for the orientation. When a reconfiguration is pending, it raises exactly the notification ReconfigureNotice gives for moving the master into the popover when the orientation hides it, and otherwise none; when that reconfiguration acts, the popover is the new one made for the master or is gone, and when it does not, the popover is unchanged. With a provided popover and a master, a popover and bar button exist afterwards exactly when the orientation hides the master. A master without a popover ends up in the split view. Without a pending reconfiguration, the popover and the notifications are unchanged |
| SplitViewState.Relayout | MTSplitViewLib/MTSplitViewController.cs:802-805 | as Layout, for the current orientation: the same notification, popover and master placement |
| SplitViewState.LayoutIdempotent | MTSplitViewLib/MTSplitViewController.cs:883-1209 | laying out twice for the same orientation is the same as laying out once |
| SplitViewState.SetShowsMasterInPortrait | MTSplitViewLib/MTSplitViewController.cs:119-140 | an unchanged value is ignored, and in landscape only the flag is stored. In portrait the popover is dismissed, the view laid out, exactly the WillHide or WillShow that ReconfigureNotice gives for the new value is raised, and with a provided popover and a master, a popover and bar button exist exactly when the master is now hidden |
| SplitViewState.SetShowsMasterInLandscape | MTSplitViewLib/MTSplitViewController.cs:150-168 | outside landscape only the flag is stored. In landscape, even when the value is unchanged, the popover is dismissed, the view laid out, exactly the WillHide or WillShow that ReconfigureNotice gives for the new value is raised, and with a provided popover and a master, a popover and bar button exist exactly when the master is now hidden |
| SplitViewState.ReshowMaster | MTSplitViewLib/MTSplitViewController.cs:130-138 | dismissing the popover and laying out with a reconfiguration leaves no visible popover and every frame placed. It raises exactly the notification ReconfigureNotice gives for the current orientation; the popover is rebuilt for the master or removed when that reconfiguration acts and otherwise only hidden. With a provided popover and a master, a popover and bar button exist exactly when the orientation hides the master, and the master is showing in the split view exactly when the orientation shows it |
| SplitViewState.RedundantVisibilityWrites | MTSplitViewLib/MTSplitViewController.cs:124 | writing back the portrait flag changes nothing, while writing back the landscape flag in landscape dismisses a visible popover |
| SplitViewState.SetIsVertical | MTSplitViewLib/MTSplitViewController.cs:177-199 | an unchanged value is ignored. Otherwise: the popover is dismissed, WillChangeSplitOrientationToVertical is raised with the new value, the view is laid out, and the master stays where it was |
| SplitViewState.SetMasterBeforeDetail | MTSplitViewLib/MTSplitViewController.cs:209-228 | an unchanged value is ignored. Otherwise the popover is dismissed, and the view is laid out only while the master is showing; if it is not, the frames are unchanged |
| SplitViewState.DefaultAcceptsKeepsPanesWide | MTSplitViewLib/MTSplitViewController.cs:254-257 | without a delegate, a new position is accepted exactly when it differs from the current one and leaves master and detail each at least MinViewWidth along the split axis |
| SplitViewState.MoveSplit | MTSplitViewLib/MTSplitViewController.cs:262-279 | an accepted position is stored, the popover dismissed and WillMoveSplitToPosition raised; the view is laid out only while the master is showing |
| SplitViewState.SetSplitPosition | MTSplitViewLib/MTSplitViewController.cs:238-280 | the delegate's answer is taken as it is; without a delegate, the default constraints decide, and a rejected position changes nothing |
| SplitViewState.SetSplitPositionTwice | MTSplitViewLib/MTSplitViewController.cs:254-257 | without a delegate, assigning the same position twice is the same as assigning it once |
| SplitViewState.SetSplitWidth | MTSplitViewLib/MTSplitViewController.cs:316-330 | a negative or unchanged width is ignored; otherwise it is stored, and the view laid out only while the master is showing |
| SplitViewState.SetSplitWidthTwice | MTSplitViewLib/MTSplitViewController.cs:316-330 | assigning the same width twice is the same as assigning it once |
| SplitViewState.SetDividerStyle | MTSplitViewLib/MTSplitViewController.cs:513-557 | even an unchanged style re-applies its preset: Thin gives a 1-unit gutter, PaneSplitter 25 units. Existing corner views get the preset radius, new ones get the default radius. The popover is dismissed and the view laid out |
| SplitViewState.ApplyStylePreset | MTSplitViewLib/MTSplitViewController.cs:518-553 | the style and the preset gutter width are stored, the popover is dismissed, and existing corner views take the preset radius |
| SplitViewState.RestyleCorners | MTSplitViewLib/MTSplitViewController.cs:547-553 | existing corner views take the radius; without corner views nothing changes |
| SplitViewState.SetViewControllers | MTSplitViewLib/MTSplitViewController.cs:362-392 | ArgumentException is thrown exactly for a missing array or one shorter than two, and leaves no children. Otherwise element 0 becomes the master, element 1 the detail, and the view is laid out; the popover, the bar button and the notifications are untouched |
| SplitViewState.ClearChildren | MTSplitViewLib/MTSplitViewController.cs:367-379 | the old children's views are detached and both slots emptied; nothing else changes |
| SplitViewState.SetMasterViewController | MTSplitViewLib/MTSplitViewController.cs:402-434 | creates an empty array if there is none, leaving the detail empty, and keeps the detail of an existing array. An unchanged master changes nothing; a new master is laid out; the popover, the bar button and the notifications are untouched |
| SplitViewState.EnsureArray | MTSplitViewLib/MTSplitViewController.cs:414-418 | afterwards the array exists; a new array has both slots empty, and an existing array is left alone; the popover, the bar button and the notifications are untouched |
| SplitViewState.ReplaceMaster | MTSplitViewLib/MTSplitViewController.cs:420-432 | only the master slot changes; the same master changes nothing, and a new one leaves every view in use laid out and the invariant kept; the popover, the bar button and the notifications are untouched |
| SplitViewState.SetDetailViewController | MTSplitViewLib/MTSplitViewController.cs:442-474 | creates an empty array if there is none, leaving the master empty, and keeps the master of an existing array. An unchanged detail changes nothing; a new detail is laid out; the popover, the bar button and the notifications are untouched |
| SplitViewState.ReplaceDetail | MTSplitViewLib/MTSplitViewController.cs:460-472 | only the detail slot changes; the same detail changes nothing, and a new one leaves every view in use laid out and the invariant kept; the popover, the bar button and the notifications are untouched |
| SplitViewState.ToggleSplitOrientation | MTSplitViewLib/MTSplitViewController.cs:1295-1319 | does nothing unless the master is showing; otherwise flips IsVertical, raises the notification, and keeps the master showing |
| SplitViewState.ToggleMasterBeforeDetail | MTSplitViewLib/MTSplitViewController.cs:1324-1348 | does nothing unless the master is showing; otherwise flips MasterBeforeDetail and keeps the master showing |
| SplitViewState.ToggleSplitOrientationTwice | MTSplitViewLib/MTSplitViewController.cs:1295-1319 | toggling the orientation twice while the master shows restores every setting and every frame |
| SplitViewState.ToggleMasterView | MTSplitViewLib/MTSplitViewController.cs:1353-1379 | flips only the current orientation's visibility flag, so whether that flag lets the master show (ShouldShowMaster) flips; the popover follows and the children stay. With a provided popover and a master it raises a WillShow exactly when a popover existed and the master was not showing, then a WillHide exactly when the master was to show, unless it was already showing while a popover existed; so when the popover matched the orientation beforehand, it raises exactly one: WillHide if the master was to show, WillShow otherwise. Otherwise it raises nothing |
| SplitViewState.PrepareMasterToggle | MTSplitViewLib/MTSplitViewController.cs:1355-1366 | the popover is dismissed; a showing master changes nothing else. A master that is not showing is taken out of the popover: exactly the WillShow that ReconfigureNotice gives is raised, the popover is only hidden when there was nothing to take down, with a provided popover the master's view ends up in the split view, and every view in use is laid out |
| SplitViewState.ToggleMasterViewNotices | MTSplitViewLib/MTSplitViewController.cs:1353-1379 | the notifications of the toggle's two halves put together: ShouldShowMaster flips, nothing is raised without a provided popover and a master, and otherwise the WillShow and WillHide listed for ToggleMasterView are raised, exactly one when the popover matched the orientation |
| SplitViewState.FlipShownFlag | MTSplitViewLib/MTSplitViewController.cs:1368-1378 | only the current orientation's flag is negated, through its setter, so ShouldShowMaster flips; it raises exactly the notification ReconfigureNotice gives for hiding a master that was to show, and with a provided popover and a master a popover and bar button exist afterwards exactly when the master was to show |
| SplitViewState.ReplacedMasterKeepsStalePopover | MTSplitViewLib/MTSplitViewController.cs:420-432 | after the master is replaced while its popover exists, laying the view out again keeps the old popover, and the bar button presents the old master while the new master's view stays in the split view |
| SplitViewState.ShowMasterPopover | MTSplitViewLib/MTSplitViewController.cs:1384-1395 | only an existing hidden popover is presented, after WillPresentViewController. The master's view moves into it when the popover was made for the current master |
| SplitViewState.WillAnimateRotation | MTSplitViewLib/MTSplitViewController.cs:738-758 | the popover is dismissed and the view laid out for the target orientation. It raises exactly the notification ReconfigureNotice gives for that orientation; the popover is rebuilt for the master or removed when the reconfiguration acts and otherwise only hidden. With a provided popover and a master, a popover and bar button exist exactly when that orientation hides the master |
| SplitViewState.ViewDidAppear | MTSplitViewLib/MTSplitViewController.cs:821-835 | the layout reconfigures the popover for the current orientation: exactly the notification ReconfigureNotice gives is raised, the popover is the new one or gone when the reconfiguration acts and unchanged otherwise, and with a provided popover and a master a popover and bar button exist exactly when the orientation hides the master |
| SplitViewState.DragDivider | MTSplitViewLib/MTSplitDividerView.cs:216-229 | without a touch nothing changes; otherwise the dragged position goes through the SplitPosition setter, so with a delegate the delegate's answer for the dragged position is stored, and without one it moves only where the default constraints allow |
| SplitViewState.Setup | MTSplitViewLib/MTSplitViewController.cs:672-699 | a new controller has a vertical split with the master first and a 1-unit Thin gutter, and hides the master in portrait but shows it in landscape. It is at the default position if that fits, its new divider's frame is the one SetupDividerFrame gives (for the vertical split, the container with y set to SplitPosition and height to SplitWidth), and it has raised exactly the notifications of those setters |
| SplitViewState.Apply | MTSplitViewLib/MTSplitViewController.cs:119-1395 | every operation, rotation and dismissal keeps the invariant |
| SplitViewState.Run | MTSplitViewLib/MTSplitViewController.cs:1217-1285 | in every reachable state, the popover exists exactly when the bar button does, and WillHide and WillShow alternate, starting with a hide, a popover existing exactly after a hide |
| SplitViewLib.SplitViewController.constructor | MTSplitViewLib/MTSplitViewController.cs:36-59 | a new controller is in the state Setup gives, with dragging off and no delegate |
| SplitViewLib.SplitViewController.Setup | MTSplitViewLib/MTSplitViewController.cs:672-699 | Setup's setter calls change the fields as SplitViewState.Setup says and leave dragging off |
| SplitViewLib.SplitViewController.SetupVisibility | MTSplitViewLib/MTSplitViewController.cs:675-678 | the fields change as SplitViewState.SetupVisibility says |
| SplitViewLib.SplitViewController.SetupMasterVisibility | MTSplitViewLib/MTSplitViewController.cs:676-678 | the fields change as the two visibility setters and the flag reset say |
| SplitViewLib.SplitViewController.SetupSplit | MTSplitViewLib/MTSplitViewController.cs:679-697 | the fields change as SplitViewState.SetupSplit says |
| SplitViewLib.SplitViewController.PlaceNewDivider | MTSplitViewLib/MTSplitViewController.cs:682-697 | the divider gets the frame SetupDividerFrame gives, as the source writes it (for a vertical split, the container with y set to SplitPosition and height to SplitWidth), and nothing else changes |
| SplitViewLib.SplitViewController.DismissHiddenPopover | MTSplitViewLib/MTSplitViewController.cs:131-134 | the fields change as SplitViewState.DismissPopover says |
| SplitViewLib.SplitViewController.SetShowsMasterInPortrait | MTSplitViewLib/MTSplitViewController.cs:119-140 | the fields change as SplitViewState.SetShowsMasterInPortrait says; the delegate and dragging are kept |
| SplitViewLib.SplitViewController.SetShowsMasterInLandscape | MTSplitViewLib/MTSplitViewController.cs:150-168 | the fields change as SplitViewState.SetShowsMasterInLandscape says |
| SplitViewLib.SplitViewController.ReshowMaster | MTSplitViewLib/MTSplitViewController.cs:130-138 | the fields change as SplitViewState.ReshowMaster says |
| SplitViewLib.SplitViewController.SetIsVertical | MTSplitViewLib/MTSplitViewController.cs:177-199 | the fields change as SplitViewState.SetIsVertical says |
| SplitViewLib.SplitViewController.SetMasterBeforeDetail | MTSplitViewLib/MTSplitViewController.cs:209-228 | the fields change as SplitViewState.SetMasterBeforeDetail says |
| SplitViewLib.SplitViewController.SetSplitPosition | MTSplitViewLib/MTSplitViewController.cs:238-280 | the fields change as SplitViewState.SetSplitPosition says, for the controller's own delegate |
| SplitViewLib.SplitViewController.AcceptSplitPosition | MTSplitViewLib/MTSplitViewController.cs:262-279 | the fields change as SplitViewState.MoveSplit says |
| SplitViewLib.SplitViewController.SetSplitWidth | MTSplitViewLib/MTSplitViewController.cs:316-330 | the fields change as SplitViewState.SetSplitWidth says |
| SplitViewLib.SplitViewController.SetAllowsDraggingDivider | MTSplitViewLib/MTSplitViewController.cs:341-351 | dragging takes the value and the modelled state is unchanged |
| SplitViewLib.SplitViewController.SetDividerStyle | MTSplitViewLib/MTSplitViewController.cs:513-557 | the fields change as SplitViewState.SetDividerStyle says, and dragging is on exactly for PaneSplitter |
| SplitViewLib.SplitViewController.ApplyStylePreset | MTSplitViewLib/MTSplitViewController.cs:518-553 | the fields change as SplitViewState.ApplyStylePreset says, and dragging is on exactly for PaneSplitter |
| SplitViewLib.SplitViewController.ApplyPresetWidth | MTSplitViewLib/MTSplitViewController.cs:528-540 | the preset's gutter width goes through the SplitWidth setter, and dragging is on exactly for PaneSplitter |
| SplitViewLib.SplitViewController.SetViewControllers | MTSplitViewLib/MTSplitViewController.cs:362-392 | the fields and the outcome (done, or the ArgumentException) are as SplitViewState.SetViewControllers says |
| SplitViewLib.SplitViewController.ClearChildren | MTSplitViewLib/MTSplitViewController.cs:367-379 | the fields change as SplitViewState.ClearChildren says |
| SplitViewLib.SplitViewController.AdoptChildren | MTSplitViewLib/MTSplitViewController.cs:380-390 | the fields change as the master setter, then the detail setter, then a layout say |
| SplitViewLib.SplitViewController.SetMasterViewController | MTSplitViewLib/MTSplitViewController.cs:402-434 | the fields change as SplitViewState.SetMasterViewController says |
| SplitViewLib.SplitViewController.ReplaceMaster | MTSplitViewLib/MTSplitViewController.cs:420-432 | the fields change as SplitViewState.ReplaceMaster says |
| SplitViewLib.SplitViewController.SetDetailViewController | MTSplitViewLib/MTSplitViewController.cs:442-474 | the fields change as SplitViewState.SetDetailViewController says |
| SplitViewLib.SplitViewController.ReplaceDetail | MTSplitViewLib/MTSplitViewController.cs:460-472 | the fields change as SplitViewState.ReplaceDetail says |
| SplitViewLib.SplitViewController.EnsureArray | MTSplitViewLib/MTSplitViewController.cs:414-418 | the fields change as SplitViewState.EnsureArray says |
| SplitViewLib.SplitViewController.RaiseEvent | MTSplitViewLib/MTSplitViewController.cs:191-195 | the notification is appended, as SplitViewState.Notify says |
| SplitViewLib.SplitViewController.LayoutSubviews | MTSplitViewLib/MTSplitViewController.cs:802-805 | the fields change as SplitViewState.Relayout says |
| SplitViewLib.SplitViewController.LayoutSubviewsForInterfaceOrientation | MTSplitViewLib/MTSplitViewController.cs:883-1209 | the fields change as SplitViewState.Layout says |
| SplitViewLib.SplitViewController.Position | MTSplitViewLib/MTSplitViewController.cs:890-1208 | the fields change as SplitViewState.Place says |
| SplitViewLib.SplitViewController.PositionMaster | MTSplitViewLib/MTSplitViewController.cs:951-977 | master and divider take the geometry's frames, and a detached master is embedded |
| SplitViewLib.SplitViewController.PositionDetail | MTSplitViewLib/MTSplitViewController.cs:979-998 | the detail takes the geometry's frame and is embedded |
| SplitViewLib.SplitViewController.PositionCorners | MTSplitViewLib/MTSplitViewController.cs:1093-1184 | the corner views exist and both strips take the geometry's frames |
| SplitViewLib.SplitViewController.ReconfigureForMasterInPopover | MTSplitViewLib/MTSplitViewController.cs:1217-1285 | the fields change as SplitViewState.Reconfigure says |
| SplitViewLib.SplitViewController.ToggleSplitOrientation | MTSplitViewLib/MTSplitViewController.cs:1295-1319 | the fields change as SplitViewState.ToggleSplitOrientation says |
| SplitViewLib.SplitViewController.ToggleMasterBeforeDetail | MTSplitViewLib/MTSplitViewController.cs:1324-1348 | the fields change as SplitViewState.ToggleMasterBeforeDetail says |
| SplitViewLib.SplitViewController.ToggleMasterView | MTSplitViewLib/MTSplitViewController.cs:1353-1379 | the fields change as SplitViewState.ToggleMasterView says |
| SplitViewLib.SplitViewController.FlipShownFlag | MTSplitViewLib/MTSplitViewController.cs:1368-1378 | the fields change as SplitViewState.FlipShownFlag says |
| SplitViewLib.SplitViewController.PrepareMasterToggle | MTSplitViewLib/MTSplitViewController.cs:1355-1366 | the fields change as SplitViewState.PrepareMasterToggle says |
| SplitViewLib.SplitViewController.ShowMasterPopover | MTSplitViewLib/MTSplitViewController.cs:1384-1395 | the fields change as SplitViewState.ShowMasterPopover says |
| SplitViewLib.SplitViewController.WillAnimateRotation | MTSplitViewLib/MTSplitViewController.cs:738-758 | the fields change as SplitViewState.WillAnimateRotation says |
| SplitViewLib.SplitViewController.ViewDidAppear | MTSplitViewLib/MTSplitViewController.cs:821-835 | the fields change as SplitViewState.ViewDidAppear says |
| SplitViewLib.SplitDividerView.constructor | MTSplitViewLib/MTSplitDividerView.cs:42-47 | a new divider has the given frame, ignores touches and does not allow dragging |
| SplitViewLib.SplitDividerView.SetAllowsDragging | MTSplitViewLib/MTSplitDividerView.cs:233-241 | dragging and touch handling are switched together |
| SplitViewLib.SplitDividerView.TouchesMoved | MTSplitViewLib/MTSplitDividerView.cs:216-229 | the controller's fields change as SplitViewState.DragDivider says |

## Left out

- Drawing is not modelled: the divider's gradient and grip, the corner views' paths, colours, and SetNeedsDisplay. The model keeps only frames and the corner radius.
- Animations are not modelled: SetSplitPositionAnimated, SetDividerStyleAnimated, and the UIView.Animate and BeginAnimations wrappers in the toggles. They run the modelled setters inside animation blocks.
- The hiding and re-showing of the divider and corners during a toggle animation is not modelled. It is visual only.
- Forwarding of the appearance and rotation callbacks to the child controllers is not modelled: ViewWillAppear, ViewDidAppear, WillRotate, DidRotate, the rotation halves, and the disappear hooks. These are UIKit calls into code outside the controller. ViewDidAppear's own layout is modelled.
- Subview ordering (AddSubview, InsertSubviewAbove, BringSubviewToFront) is reduced to whether a view is in the split view. Autoresizing masks and the corner views' Position are left out.
- The DividerView setter is not modelled. Setup's new divider is modelled as the controller's one divider view, which gets its frame and starts without dragging.
- PopoverControllerDidDismissPopover is not modelled. Nothing in the source subscribes it to the popover. A user dismissing the popover is modelled as a plain dismissal (`UserDismissesPopover` in `Apply`).
- ShouldAutorotate and ShouldAutorotateToInterfaceOrientation are not modelled. They are constants.
- SplitViewRectangleForOrientation is modelled as the current bounds, its default. `Apply` assumes UIKit has updated the orientation and bounds before WillAnimateRotation.
- SplitViewState.Place: the controller model lays out with the corrected geometry (Geometry.SplitFrames and Geometry.CornerFrames, see Findings). When the container's origin is not 0 (x for a vertical split or for the corners, y for a horizontal master-first split), the frames it records are the intended ones, not the ones the source computes; at origin 0 the two agree (Geometry.PartitionAsWrittenAgreesOnlyAtOrigin, Geometry.CornersAsWrittenAgreeOnlyAtLeftEdgeZero).
- SplitViewState.Run: clients are assumed never to assign the public properties HiddenPopoverController (MTSplitViewController.cs:97), BarButtonItem (:110) and CornerViews (:624) directly. Such an assignment can separate the popover from the bar button, which the invariant rules out, so `Action` has no case for them.
- SplitViewState.LaidOut: master and detail are assumed to be distinct controllers. With one controller in both slots, the source gives its single view the detail frame last and inserts it once (MTSplitViewController.cs:951-1092), while the model records the master and the detail frames separately.
- SetDetailViewController and SetViewControllers require that a new detail is not inserted while there is no master. In that case the source dereferences the missing master's view (MTSplitViewController.cs:990 and :1082) and throws NullReferenceException.

## Findings

| source | as written | input that shows it | evidently intended | confidence | as-written member | corrected member |
|---|---|---|---|---|---|---|
| MTSplitViewLib/MTSplitViewController.cs:928 (and :1020) | with the master first, the detail's width is `width - X`, so the detail ends at the container's width rather than at its right edge | a container rectangle at x = 10, width 768, split 320, gutter 1: the detail spans [331, 768) instead of [331, 778) | the detail reaches the container's trailing edge, as in the detail-first branch | not executed; shows only when the container rectangle (View.Bounds by default, or an override of SplitViewRectangleForOrientation) has a non-zero origin | Geometry.PartitionAsWritten, Geometry.PartitionAsWrittenFallsShort | Geometry.SplitPartition |
| MTSplitViewLib/MTSplitViewController.cs:1136-1184 | the corner strips never add the container's left edge: the vertical strips are centred on SplitPosition, and the horizontal ones start at x = 0 | the same container at x = 10: the divider starts at 330, but the corners are centred on 320 | the corners sit astride the divider, measured from the container's origin as the vertical offset already is | not executed; shows only when the container rectangle (View.Bounds by default, or an override of SplitViewRectangleForOrientation) has a non-zero origin | Geometry.CornersAsWritten, Geometry.CornersAsWrittenMissDivider | Geometry.CornerFrames |
