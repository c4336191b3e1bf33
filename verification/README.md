# Paint host shape registry

A Dafny model of the paint host of the OSGi shapes example. It covers four parts:

- **The paint frame.** Shape providers come and go as services. The paint frame keeps a registry from shape names to shapes, a toolbar with one button per registration, the tool currently selected, and the components the user has placed on the canvas.
- **The service tracker.** It turns service notifications (added, modified, removed) into registry calls, but only while the framework is starting or active. It swallows any error raised while processing.
- **Each provider's proxy.** A proxy wraps the provider's shape. Once disposed, or when built without a shape, it acts as a placeholder. The placeholder draws a lazily loaded default icon, or a red block when the icon resource is missing.
- **The query value types.** `ShapeImpl` reports a placed component by name and centre. `ShapeDTO` is the REST layer's record.

Swing and OSGi are stripped away, and every operation is a pure transition on immutable values:

- **Frame state.** The `Frame` record holds the registry map, the toolbar as a sequence of action commands (duplicates allowed), the selection, the placed components and the component being dragged.
- **Proxies and the tracker.** The frame refers to proxies by identity (`ShapeRef`). The tracker's `World` holds the proxy states, so disposing a proxy is visible to every component that paints through it.
- **Java arithmetic.** Java `int` arithmetic is modelled with explicit 32-bit wrap-around and truncating division (`JavaLang`).
- **Drawing.** Drawing is an outcome value: delegated to a provider's shape, the placeholder icon, or the red block.

Modules, in dependency order:

| module | models |
|---|---|
| `JavaLang` | null, `Result`/`Option`, exceptions, int32 arithmetic |
| `Geometry` | `Point`, `Rectangle`, the 54-pixel box |
| `DefaultShapes` | `DefaultShape` |
| `ShapeComponents` | `ShapeComponent` |
| `PaintFrame` | `PaintFrame` |
| `FrameProperties` | whole runs of frame events |
| `Painting` | `ShapeComponent.paintComponent` |
| `ShapeTracker` | `ShapeTracker` |
| `HostProperties` | tracker and user events interleaved, plus a worked scenario |
| `ShapeApi`, `ShapeImpls`, `ShapeDTOs` | the query value types |

## Model

| member | source | states |
|---|---|---|
| JavaLang.Half | paint/src/main/java/com/itsix/osgi/paint/ShapeComponent.java:68 | Java's `x / 2` truncates toward zero: twice the quotient is within one of `x`, below it for non-negative `x` and above it for negative `x` |
| JavaLang.SubThenAdd | paint/src/main/java/com/itsix/osgi/paint/api/internal/ShapeImpl.java:17-18 | in wrapping `int` arithmetic, subtracting an amount and adding it back gives the original value, overflow included |
| Geometry.CenteredBox | paint/src/main/java/com/itsix/osgi/paint/PaintFrame.java:172 | the box a shape gets when placed at a point is 54 by 54, and its centre (as the host computes centres) is that point, for every point |
| DefaultShapes.Placeholder | paint/src/main/java/com/itsix/osgi/paint/DefaultShape.java:57-59 | the no-argument proxy wraps nothing and has no icon cached |
| DefaultShapes.Wrapping | paint/src/main/java/com/itsix/osgi/paint/DefaultShape.java:61-63 | the one-argument proxy delegates to the given shape and has no icon cached |
| DefaultShapes.Dispose | paint/src/main/java/com/itsix/osgi/paint/DefaultShape.java:69-71 | after dispose the proxy no longer delegates; the icon cache is untouched |
| DefaultShapes.DisposeIdempotent | paint/src/main/java/com/itsix/osgi/paint/DefaultShape.java:69-71 | disposing twice is the same as disposing once |
| DefaultShapes.Draw | paint/src/main/java/com/itsix/osgi/paint/DefaultShape.java:84-105 | a wrapping proxy delegates at the given anchor and changes nothing; otherwise it never delegates; the red block is drawn exactly when nothing is wrapped, nothing is cached and the resource is missing; the icon is drawn at the origin and is then cached: a cached icon is drawn when there is one, otherwise the resource's image when it is found; the wrapped shape never changes, and a cached icon stays |
| DefaultShapes.DisposedNeverDelegates | paint/src/main/java/com/itsix/osgi/paint/DefaultShape.java:69-90 | after dispose, draw takes the placeholder path whatever the anchor and the resource |
| DefaultShapes.PlaceholderIgnoresAnchor | paint/src/main/java/com/itsix/osgi/paint/DefaultShape.java:92-104 | on the placeholder path the outcome and the new state do not depend on the anchor |
| DefaultShapes.IconCachedAfterFirstLoad | paint/src/main/java/com/itsix/osgi/paint/DefaultShape.java:94-104 | once the icon has been drawn, every later draw paints the same icon, whatever the resource lookup would give |
| DefaultShapes.FailedLoadRetried | paint/src/main/java/com/itsix/osgi/paint/DefaultShape.java:94-101 | a failed load paints the 60x60 red block at (0, 0) and caches nothing, so the next draw loads the icon once the resource is there |
| DefaultShapes.PlaceholderNeverDelegates | paint/src/main/java/com/itsix/osgi/paint/DefaultShape.java:84-105 | a proxy without a wrapped shape never delegates, over any sequence of draws |
| DefaultShapes.DrawAllThreadsState | paint/src/main/java/com/itsix/osgi/paint/DefaultShape.java:84-105 | in a sequence of draws on one proxy, each draw is a single draw of the proxy in the state the earlier draws left, so an icon cached by one draw is seen by the next (`AfterFirst` relates the two orders of threading the state) |
| ShapeComponents.NewComponent | paint/src/main/java/com/itsix/osgi/paint/ShapeComponent.java:49-52 | a new component answers the name it was built with and starts with empty bounds |
| ShapeComponents.GetName | paint/src/main/java/com/itsix/osgi/paint/ShapeComponent.java:71-74 | `getName` answers the shape name the component was built with (stated through `NewComponent`, `SetBounds` and `NameSurvivesMoves`) |
| ShapeComponents.Anchor | paint/src/main/java/com/itsix/osgi/paint/ShapeComponent.java:68 | the drawing anchor is (width / 2, height / 2) in Java's truncating division: twice each coordinate is the extent, or one short of it for an odd non-negative extent, or one over it for an odd negative one |
| ShapeComponents.NameSurvivesMoves | paint/src/main/java/com/itsix/osgi/paint/ShapeComponent.java:49-74 | however often a component is re-bounded, `getName` answers the constructor's name |
| ShapeComponents.AnchorOfPlacedBox | paint/src/main/java/com/itsix/osgi/paint/ShapeComponent.java:68 | a component in a placed 54x54 box draws its shape at (27, 27) |
| PaintFrame.NewFrame | paint/src/main/java/com/itsix/osgi/paint/PaintFrame.java:58-71 | the constructed frame has no shapes, no buttons, no selection, no components and no grab, its serial counter is 0 and its placeholder is fresh, and it satisfies the frame invariant |
| PaintFrame.SelectShape | paint/src/main/java/com/itsix/osgi/paint/PaintFrame.java:80-82 | any name becomes the selection, unchecked, and nothing else changes |
| PaintFrame.ShapeAction | paint/src/main/java/com/itsix/osgi/paint/PaintFrame.java:257-261 | a toolbar button's action selects its action command, and nothing else changes |
| PaintFrame.GetShape | paint/src/main/java/com/itsix/osgi/paint/PaintFrame.java:93-100 | a registered name yields its stored shape; any other name yields the frame's shared placeholder |
| PaintFrame.AddShape | paint/src/main/java/com/itsix/osgi/paint/PaintFrame.java:112-126 | the registry entry is overwritten; exactly one button for the name is appended at the end even if one exists; the name becomes selected exactly when nothing was; components and drag state are untouched |
| PaintFrame.AddShapeLookups | paint/src/main/java/com/itsix/osgi/paint/PaintFrame.java:112-126 | after an add, the added name resolves to the new shape and every other name resolves as before |
| PaintFrame.ReplaceKeepsOtherNames | paint/src/main/java/com/itsix/osgi/paint/PaintFrame.java:112-161 | removing a name and adding it again leaves every other name's binding and its number of buttons unchanged |
| PaintFrame.FirstIndex | paint/src/main/java/com/itsix/osgi/paint/PaintFrame.java:142-151 | the loop stops at the first button whose command is the name |
| PaintFrame.RemoveFirst | paint/src/main/java/com/itsix/osgi/paint/PaintFrame.java:142-151 | exactly one occurrence of the name goes, so the toolbar keeps the same multiset less one copy; it is unchanged when the name has no button; other names keep their presence |
| PaintFrame.RemoveFirstTakesFirstCopy | paint/src/main/java/com/itsix/osgi/paint/PaintFrame.java:142-151 | the copy removed is the first one (no earlier button has the name), and the buttons before and after it keep their order |
| PaintFrame.RemoveShape | paint/src/main/java/com/itsix/osgi/paint/PaintFrame.java:135-156 | the name leaves the registry and resolves to the placeholder; the toolbar loses exactly the first button for the name, the rest in order (`RemoveFirst`, `RemoveFirstTakesFirstCopy`); a selection of the removed name (or none) moves to the first remaining button or to none; another selection stays; components are untouched |
| PaintFrame.AddShapeKeepsInv | paint/src/main/java/com/itsix/osgi/paint/PaintFrame.java:112-126 | adding keeps the selection empty exactly when the toolbar is, a selection a toolbar name, every registered name on the toolbar, and component serials fresh |
| PaintFrame.RemoveShapeKeepsInv | paint/src/main/java/com/itsix/osgi/paint/PaintFrame.java:135-156 | removing keeps the same invariant |
| PaintFrame.MouseClicked | paint/src/main/java/com/itsix/osgi/paint/PaintFrame.java:165-177 | with no selection, or a click outside the canvas, nothing changes; otherwise one new component for the selected name is put in front of the others, centred on the click in a 54x54 box |
| PaintFrame.FirstHit | paint/src/main/java/com/itsix/osgi/paint/PaintFrame.java:205 | the front-most component containing the point, or none when no component contains it |
| PaintFrame.MousePressed | paint/src/main/java/com/itsix/osgi/paint/PaintFrame.java:204-212 | inside the canvas over a component, the front-most component under the pointer is grabbed, replacing any earlier grab; outside the canvas or over no component nothing changes; nothing but the grab ever changes |
| PaintFrame.Rebound | paint/src/main/java/com/itsix/osgi/paint/PaintFrame.java:239-241 | the grabbed component gets the new bounds, and all others are unchanged; identities and names are kept |
| PaintFrame.MouseDragged | paint/src/main/java/com/itsix/osgi/paint/PaintFrame.java:239-241 | the grabbed component is re-bounded around the pointer and nothing else changes |
| PaintFrame.MouseReleased | paint/src/main/java/com/itsix/osgi/paint/PaintFrame.java:221-230 | the grabbed component, if any, is re-bounded around the pointer; afterwards nothing is grabbed; without a grab nothing changes |
| FrameProperties.Apply | paint/src/main/java/com/itsix/osgi/paint/PaintFrame.java:165-261 | user input never changes the registry or the toolbar, and moves the selection only to a toolbar name |
| FrameProperties.ApplyKeepsInv | paint/src/main/java/com/itsix/osgi/paint/PaintFrame.java:165-261 | user input keeps the frame invariant |
| FrameProperties.StepKeepsInv | paint/src/main/java/com/itsix/osgi/paint/PaintFrame.java:112-261 | every registry call and every piece of user input keeps the frame invariant |
| FrameProperties.RunKeepsInv | paint/src/main/java/com/itsix/osgi/paint/PaintFrame.java:112-261 | the invariant holds after any run of events from a state satisfying it |
| FrameProperties.ToolStateConsistentAfterAnyRun | paint/src/main/java/com/itsix/osgi/paint/PaintFrame.java:112-155 | from a new frame, after any events: the selection is empty exactly when the toolbar is, a selection names a button, and every registered name has a button |
| FrameProperties.SelectShapeDoesNotValidate | paint/src/main/java/com/itsix/osgi/paint/PaintFrame.java:80-82 | `selectShape` can select a name with no button, which breaks that consistency |
| FrameProperties.RegistryTracksLiveNames | paint/src/main/java/com/itsix/osgi/paint/PaintFrame.java:112-136 | after any events, the registered names are exactly those added and not removed since |
| FrameProperties.ApplyKeepsPlacements | paint/src/main/java/com/itsix/osgi/paint/PaintFrame.java:165-241 | user input keeps every placed component, with its identity, name and order |
| FrameProperties.ClickKeepsPlacements | paint/src/main/java/com/itsix/osgi/paint/PaintFrame.java:165-177 | a click adds at most one component, in front of the existing ones |
| FrameProperties.StepKeepsPlacements | paint/src/main/java/com/itsix/osgi/paint/PaintFrame.java:112-241 | no event removes or renames a placed component |
| FrameProperties.RunKeepsPlacements | paint/src/main/java/com/itsix/osgi/paint/PaintFrame.java:135-156 | over any run, removals included, placed components survive in order behind newer ones |
| FrameProperties.DragMovesOnlyGrabbed | paint/src/main/java/com/itsix/osgi/paint/PaintFrame.java:221-241 | drag and release re-centre exactly the grabbed component on the pointer and leave every other component alone; release ends the grab |
| FrameProperties.PressThenReleaseMovesFrontMost | paint/src/main/java/com/itsix/osgi/paint/PaintFrame.java:204-230 | a press on a component followed by a release moves exactly the front-most component under the press, re-centred on the release point, keeps its name, and ends the grab |
| FrameProperties.DuplicateAddLeavesStaleSelection | paint/src/main/java/com/itsix/osgi/paint/PaintFrame.java:112-156 | adding a name twice and removing it once leaves a button and the selection on a name that is no longer registered |
| FrameProperties.RemovingUnknownNameIsNoOp | paint/src/main/java/com/itsix/osgi/paint/PaintFrame.java:135-156 | removing a name with neither entry nor button changes nothing |
| FrameProperties.ModifySelection | paint/src/main/java/com/itsix/osgi/paint/ShapeTracker.java:149-155 | re-registering the selected name moves its button to the end, and the selection moves to the first other button, if any |
| Painting.PaintComponent | paint/src/main/java/com/itsix/osgi/paint/ShapeComponent.java:62-69 | an unregistered name paints through the placeholder, never delegating; a name bound to a live proxy delegates at the component's anchor; a name bound to a disposed proxy never delegates; painting changes only icon caches |
| Painting.RemovedShapePaintsPlaceholder | paint/src/main/java/com/itsix/osgi/paint/ShapeComponent.java:67 | once its shape is removed, a component paints the placeholder icon or the red block |
| Painting.PaintUsesCurrentBinding | paint/src/main/java/com/itsix/osgi/paint/ShapeComponent.java:67 | the shape is looked up at paint time: a component paints with whatever its name is bound to now |
| Painting.PlacedComponentDrawsAtMiddle | paint/src/main/java/com/itsix/osgi/paint/ShapeComponent.java:68 | a freshly placed component asks its live shape to draw at (27, 27) |
| ShapeTracker.AsString | paint/src/main/java/com/itsix/osgi/paint/ShapeTracker.java:147 | the `(String)` cast succeeds exactly on a string, otherwise it throws `ClassCastException` |
| ShapeTracker.AsIcon | paint/src/main/java/com/itsix/osgi/paint/ShapeTracker.java:153 | the `(Icon)` cast succeeds exactly on an icon, otherwise it throws `ClassCastException` |
| ShapeTracker.AcceptingExactlyStartingOrActive | paint/src/main/java/com/itsix/osgi/paint/ShapeTracker.java:119-121 | of the six bundle states, the gate is open exactly for STARTING and ACTIVE |
| ShapeTracker.Process | paint/src/main/java/com/itsix/osgi/paint/ShapeTracker.java:146-161 | removal removes the name once; with the icon read from a property holding an icon, addition adds once and modification removes then adds with the same name and shape; with it read from the name property, the cast throws after any removal |
| ShapeTracker.ProcessShapeAsWritten | paint/src/main/java/com/itsix/osgi/paint/ShapeTracker.java:146-161 | as written, an addition leaves the frame unchanged and throws; a modification only removes and throws |
| ShapeTracker.ProcessShape | paint/src/main/java/com/itsix/osgi/paint/ShapeTracker.java:146-161 | corrected: ADDED adds once, REMOVED removes once, MODIFIED is removal followed by addition; nothing is thrown |
| ShapeTracker.ProcessShapeOnEventThread | paint/src/main/java/com/itsix/osgi/paint/ShapeTracker.java:118-132 | with the gate closed the frame is unchanged; otherwise the frame is whatever processing left, and no exception escapes |
| ShapeTracker.NewWorld | paint/src/main/java/com/itsix/osgi/paint/ShapeTracker.java:59-63 | the host starts from the constructed frame with no proxies created, and satisfies the host invariant |
| ShapeTracker.AddingService | paint/src/main/java/com/itsix/osgi/paint/ShapeTracker.java:73-77 | a fresh proxy wrapping the service is created, registered under the reference's name when the gate is open (icon read from the icon property, as corrected), and that same proxy is returned |
| ShapeTracker.ModifiedService | paint/src/main/java/com/itsix/osgi/paint/ShapeTracker.java:88-90 | with the gate open, whatever is registered under the reference's current name is removed and the tracked proxy is added under that name (icon read from the icon property, as corrected); a name the proxy was registered under before a rename is not touched; no proxy is created |
| ShapeTracker.RenameKeepsOldBinding | paint/src/main/java/com/itsix/osgi/paint/ShapeTracker.java:88-90 | after a modification that renames the service, the new name resolves to the proxy while the former name keeps its binding and its buttons |
| ShapeTracker.RemovedService | paint/src/main/java/com/itsix/osgi/paint/ShapeTracker.java:101-104 | with the gate open the name is removed; the proxy is disposed, gate or not, and no longer delegates |
| ShapeTracker.RegisterKeepsWorldInv | paint/src/main/java/com/itsix/osgi/paint/ShapeTracker.java:73-90 | registering a tracked proxy keeps every registered name bound to a proxy the tracker created (possibly disposed) |
| ShapeTracker.UnregisterKeepsWorldInv | paint/src/main/java/com/itsix/osgi/paint/ShapeTracker.java:101-104 | unregistering keeps the host invariant |
| ShapeTracker.AddingServiceKeepsWorldInv | paint/src/main/java/com/itsix/osgi/paint/ShapeTracker.java:73-77 | an arrival keeps the host invariant |
| ShapeTracker.ModifiedServiceKeepsWorldInv | paint/src/main/java/com/itsix/osgi/paint/ShapeTracker.java:88-90 | a modification keeps the host invariant |
| ShapeTracker.RemovedServiceKeepsWorldInv | paint/src/main/java/com/itsix/osgi/paint/ShapeTracker.java:101-104 | a removal keeps the host invariant |
| ShapeTracker.AddedIsDroppedAsWritten | paint/src/main/java/com/itsix/osgi/paint/ShapeTracker.java:153 | as written, the Circle provider's arrival leaves the frame empty; with the icon read from the icon property, it registers the proxy and selects it |
| HostProperties.HostStepKeepsWorldInv | paint/src/main/java/com/itsix/osgi/paint/ShapeTracker.java:73-132 | every notification and every piece of user input keeps the host invariant |
| HostProperties.HostRunKeepsWorldInv | paint/src/main/java/com/itsix/osgi/paint/ShapeTracker.java:73-132 | the host invariant holds whatever the interleaving of notifications and input |
| HostProperties.EveryPlacedComponentPaints | paint/src/main/java/com/itsix/osgi/paint/ShapeComponent.java:67 | in every reachable host state every placed component resolves, a component whose name is unregistered never delegates, and neither does one whose name is still bound to a disposed proxy |
| HostProperties.DepartedProxyNeverPaints | paint/src/main/java/com/itsix/osgi/paint/ShapeTracker.java:101-104 | after a departure, whatever the gate, every name still resolves and a component resolving to the departed proxy never delegates |
| HostProperties.ClosedGateLeavesFrame | paint/src/main/java/com/itsix/osgi/paint/ShapeTracker.java:119-121 | with the framework neither starting nor active, no notification changes the frame |
| HostProperties.ClosedGateDepartureKeepsBinding | paint/src/main/java/com/itsix/osgi/paint/ShapeTracker.java:101-121 | a departure with the framework only resolved leaves "Circle" registered to its proxy, disposes the proxy, and the placed Circle component paints the placeholder |
| HostProperties.FirstArrival | paint/src/main/java/com/itsix/osgi/paint/ShapeTracker.java:73-77 | the first arrival becomes proxy 0, gets the first button and is selected |
| HostProperties.SecondArrival | paint/src/main/java/com/itsix/osgi/paint/PaintFrame.java:119-123 | a second arrival gets the second button and leaves the first one selected |
| HostProperties.ClickPlacesCircle | paint/src/main/java/com/itsix/osgi/paint/PaintFrame.java:165-177 | a click at (50, 50) with Circle selected places one Circle component at (23, 23, 54, 54) |
| HostProperties.RemoveCircleSelectsSquare | paint/src/main/java/com/itsix/osgi/paint/PaintFrame.java:138-155 | removing the selected first button hands the selection to the second |
| HostProperties.RemovedServiceKeepsResolvable | paint/src/main/java/com/itsix/osgi/paint/ShapeTracker.java:101-104 | a departure leaves every remaining name resolvable to a proxy state |
| HostProperties.CircleDeparts | paint/src/main/java/com/itsix/osgi/paint/ShapeTracker.java:101-104 | after Circle departs, its component stays, Square is selected, Circle resolves to the placeholder and Square to its proxy |
| HostProperties.CircleSquareScenario | paint/src/main/java/com/itsix/osgi/paint/ShapeTracker.java:73-104 | with the corrected icon read, arrival of Circle then Square, a click and Circle's departure: Circle is selected first, its component survives the departure, and the selection moves to Square |
| ShapeImpls.FromBounds | paint/src/main/java/com/itsix/osgi/paint/api/internal/ShapeImpl.java:15-21 | name, width and height are copied unchanged, and (x, y) is the centre of the bounds |
| ShapeImpls.View | paint/src/main/java/com/itsix/osgi/paint/api/internal/ShapeImpl.java:23-46 | the five getters report the stored fields (stated through `ViewOfBounds`) |
| ShapeImpls.ViewOfBounds | paint/src/main/java/com/itsix/osgi/paint/api/internal/ShapeImpl.java:15-46 | the getters of a value built from a component's bounds report the name, the centre of the bounds and the unchanged extent |
| ShapeImpls.Equals | paint/src/main/java/com/itsix/osgi/paint/api/internal/ShapeImpl.java:48-56 | false for a non-`Shape`; a nameless value throws `NullPointerException`; otherwise true exactly when name, x and y agree |
| ShapeImpls.ClickRoundTrip | paint/src/main/java/com/itsix/osgi/paint/api/internal/ShapeImpl.java:17-18 | bounds from a click at a point report that point as their centre, for every point |
| ShapeImpls.EqualsIgnoresExtent | paint/src/main/java/com/itsix/osgi/paint/api/internal/ShapeImpl.java:49-54 | values differing only in width or height are equal |
| ShapeImpls.EqualsReflexive | paint/src/main/java/com/itsix/osgi/paint/api/internal/ShapeImpl.java:49-54 | among named values, `equals` is reflexive |
| ShapeImpls.EqualsSymmetric | paint/src/main/java/com/itsix/osgi/paint/api/internal/ShapeImpl.java:49-54 | among named values, `equals` is symmetric |
| ShapeDTOs.NewDTO | rest/src/main/java/com/itsix/osgi/paint/rest/ShapeDTO.java:9-11 | a new DTO reports x = 0, y = 0 and a null name |
| ShapeDTOs.GetX | rest/src/main/java/com/itsix/osgi/paint/rest/ShapeDTO.java:13-15 | `getX` reports the last value given to `setX` (stated through `GettersReadSetters`) |
| ShapeDTOs.GetY | rest/src/main/java/com/itsix/osgi/paint/rest/ShapeDTO.java:21-23 | `getY` reports the last value given to `setY` (stated through `GettersReadSetters`) |
| ShapeDTOs.GetName | rest/src/main/java/com/itsix/osgi/paint/rest/ShapeDTO.java:29-31 | `getName` reports the last value given to `setName` (stated through `GettersReadSetters`) |
| ShapeDTOs.GetWidth | rest/src/main/java/com/itsix/osgi/paint/rest/ShapeDTO.java:43-47 | `getWidth` is always 0 (stated through `NoExtent` and `GettersReadSetters`) |
| ShapeDTOs.GetHeight | rest/src/main/java/com/itsix/osgi/paint/rest/ShapeDTO.java:37-41 | `getHeight` is always 0 (stated through `NoExtent` and `GettersReadSetters`) |
| ShapeDTOs.GettersReadSetters | rest/src/main/java/com/itsix/osgi/paint/rest/ShapeDTO.java:13-47 | after the three setters, the getters report the values set, and width and height 0 |
| ShapeDTOs.SetX | rest/src/main/java/com/itsix/osgi/paint/rest/ShapeDTO.java:13-19 | after `setX(v)`, `getX()` is v and y and the name are unchanged |
| ShapeDTOs.SetY | rest/src/main/java/com/itsix/osgi/paint/rest/ShapeDTO.java:21-27 | after `setY(v)`, `getY()` is v and x and the name are unchanged |
| ShapeDTOs.SetName | rest/src/main/java/com/itsix/osgi/paint/rest/ShapeDTO.java:29-35 | after `setName(s)`, `getName()` is s and x and y are unchanged |
| ShapeDTOs.NoExtent | rest/src/main/java/com/itsix/osgi/paint/rest/ShapeDTO.java:37-47 | whatever setters are applied, width and height are 0 |
| ShapeDTOs.DTOMatchesPlacedComponent | paint/src/main/java/com/itsix/osgi/paint/api/internal/ShapeImpl.java:49-54 | a placed component's reported value equals a DTO exactly when the DTO has the component's name and the click point; the DTO built from them is equal to it |

## Left out

- Swing widgets and rendering: the JFrame and JToolBar construction, validate and repaint, cursors, and listener registration are not modelled. The toolbar is the sequence of its buttons' action commands. Drawing is an outcome value, not pixels on a `Graphics2D`.
- Thread marshalling: the event-thread check and `invokeAndWait` in `processShapeOnEventThread` are not modelled. `processShape` runs on the event thread, but `dispose` at `ShapeTracker.java:103` and the gate at line 119 run on the notifying thread, so a `dispose` can race with a paint between the null test and the `draw` call at `DefaultShape.java:85-87`. The model treats each notification, its `dispose` included, as atomic, and processes notifications and user input one at a time, in order.
- OSGi and iPOJO lifecycle: the activators, opening and closing the service tracker, and `RestOsgiManager` are not modelled. The system bundle's state is a parameter of each notification.
- REST layer: `Service.java`, the JSON annotations and the `PaintApi` implementation are not part of this model. `Shape` and `PaintApi` are used only as field layouts (`ShapeApi.ShapeView`).
- `Service.java:50` calls a three-argument `ShapeDTO` constructor that does not exist. The DTO is modelled from its fields and setters only.
- `ShapeTracker.java:74` calls a two-argument `DefaultShape` constructor that does not exist. The proxy is modelled as the one-argument constructor applied to the service's shape (`DefaultShapes.Wrapping`).
- `ShapeImpl` defines no `hashCode`. Hashing is not modelled.
- DefaultShapes.Draw: exceptions thrown by a provider's own `draw` are not modelled. They are not caught at `DefaultShape.java:87`, so no claim is made that drawing never fails.
- The canvas hit test of `mouseClicked` and `mousePressed` (`contentPanel.contains`) is an input boolean. The hit test against placed components is modelled (`Geometry.Contains`).
- PaintFrame.MouseDragged: requires a grabbed component. A drag with nothing grabbed can reach `PaintFrame.java:240`: a second press re-registers the motion listener, and one release removes only one copy of it. The dereference there then throws `NullPointerException` before anything changes, so `FrameProperties.Apply` treats such a drag as a no-op.
- ShapeTracker.RemovedService: requires the proxy to be one the tracker created. The tracker only reports services whose proxy `addingService` returned. `HostProperties.HostStep` skips modification and removal notifications for unknown proxies.
- HostProperties.HostStep: a disposed proxy keeps its identity in the proxy table, so a run may deliver a modification or removal for a service that has already departed, which a service tracker never does after `removedService`. The runs over-approximate the tracker's notifications, so the lemmas about all runs still hold for the real ones.
- Painting.PaintComponent: requires every registered proxy to have a state in the tracker's proxy table. In the program each proxy is an object, and the host invariant provides this.
- Null names: a reference without a name property would register the name `null`. Names are non-null strings here.
- Icon images: images, the `underc.png` resource and `getResource` are not modelled. They are opaque identities, and the lookup result is a parameter of `draw`.
- The selection is not always a registered name, as one might expect. The code only keeps it a toolbar name: adding a name twice and removing it once leaves a stale button selected (`FrameProperties.DuplicateAddLeavesStaleSelection`).
- Malformed service references are not modelled: a reference without an icon, or whose name property is not a `String`. `processShape` has no check that drops them. A non-`String` name would throw at the cast and be swallowed; with the corrected icon read, a missing icon would register the name with a null icon. `ShapeTracker.ServiceRef` always carries a string name and an icon, so `ShapeTracker.Process` never reaches its name-cast failure.
- ShapeTracker.AddingService: models the corrected `processShape`, which reads the icon from the icon property. As written, the arrival registers nothing (`ShapeTracker.AddedIsDroppedAsWritten`, `ShapeTracker.ProcessShapeOnEventThread` with the name property).
- ShapeTracker.ModifiedService: models the corrected `processShape`. As written, a modification only removes the name (`ShapeTracker.ProcessShapeAsWritten`).
- HostProperties: every lemma there is about the host with the corrected tracker. As written, no shape would ever be registered, so the frame would stay empty apart from placeholders.

## Findings

| source | as written | input that shows it | evidently intended | confidence | as-written member | corrected member |
|---|---|---|---|---|---|---|
| paint/src/main/java/com/itsix/osgi/paint/ShapeTracker.java:153 | the icon is read with `ref.getProperty(SimpleShape.NAME_PROPERTY)` and cast to `Icon`; providers put a `String` there (`circle/src/main/java/com/itsix/osgi/shape/circle/Activator.java:16`), so the cast throws `ClassCastException`, which `processShapeOnEventThread` swallows: no shape is ever added, and a modification only removes | the Circle service arriving while the framework is active: the frame stays empty | read the icon from `SimpleShape.ICON_PROPERTY`, where providers put it | not executed | ShapeTracker.AddedIsDroppedAsWritten | ShapeTracker.ProcessShape |
