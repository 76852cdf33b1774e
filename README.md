# QuickUIPack presentation core, in Dafny

This project models the two pieces of logic in the QuickUIDemo presentation
components that can be stated exactly, and proves properties of them.

- **Arrow guide tag** (`arrow_guide_tag.dfy`, module `ArrowGuideTag`). A
  tooltip bubble is a rounded rectangle (the *body*). One side of the body is
  interrupted by a triangular arrow pointing top, bottom, left or right. The
  view's `drawPath` becomes pure functions plus one method. `ArrowLayout` is
  the per-direction switch: the body's shift and size, the loop index where
  the arrow is drawn, and the arrow's three vertices. `BodyPoints` gives the
  eight body points, with the first one repeated at the end. `Step` and
  `Emitted` describe what the drawing loop appends. `EmitOutline` is the
  loop itself, appending to a sequence of path commands. The drawing calls
  become a `PathCmd` value: `Move`, `Line`, `Arc` or `Close`. An arc keeps its
  angles as multiples of pi, so the start angle at loop index `i` is
  `(i - 4) / 4`. `CGFloat` is `real`: the model computes with exact reals,
  and rounding is left out (see below). The source reads the rectangle's
  size in two ways. The body uses `rect.width` and `rect.height`, which are
  never negative; the model takes their absolute values. The arrow's tips
  and the base points of the top and left arrows use the signed
  `rect.size`, and so does the model. The base points of the bottom arrow
  take their y, and those of the right arrow their x, from the body's
  non-negative height or width less `arrowHeight`, as in the model.
- **Picker module view** (`picker_module_view.dfy`, module `PickerModule`). This
  is an overlay with a dimming backdrop and a content panel. The panel is an
  optional header above an item view. The overlay has a four-state status:
  none, hiding, showing, animating. The view is a class. `BindContentView`,
  `ConfigStaticSize`, `Show`, `Hide` and `DefaultHide` change its fields in
  place. The animation framework runs the animations closure at once, so
  `Show` and `Hide` set the target origin and backdrop alpha immediately.
  Each call also queues its completion handler in `pending`, together with the
  begin origin, target origin, target alpha and duration. `Complete` runs the
  oldest queued handler. A queue is used because `show(force: true)` during an
  animation starts a second animation whose handler also runs. The invariant
  `Valid` says:
  - an animating view has a handler pending;
  - a view waiting to be shown has its item bound;
  - the backdrop alpha is 0 or 0.7;
  - every handler fires the show callback exactly once, if there is one;
  - the hide callback never fires.

Shared value types: `Geometry` (point, size, rectangle) and `Optional`
(Swift optionals).

The model follows the code where its documentation reads differently:

- A hide animation's completion sets the status to *showing* and fires the
  *show* callback. The hide callback is stored but never called.
  `ShowHideRoundTrip` proves what follows from this: after a show/hide round
  trip, an unforced `Show` is refused and another `Hide` is accepted.
- No corner-radius clamping exists, so none is modelled.
- The slide types `topBottom`, `leftRight` and `rightLeft` have no geometry of
  their own. They use the bottom-to-top positions.

## Model

| member | source | states |
|---|---|---|
| `ArrowGuideTag.RawValue` | QuickUIDemo/QuickUIDemo/Resource/ArrowGuideTagView.swift:11-16 | each direction's raw value lies in 0..3 |
| `ArrowGuideTag.FromRawValue` | QuickUIDemo/QuickUIDemo/Resource/ArrowGuideTagView.swift:11-16 | the raw-value initializer succeeds exactly for 0..3 |
| `ArrowGuideTag.RawValueRoundTrip` | QuickUIDemo/QuickUIDemo/Resource/ArrowGuideTagView.swift:11-16 | raw value and initializer are inverse: `FromRawValue(n) == Some(d)` iff `RawValue(d) == n` |
| `ArrowGuideTag.DefaultConfig` | QuickUIDemo/QuickUIDemo/Resource/ArrowGuideTagView.swift:18-35 | defaults: bottom, arrow height 6, arrow width 4, corner radius 6, gray fill, offset 0, border width 0, no border colour |
| `ArrowGuideTag.ArrowGuideTagView.constructor` | QuickUIDemo/QuickUIDemo/Resource/ArrowGuideTagView.swift:38-55 | a given config replaces the defaults, a nil one keeps them; the view then holds one layer whose path is the outline of its bounds |
| `ArrowGuideTag.ArrowGuideTagView.DrawPath` | QuickUIDemo/QuickUIDemo/Resource/ArrowGuideTagView.swift:57-175 | for any rectangle, adds one layer whose path is the outline of that rectangle's size; the origin is not read and the config is unchanged |
| `ArrowGuideTag.ArrowLayout` | QuickUIDemo/QuickUIDemo/Resource/ArrowGuideTagView.swift:62-105 | the arrow index is odd, between 1 and 7; body width plus height is the rectangle's absolute width plus height less `arrowHeight`; the base points share one coordinate, are `arrowWidth` apart in the other and are symmetric about the tip |
| `ArrowGuideTag.RadiusIndices` | QuickUIDemo/QuickUIDemo/Resource/ArrowGuideTagView.swift:126-129 | an index is listed for an arc iff the corner radius is positive and the index is 2, 4, 6 or 8 |
| `ArrowGuideTag.CornerArc` | QuickUIDemo/QuickUIDemo/Resource/ArrowGuideTagView.swift:146-159 | a clockwise arc of the given radius from `(i-4)/4` pi to a quarter turn later; each centre coordinate is taken from the previous or the current point |
| `ArrowGuideTag.Step` | QuickUIDemo/QuickUIDemo/Resource/ArrowGuideTagView.swift:134-163 | one iteration appends a move only at index 0, four lines at the arrow index and one command elsewhere; it ends with a line to its point, or with an arc at a corner index when the radius is positive |
| `ArrowGuideTag.Emitted` | QuickUIDemo/QuickUIDemo/Resource/ArrowGuideTagView.swift:134-163 | after `n` iterations the path holds `n` commands, plus the opening move, plus three once the arrow index is passed |
| `ArrowGuideTag.Outline` | QuickUIDemo/QuickUIDemo/Resource/ArrowGuideTagView.swift:132-164 | every outline has 14 commands, whatever the direction and radius, and ends with a close |
| `ArrowGuideTag.BodyPoints` | QuickUIDemo/QuickUIDemo/Resource/ArrowGuideTagView.swift:107-124 | the point list has nine entries and starts and ends with the first point |
| `ArrowGuideTag.EmitOutline` | QuickUIDemo/QuickUIDemo/Resource/ArrowGuideTagView.swift:132-164 | the loop over the point list produces exactly the outline `Outline(w, h, c)` |
| `ArrowGuideTag.ArrowSideIndex` | QuickUIDemo/QuickUIDemo/Resource/ArrowGuideTagView.swift:66-105 | the arrow is drawn at loop index top 1, right 3, bottom 5, left 7; the index is odd and never a corner-arc index |
| `ArrowGuideTag.BodyShrinksAlongArrowAxis` | QuickUIDemo/QuickUIDemo/Resource/ArrowGuideTagView.swift:62-105 | the body is the rectangle's absolute size less `arrowHeight`, in height (top, bottom) or width (left, right) only; only top shifts it down and only left shifts it right, by `arrowHeight` |
| `ArrowGuideTag.ArrowTipOnOuterEdge` | QuickUIDemo/QuickUIDemo/Resource/ArrowGuideTagView.swift:68-105 | the tip lies on the side of the outer rectangle at that side's midpoint plus `arrowOffset` |
| `ArrowGuideTag.CenteredArrowTipIsMidpoint` | QuickUIDemo/QuickUIDemo/Resource/ArrowGuideTagView.swift:68-105 | with offset 0 the tip is exactly the midpoint of its side |
| `ArrowGuideTag.ArrowBaseOnBodySide` | QuickUIDemo/QuickUIDemo/Resource/ArrowGuideTagView.swift:68-122 | the base points are `arrowWidth` apart and symmetric about the tip, on the interrupted body side (points 1-2 top, 3-4 right, 5-6 bottom, 7-8 left) |
| `ArrowGuideTag.StepArcCount` | QuickUIDemo/QuickUIDemo/Resource/ArrowGuideTagView.swift:126-162 | one loop iteration draws an arc iff the corner radius is positive and the index is 2, 4, 6 or 8 |
| `ArrowGuideTag.EmittedArcCount` | QuickUIDemo/QuickUIDemo/Resource/ArrowGuideTagView.swift:134-163 | after `n` iterations the path holds one arc per corner index below `n`, or none when the radius is not positive |
| `ArrowGuideTag.OutlineArcCount` | QuickUIDemo/QuickUIDemo/Resource/ArrowGuideTagView.swift:126-164 | the outline has exactly four arcs if the corner radius is positive, otherwise none |
| `ArrowGuideTag.CornerArcs` | QuickUIDemo/QuickUIDemo/Resource/ArrowGuideTagView.swift:144-159 | at corner index `i`: one clockwise arc of radius `cornerRadius` from `(i-4)/4` pi to a quarter turn later; its centre is `cornerRadius` inside both adjacent body sides; it runs from point `i-1` to point `i` |
| `ArrowGuideTag.PlainSides` | QuickUIDemo/QuickUIDemo/Resource/ArrowGuideTagView.swift:138-162 | every odd index other than the arrow's draws a single line to its point, so the arrow interrupts exactly one side |
| `ArrowGuideTag.ArcStartsAtPen` | QuickUIDemo/QuickUIDemo/Resource/ArrowGuideTagView.swift:134-162 | before each corner arc the previous iteration ends with a line to the arc's start point, so the connecting line before the arc has length zero |
| `ArrowGuideTag.SquareCorners` | QuickUIDemo/QuickUIDemo/Resource/ArrowGuideTagView.swift:126-162 | without a positive radius each corner index draws a plain line to its point |
| `ArrowGuideTag.StepInOutline` | QuickUIDemo/QuickUIDemo/Resource/ArrowGuideTagView.swift:134-164 | each iteration's commands appear in the outline as one contiguous run, in loop order |
| `ArrowGuideTag.ArrowInOutline` | QuickUIDemo/QuickUIDemo/Resource/ArrowGuideTagView.swift:138-143 | the outline contains lines to base start, tip, base end and the body point, in that order |
| `ArrowGuideTag.OutlineOpensAndCloses` | QuickUIDemo/QuickUIDemo/Resource/ArrowGuideTagView.swift:124-164 | the outline starts with a move to the first point and a zero-length line to it, and ends with a close |
| `PickerModule.EffectiveDuration` | QuickUIDemo/QuickUIDemo/Resource/PickerModuleView.swift:110-113 | the duration is the one passed, or 0.6 when none is |
| `PickerModule.OffscreenOrigin` | QuickUIDemo/QuickUIDemo/Resource/PickerModuleView.swift:134-140 | the off-screen origin centres the panel horizontally with its top edge at the frame's bottom |
| `PickerModule.RestingOrigin` | QuickUIDemo/QuickUIDemo/Resource/PickerModuleView.swift:97-108 | the resting origin centres the panel horizontally; vertically the panel is flush with the bottom, or centred for `center` |
| `PickerModule.HeaderHeight` | QuickUIDemo/QuickUIDemo/Resource/PickerModuleView.swift:68-72 | the header contributes its frame height, or 0 when there is no header |
| `PickerModule.PickerModuleView.Valid` | QuickUIDemo/QuickUIDemo/Resource/PickerModuleView.swift:92-156 | the invariant every method keeps: an animating view has a completion pending; a hiding view has its item bound; alpha is 0 or 0.7; each completion fires the show callback once if there is one; the hide callback never fires, so show calls plus pending completions never exceed the animations started |
| `PickerModule.PickerModuleView.constructor` | QuickUIDemo/QuickUIDemo/Resource/PickerModuleView.swift:26-47 | a new view has status none, backdrop alpha 0, no header or item, nothing pending and no callbacks fired |
| `PickerModule.PickerModuleView.ConfigStaticSize` | QuickUIDemo/QuickUIDemo/Resource/PickerModuleView.swift:82-90 | the panel takes the size; a bound item gets frame (0, header height, size); with no item nothing else changes |
| `PickerModule.PickerModuleView.BindContentView` | QuickUIDemo/QuickUIDemo/Resource/PickerModuleView.swift:57-80 | status becomes hiding; the origin is (W - old panel width) / 2, H; the size is the static size, or item width by item height plus header height |
| `PickerModule.PickerModuleView.Show` | QuickUIDemo/QuickUIDemo/Resource/PickerModuleView.swift:92-127 | no-op unless forced or hiding; otherwise status animating, the panel goes from the off-screen origin to its resting origin, alpha 0.7, one completion queued |
| `PickerModule.PickerModuleView.Hide` | QuickUIDemo/QuickUIDemo/Resource/PickerModuleView.swift:129-156 | no-op unless showing; otherwise status animating, the panel goes to the off-screen origin, alpha 0, one completion queued |
| `PickerModule.PickerModuleView.DefaultHide` | QuickUIDemo/QuickUIDemo/Resource/PickerModuleView.swift:53-55 | exactly a hide with the default duration 0.6 |
| `PickerModule.PickerModuleView.Complete` | QuickUIDemo/QuickUIDemo/Resource/PickerModuleView.swift:115-150 | the oldest completion, show (lines 115-121) or hide (lines 145-150), sets status showing and fires the show callback once if there is one; it is a no-op when none is pending |
| `PickerModule.ShowTwiceBeforeCompletion` | QuickUIDemo/QuickUIDemo/Resource/PickerModuleView.swift:92-127 | bind, then two shows before completion: one animation, one show callback, status showing |
| `PickerModule.HideBeforeShowIsNoOp` | QuickUIDemo/QuickUIDemo/Resource/PickerModuleView.swift:129-133 | hide on a bound, never-shown view starts nothing: still hiding, alpha 0 |
| `PickerModule.ShowHideRoundTrip` | QuickUIDemo/QuickUIDemo/Resource/PickerModuleView.swift:129-156 | after show and hide both complete: status showing, show callback fired twice, hide callback never; an unforced show is then refused and a second hide accepted |
| `PickerModule.BindThenShow` | QuickUIDemo/QuickUIDemo/Resource/PickerModuleView.swift:57-127 | a bound panel is item width by item plus header height; once shown it rests at the bottom or centred for `center`, under alpha 0.7 |

## Left out

- Rendering: the Bezier path object, the shape layer, fill and stroke colours, and line width. Only the abstract command sequence is modelled. The border width and colours are carried in the config and never read.
- What an arc command draws: `OnCircle` uses the standard screen convention for angles to show that each arc joins its two body points. The line a path inserts from the current point to an arc's start is not drawn as a separate command; `ArcStartsAtPen` proves it always has length zero.
- Animation timing and interpolation, and the `finished` flag. The view's lifetime is also left out: the show completion captures the view weakly, so a released view would skip that handler, while the hide completion captures it strongly and always runs. The model has no release, so every queued handler runs.
- View-hierarchy plumbing: adding subviews, first-responder handling, the lazy content view, and the screen bounds. The screen bounds become the constructor's `width` and `height`. Header and item views are represented by their frames.
- The callbacks themselves: the model records whether each block was given and counts its calls. What the host's closures do is not part of the model.
- The `init(coder:)` initializers, which are unsupported, and the commented-out tap gesture.
- The view's bounds: the constructor draws the rectangle at origin (0, 0) with the view's `width` and `height`. How UIKit derives bounds from a frame is not modelled.
- Floating-point rounding: `CGFloat` and `TimeInterval` are treated as exact reals. Sums such as the arrow's base coordinates round in the app, so the exact equalities proved here (for example the `arrowWidth` spacing in `ArrowBaseOnBodySide`) hold there only up to rounding.
