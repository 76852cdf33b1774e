/**
  The overlay picker: a full-screen backdrop holding a content panel (an
  optional header above an item view) that slides up from below the screen
  or, for the `Center` type, ends centred. The animation framework applies
  the animated values when `Show` or `Hide` is called; its completion
  handlers are queued and run later, one per call of `Complete`.
 */
module PickerModule {
  import opened Optional
  import opened Geometry

  datatype ModuleType = BottomTop | TopBottom | LeftRight | RightLeft | Center

  /** The view's status; `NoStatus` is the source's `none`. */
  datatype Status = NoStatus | Hiding | Showing | Animating

  datatype Transition = ShowTransition | HideTransition

  /** An animation that has started and whose completion handler has not run yet. */
  datatype Animation = Animation(
    transition: Transition,
    from: Point,          // panel origin when the animation starts
    to: Point,            // panel origin it animates to
    targetAlpha: real,    // backdrop alpha it animates to
    duration: real)

  const DefaultDuration: real := 0.6
  const ShownAlpha: real := 0.7

  /** The duration an animation runs for: the one passed, else the default. */
  function EffectiveDuration(animationTime: Option<real>): (d: real)
    ensures animationTime.Some? ==> d == animationTime.value
    ensures animationTime.None? ==> d == DefaultDuration
  {
    if animationTime.Some? then animationTime.value else DefaultDuration
  }

  /**
    Where the panel waits off screen: centred horizontally, its top edge on
    the bottom edge of the frame. Every module type uses this position.
   */
  function OffscreenOrigin(frameWidth: real, frameHeight: real, panel: Size): (p: Point)
    ensures 2.0 * p.x + panel.width == frameWidth
    ensures p.y == frameHeight
  {
    Point((frameWidth - panel.width) / 2.0, frameHeight)
  }

  /**
    Where a shown panel rests: centred horizontally, and flush with the
    bottom edge of the frame, or centred vertically for `Center`.
   */
  function RestingOrigin(kind: ModuleType, frameWidth: real, frameHeight: real, panel: Size): (p: Point)
    ensures 2.0 * p.x + panel.width == frameWidth
    ensures kind != Center ==> p.y + panel.height == frameHeight
    ensures kind == Center ==> 2.0 * p.y + panel.height == frameHeight
  {
    var x := (frameWidth - panel.width) / 2.0;
    match kind
    case Center => Point(x, (frameHeight - panel.height) / 2.0)
    case _ => Point(x, frameHeight - panel.height)
  }

  /** The height taken by the header: its frame's height, or 0 without one. */
  function HeaderHeight(header: Option<Rect>): (h: real)
    ensures header.None? ==> h == 0.0
    ensures header.Some? ==> h == header.value.size.height
  {
    if header.Some? then header.value.size.height else 0.0
  }

  class PickerModuleView {
    const kind: ModuleType
    const frameWidth: real
    const frameHeight: real
    const hasShowedBlock: bool
    const hasHidedBlock: bool

    var status: Status
    var contentOrigin: Point
    var contentSize: Size
    var headerView: Option<Rect>        // the header's frame, when there is a header
    var contentItemView: Option<Rect>   // the item view's frame, once one is bound
    var backdropAlpha: real
    var pending: seq<Animation>         // completion handlers still to run, oldest first
    var showedCalls: nat
    var hidedCalls: nat

    ghost var started: nat              // animations started so far
    ghost var completed: nat            // completion handlers run so far

    /**
      The view's invariant: an animating view has a completion pending; a
      view waiting to be shown has its item bound; the backdrop is either
      clear or dimmed; every completion handler fires the show callback
      (when there is one) exactly once, and the hide callback never fires.
     */
    ghost predicate Valid()
      reads this
      ensures Valid() ==> hidedCalls == 0 && showedCalls + |pending| <= started
    {
      && (status == Animating ==> |pending| > 0)
      && (status == Hiding ==> contentItemView.Some?)
      && (backdropAlpha == 0.0 || backdropAlpha == ShownAlpha)
      && completed + |pending| == started
      && showedCalls == (if hasShowedBlock then completed else 0)
      && hidedCalls == 0
    }

    constructor (moduleType: ModuleType, width: real, height: real,
                 showSuccessBlock: bool, hideSuccessBlock: bool)
      ensures Valid()
      ensures kind == moduleType && frameWidth == width && frameHeight == height
      ensures hasShowedBlock == showSuccessBlock && hasHidedBlock == hideSuccessBlock
      ensures status == NoStatus && backdropAlpha == 0.0
      ensures contentOrigin == Point(0.0, 0.0) && contentSize == Size(0.0, 0.0)
      ensures headerView == None && contentItemView == None
      ensures pending == [] && showedCalls == 0 && hidedCalls == 0
    {
      kind := moduleType;
      frameWidth, frameHeight := width, height;
      hasShowedBlock, hasHidedBlock := showSuccessBlock, hideSuccessBlock;
      status := NoStatus;
      contentOrigin, contentSize := Point(0.0, 0.0), Size(0.0, 0.0);
      headerView, contentItemView := None, None;
      backdropAlpha := 0.0;
      pending := [];
      showedCalls, hidedCalls := 0, 0;
      started, completed := 0, 0;
    }

    /**
      Sets the panel's size; once an item is bound, the item fills the panel
      below the header.
     */
    method ConfigStaticSize(size: Size)
      requires Valid()
      modifies this
      ensures Valid()
      ensures contentSize == size
      ensures contentItemView ==
        if old(contentItemView).Some? then Some(Rect(Point(0.0, HeaderHeight(headerView)), size)) else None
      ensures status == old(status) && contentOrigin == old(contentOrigin)
      ensures headerView == old(headerView) && backdropAlpha == old(backdropAlpha)
      ensures pending == old(pending) && showedCalls == old(showedCalls) && hidedCalls == old(hidedCalls)
      ensures started == old(started) && completed == old(completed)
    {
      contentSize := size;
      var headHeight := 0.0;
      if headerView.Some? {
        headHeight := headerView.value.size.height;
      }
      if contentItemView.None? {
        return;
      }
      contentItemView := Some(Rect(Point(0.0, headHeight), size));
    }

    /**
      Installs the header and the item, parks the panel below the screen
      (centred for the panel's size before this call) and waits to be shown.
     */
    method BindContentView(header: Option<Rect>, itemView: Rect, staticSize: Option<Size>)
      requires Valid()
      modifies this
      ensures Valid()
      ensures status == Hiding && headerView == header
      ensures contentOrigin == OffscreenOrigin(frameWidth, frameHeight, old(contentSize))
      ensures staticSize.Some? ==>
        contentSize == staticSize.value &&
        contentItemView == Some(Rect(Point(0.0, HeaderHeight(header)), staticSize.value))
      ensures staticSize.None? ==>
        contentSize == Size(itemView.size.width, itemView.size.height + HeaderHeight(header)) &&
        contentItemView == Some(itemView)
      ensures backdropAlpha == old(backdropAlpha) && pending == old(pending)
      ensures showedCalls == old(showedCalls) && hidedCalls == old(hidedCalls)
      ensures started == old(started) && completed == old(completed)
    {
      headerView := header;
      contentItemView := Some(itemView);
      var targetPoint := Point((frameWidth - contentSize.width) / 2.0, frameHeight);
      status := Hiding;
      var headHeight := 0.0;
      if header.Some? {
        headHeight := header.value.size.height;
      }
      contentOrigin := targetPoint;
      if staticSize.Some? {
        ConfigStaticSize(staticSize.value);
      } else {
        contentSize := Size(itemView.size.width, itemView.size.height + headHeight);
      }
    }

    /**
      Unless forced, shows only a view waiting to be shown. The panel jumps
      to its off-screen origin and animates to its resting origin while the
      backdrop dims; the completion is queued.
     */
    method Show(animationTime: Option<real>, force: bool)
      requires Valid()
      modifies this
      ensures Valid()
      ensures !force && old(status) != Hiding ==> unchanged(this)
      ensures force || old(status) == Hiding ==>
        && status == Animating
        && contentOrigin == RestingOrigin(kind, frameWidth, frameHeight, contentSize)
        && backdropAlpha == ShownAlpha
        && pending == old(pending) + [Animation(ShowTransition,
             OffscreenOrigin(frameWidth, frameHeight, contentSize),
             RestingOrigin(kind, frameWidth, frameHeight, contentSize),
             ShownAlpha, EffectiveDuration(animationTime))]
        && started == old(started) + 1
      ensures contentSize == old(contentSize) && headerView == old(headerView)
      ensures contentItemView == old(contentItemView) && completed == old(completed)
      ensures showedCalls == old(showedCalls) && hidedCalls == old(hidedCalls)
    {
      if !(force || status == Hiding) {
        return;
      }
      status := Animating;
      var x := (frameWidth - contentSize.width) / 2.0;
      var targetPoint := Point(x, frameHeight - contentSize.height);
      var beginPoint := Point(x, frameHeight);
      match kind {
        case BottomTop =>
          targetPoint := Point(x, frameHeight - contentSize.height);
          beginPoint := Point(x, frameHeight);
        case Center =>
          targetPoint := Point(x, (frameHeight - contentSize.height) / 2.0);
          beginPoint := Point(x, frameHeight);
        case _ =>
      }
      contentOrigin := beginPoint;
      var time := 0.6;
      if animationTime.Some? {
        time := animationTime.value;
      }
      // The animations closure runs at once: the animated values are set now.
      contentOrigin := targetPoint;
      backdropAlpha := 0.7;
      pending := pending + [Animation(ShowTransition, beginPoint, targetPoint, 0.7, time)];
      started := started + 1;
    }

    /**
      Hides only a shown view: the panel animates back to its off-screen
      origin while the backdrop clears; the completion is queued.
     */
    method Hide(animationTime: Option<real>)
      requires Valid()
      modifies this
      ensures Valid()
      ensures old(status) != Showing ==> unchanged(this)
      ensures old(status) == Showing ==>
        && status == Animating
        && contentOrigin == OffscreenOrigin(frameWidth, frameHeight, contentSize)
        && backdropAlpha == 0.0
        && pending == old(pending) + [Animation(HideTransition, old(contentOrigin),
             OffscreenOrigin(frameWidth, frameHeight, contentSize),
             0.0, EffectiveDuration(animationTime))]
        && started == old(started) + 1
      ensures contentSize == old(contentSize) && headerView == old(headerView)
      ensures contentItemView == old(contentItemView) && completed == old(completed)
      ensures showedCalls == old(showedCalls) && hidedCalls == old(hidedCalls)
    {
      if status != Showing {
        return;
      }
      status := Animating;
      var targetPoint := Point((frameWidth - contentSize.width) / 2.0, frameHeight);
      var time := 0.6;
      if animationTime.Some? {
        time := animationTime.value;
      }
      var from := contentOrigin;
      contentOrigin := targetPoint;
      backdropAlpha := 0.0;
      pending := pending + [Animation(HideTransition, from, targetPoint, 0.0, time)];
      started := started + 1;
    }

    /** Hides with the default duration. */
    method DefaultHide()
      requires Valid()
      modifies this
      ensures Valid()
      ensures old(status) != Showing ==> unchanged(this)
      ensures old(status) == Showing ==>
        && status == Animating
        && contentOrigin == OffscreenOrigin(frameWidth, frameHeight, contentSize)
        && backdropAlpha == 0.0
        && pending == old(pending) + [Animation(HideTransition, old(contentOrigin),
             OffscreenOrigin(frameWidth, frameHeight, contentSize), 0.0, DefaultDuration)]
        && started == old(started) + 1
      ensures contentSize == old(contentSize) && headerView == old(headerView)
      ensures contentItemView == old(contentItemView) && completed == old(completed)
      ensures showedCalls == old(showedCalls) && hidedCalls == old(hidedCalls)
    {
      Hide(None);
    }

    /**
      Runs the oldest pending completion handler, if any. Show and hide
      completions do the same: the status becomes `Showing` and the show
      callback fires.
     */
    method Complete()
      requires Valid()
      modifies this
      ensures Valid()
      ensures old(pending) == [] ==> unchanged(this)
      ensures old(pending) != [] ==>
        && status == Showing
        && pending == old(pending)[1..]
        && showedCalls == old(showedCalls) + (if hasShowedBlock then 1 else 0)
        && completed == old(completed) + 1
      ensures contentOrigin == old(contentOrigin) && contentSize == old(contentSize)
      ensures headerView == old(headerView) && contentItemView == old(contentItemView)
      ensures backdropAlpha == old(backdropAlpha) && hidedCalls == old(hidedCalls)
      ensures started == old(started)
    {
      if pending == [] {
        return;
      }
      pending := pending[1..];
      status := Showing;
      completed := completed + 1;
      if hasShowedBlock {
        showedCalls := showedCalls + 1;
      }
    }
  }

  // ---------------------------------------------------------------------
  // Whole scenarios, from a new view

  /**
    Showing twice before the first animation completes starts one
    animation and fires the show callback once.
   */
  method ShowTwiceBeforeCompletion(kind: ModuleType, width: real, height: real, item: Rect)
    returns (animations: nat, showed: nat, status: Status)
    ensures animations == 1 && showed == 1 && status == Showing
  {
    var v := new PickerModuleView(kind, width, height, true, true);
    v.BindContentView(None, item, None);
    v.Show(None, false);
    v.Show(None, false);
    animations := |v.pending|;
    v.Complete();
    v.Complete();
    showed := v.showedCalls;
    status := v.status;
  }

  /** Hiding a view that was never shown does nothing. */
  method HideBeforeShowIsNoOp(kind: ModuleType, width: real, height: real, item: Rect)
    returns (animations: nat, status: Status, alpha: real)
    ensures animations == 0 && status == Hiding && alpha == 0.0
  {
    var v := new PickerModuleView(kind, width, height, true, true);
    v.BindContentView(None, item, None);
    v.Hide(None);
    animations := |v.pending|;
    status := v.status;
    alpha := v.backdropAlpha;
  }

  /**
    A show and hide round trip ends in `Showing` with the show callback
    fired twice and the hide callback never; after it, an unforced `Show`
    is refused, while a second `Hide` is accepted.
   */
  method ShowHideRoundTrip(kind: ModuleType, width: real, height: real, item: Rect)
    returns (status: Status, showed: nat, hided: nat, reshown: bool, rehidden: bool)
    ensures status == Showing && showed == 2 && hided == 0
    ensures !reshown && rehidden
  {
    var v := new PickerModuleView(kind, width, height, true, true);
    v.BindContentView(None, item, None);
    v.Show(None, false);
    v.Complete();
    v.Hide(None);
    v.Complete();
    status, showed, hided := v.status, v.showedCalls, v.hidedCalls;
    v.Show(None, false);
    reshown := v.status == Animating;
    v.DefaultHide();
    rehidden := v.status == Animating;
  }

  /**
    With no static size, a bound panel is as wide as the item and as tall
    as item and header together; once shown it rests centred horizontally,
    flush with the bottom of the frame or, for `Center`, centred vertically.
   */
  method BindThenShow(kind: ModuleType, width: real, height: real,
                      header: Option<Rect>, item: Rect)
    returns (panel: Size, origin: Point, alpha: real)
    ensures panel == Size(item.size.width, item.size.height + HeaderHeight(header))
    ensures 2.0 * origin.x + panel.width == width
    ensures kind != Center ==> origin.y + panel.height == height
    ensures kind == Center ==> 2.0 * origin.y + panel.height == height
    ensures alpha == ShownAlpha
  {
    var v := new PickerModuleView(kind, width, height, false, false);
    v.BindContentView(header, item, None);
    v.Show(None, false);
    panel, origin, alpha := v.contentSize, v.contentOrigin, v.backdropAlpha;
  }
}
