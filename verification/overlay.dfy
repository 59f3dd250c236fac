/**
 * JRAOverlay: a view laid over a host view that shows and hides modals
 * registered under keys. Animation completion blocks are kept as pending
 * completions that `Complete` runs one at a time, in any order; delegate
 * and modal callbacks and layer animations are recorded as events, in the
 * order the overlay issues them.
 */
module Overlay {
  import opened Options
  import opened Views
  import Logging
  import LayoutHelper
  import opened AnimationHelper
  import Constraints
  import Sequences

  /** The key under which the overlay logs. */
  const LoggingKey := "JRAOverlay"
  /** `showOverlay`'s default duration, also used when `showModal` opens the overlay. */
  const ShowDuration: real := 0.5
  /** Opacity a transparent overlay gives its background colour. */
  const TransparentAlpha: real := 0.6

  const NoKeyToShow := "Modal cannot be shown as no such modalConfig found with key "
  const NoWindowToShow := "Base window not found while triggering modal show "
  const NoKeyToHide := "Modal cannot be hide as no such modalConfig found with key "
  const NoWindow := "Base window is not set or found. Call setOn() before calling this"
  const NotOn := "Overlay is not turned on. Call showOverlay() first before calling this"

  datatype Style = Transparent | ClearStyle

  /** `ModalInfoStruct`: a modal and how this overlay shows it. */
  datatype ModalInfo = ModalInfo(
    modal: View,
    position: Position,
    enterDirection: Direction,
    leaveDirection: Direction,
    entryTime: real,
    leaveTime: real,
    isOn: bool)

  /** `ModalInfoStruct(modal:)`: at the end, entering from the top, leaving to the bottom, half a second each way, off. */
  function DefaultInfo(modal: View): (r: ModalInfo)
    ensures r.modal == modal && r.position == End && !r.isOn
    ensures r.enterDirection == Top && r.leaveDirection == Bottom
    ensures r.entryTime == 0.5 && r.leaveTime == 0.5
  {
    ModalInfo(modal, End, Top, Bottom, 0.5, 0.5, false)
  }

  /** What happened, in order: delegate calls, modal callbacks and layer animations. */
  datatype Event =
    | WillLoad(id: string)
    | DidLoad(id: string)
    | WillDisappear(id: string)
    | DidDisappear(id: string)
    | ModalWillShow(modal: View)
    | ModalDidShow(modal: View)
    | ModalWillHide(modal: View)
    | ModalDidHide(modal: View)
    | Animate(layer: View, animationKey: string, animation: Keyframe)
    | RemoveAnimations(layer: View)

  /** A completion block waiting for its animations to end. */
  datatype Completion =
    | ShowDone(key: string, modal: View)
    | HideDone(key: string, modal: View)
    | OverlayHidden

  /** `UIColor.withAlphaComponent(_:)`: the same colour at the given opacity. */
  function WithAlpha(c: Color, alpha: real): (r: Color)
    ensures r.Rgba? && r.alpha == alpha
    ensures c.Rgba? ==> r.red == c.red && r.green == c.green && r.blue == c.blue
  {
    match c
    case Clear => Rgba(0.0, 0.0, 0.0, alpha)
    case White => Rgba(1.0, 1.0, 1.0, alpha)
    case Black => Rgba(0.0, 0.0, 0.0, alpha)
    case Rgba(r, g, b, _) => Rgba(r, g, b, alpha)
  }

  /** Setting the opacity twice is setting it once: re-applying the transparent style does not dim the colour further. */
  lemma WithAlphaIdempotent(c: Color, alpha: real)
    ensures WithAlpha(WithAlpha(c, alpha), alpha) == WithAlpha(c, alpha)
  {
  }

  /** The offsets `showModal` hooks the modal to its host with, with the vertical-centre offset if any. */
  datatype Placement = Placement(top: Option<real>, right: Option<real>, bottom: Option<real>, left: Option<real>, centerY: Option<real>)

  /**
   * `start` pins top, left and right; `end` pins bottom, left and right;
   * `center` pins left and right and centres vertically; every offset is 0.
   */
  function PlacementFor(position: Position): (p: Placement)
    ensures p.left == Some(0.0) && p.right == Some(0.0)
    ensures p.top == (if position == Start then Some(0.0) else None)
    ensures p.bottom == (if position == End then Some(0.0) else None)
    ensures p.centerY == (if position == Center then Some(0.0) else None)
  {
    match position
    case Start => Placement(Some(0.0), Some(0.0), None, Some(0.0), None)
    case End => Placement(None, Some(0.0), Some(0.0), Some(0.0), None)
    case Center => Placement(None, Some(0.0), None, Some(0.0), Some(0.0))
  }

  /** The events `showOverlay` issues once it has a host. */
  function ShowOverlayEvents(id: string, overlay: View, duration: real): seq<Event> {
    [WillLoad(id), Animate(overlay, "OverlayEnter", Fade(Enter, duration)), DidLoad(id)]
  }

  /** The events `showModal` issues for the modal: its will-show callback, a fade in, and a slide in unless it has no direction. */
  function ShowModalEvents(key: string, info: ModalInfo): seq<Event> {
    [ModalWillShow(info.modal), Animate(info.modal, key + "modalFadeEntry", Fade(Enter, info.entryTime))]
    + if info.enterDirection != NoDirection
      then [Animate(info.modal, key + "modalMoveTo", MoveAnimation(To, info.enterDirection, DefaultOffset, info.entryTime))]
      else []
  }

  /**
   * The events `hideModal` issues: its will-hide callback, a fade out, and
   * a slide out unless the modal has no entry direction.
   */
  function HideModalEvents(key: string, info: ModalInfo): seq<Event> {
    [ModalWillHide(info.modal), Animate(info.modal, key + "modalFadeLeave", Fade(Leave, info.leaveTime))]
    + if info.enterDirection != NoDirection
      then [Animate(info.modal, key + "modalMoveFrom", MoveAnimation(From, info.leaveDirection, DefaultOffset, info.leaveTime))]
      else []
  }

  /**
   * A modal slides out exactly when it has an entry direction, whatever its
   * leave direction, and then along its leave direction's axis, away from
   * where it rests; it slides in along its entry direction's axis.
   */
  lemma SlideDirections(key: string, info: ModalInfo)
    ensures |HideModalEvents(key, info)| == 3 <==> info.enterDirection != NoDirection
    ensures |HideModalEvents(key, info)| == 3 ==>
              && HideModalEvents(key, info)[2].Animate?
              && HideModalEvents(key, info)[2].animation.keyPath
                 == (if IsHorizontal(info.leaveDirection) then TranslationX else TranslationY)
              && HideModalEvents(key, info)[2].animation.values == [0.0, DefaultOffset]
    ensures |ShowModalEvents(key, info)| == 3 <==> info.enterDirection != NoDirection
    ensures |ShowModalEvents(key, info)| == 3 ==>
              && ShowModalEvents(key, info)[2].Animate?
              && ShowModalEvents(key, info)[2].animation.keyPath
                 == (if IsHorizontal(info.enterDirection) then TranslationX else TranslationY)
              && ShowModalEvents(key, info)[2].animation.values == [DefaultOffset, 0.0]
  {
  }

  /** The completions of the `hideModal` calls for `keys`, in order. */
  function Dones(keys: seq<string>, m: map<string, ModalInfo>): seq<Completion>
    requires forall k | k in keys :: k in m
  {
    if keys == [] then [] else [HideDone(keys[0], m[keys[0]].modal)] + Dones(keys[1..], m)
  }

  /** The events of the `hideModal` calls for `keys`, in order, each with the configuration its key holds in `m`. */
  function HideEventsOf(keys: seq<string>, m: map<string, ModalInfo>): seq<Event>
    requires forall k | k in keys :: k in m
  {
    if keys == [] then [] else HideModalEvents(keys[0], m[keys[0]]) + HideEventsOf(keys[1..], m)
  }

  /** The keys of the hide completions among `cs`, in order. */
  function HiddenKeys(cs: seq<Completion>): seq<string> {
    if cs == [] then []
    else (if cs[0].HideDone? then [cs[0].key] else []) + HiddenKeys(cs[1..])
  }

  /** One more `hideModal` call adds exactly its completion at the end. */
  lemma {:induction false} DonesSnoc(keys: seq<string>, m: map<string, ModalInfo>, key: string)
    requires forall k | k in keys :: k in m
    requires key in m
    ensures Dones(keys + [key], m) == Dones(keys, m) + [HideDone(key, m[key].modal)]
  {
    if keys == [] {
      assert [key][1..] == [];
    } else {
      assert (keys + [key])[1..] == keys[1..] + [key];
      DonesSnoc(keys[1..], m, key);
    }
  }

  /** One more `hideModal` call adds exactly its events at the end. */
  lemma {:induction false} HideEventsSnoc(keys: seq<string>, m: map<string, ModalInfo>, key: string)
    requires forall k | k in keys :: k in m
    requires key in m
    ensures HideEventsOf(keys + [key], m) == HideEventsOf(keys, m) + HideModalEvents(key, m[key])
  {
    if keys == [] {
      assert [key][1..] == [];
    } else {
      assert (keys + [key])[1..] == keys[1..] + [key];
      HideEventsSnoc(keys[1..], m, key);
    }
  }

  /**
   * Progress of the loop over the marked keys `on`: `hidden` lists, once
   * each, exactly the keys no longer in `todo`.
   */
  ghost predicate Hiding(hidden: seq<string>, todo: set<string>, on: set<string>) {
    && todo <= on
    && (forall k :: k in hidden <==> k in on && k !in todo)
    && Sequences.NoDup(hidden) && |hidden| == |on - todo|
  }

  /** Hiding one more key of `todo` keeps the progress. */
  lemma HidingStep(hidden: seq<string>, todo: set<string>, on: set<string>, k: string)
    requires Hiding(hidden, todo, on) && k in todo
    ensures Hiding(hidden + [k], todo - {k}, on)
  {
    Sequences.NoDupSnoc(hidden, k);
    assert on - (todo - {k}) == (on - todo) + {k};
  }

  /** The keys can be read back from the completions. */
  lemma {:induction false} HiddenKeysOfDones(keys: seq<string>, m: map<string, ModalInfo>)
    requires forall k | k in keys :: k in m
    ensures HiddenKeys(Dones(keys, m)) == keys
  {
    if keys != [] {
      var d := Dones(keys, m);
      assert d[1..] == Dones(keys[1..], m);
      HiddenKeysOfDones(keys[1..], m);
    }
  }

  /** Once nothing is left to hide, the completions appended list every marked key once, in the order hidden. */
  lemma HidingDone(pending0: seq<Completion>, p: seq<Completion>, hidden: seq<string>, m: map<string, ModalInfo>, on: set<string>)
    requires Hiding(hidden, {}, on) && forall k | k in on :: k in m
    requires p == pending0 + Dones(hidden, m)
    ensures |p| >= |pending0| && p[..|pending0|] == pending0
    ensures p[|pending0|..] == Dones(hidden, m) && HiddenKeys(p[|pending0|..]) == hidden
    ensures Sequences.NoDup(hidden) && |hidden| == |on| && forall k :: k in hidden <==> k in on
  {
    assert on - {} == on;
    assert p[|pending0|..] == Dones(hidden, m);
    HiddenKeysOfDones(hidden, m);
  }

  /** The map after a completion sets the on flag of whatever modal is now registered under the key. */
  function Marked(m: map<string, ModalInfo>, key: string, on: bool): (r: map<string, ModalInfo>)
    ensures r.Keys == m.Keys
    ensures key in m ==> r[key] == m[key].(isOn := on)
    ensures forall k | k in m && k != key :: r[k] == m[k]
  {
    if key in m then m[key := m[key].(isOn := on)] else m
  }

  /** The view whose superview a completion changes. */
  function Target(c: Completion, overlay: View): View {
    if c.OverlayHidden? then overlay else c.modal
  }

  class Overlay {
    /** The overlay's own view. */
    const asView: View
    /** The shared logging engine. */
    const logger: Logging.LogEngine
    var backgroundStyle: Style
    /** Identifies the overlay to its delegate. */
    var id: string
    /** The host view the overlay sits on, set by `setOn`. */
    var baseWindow: View?
    var isOverlayOn: bool
    var modalMap: map<string, ModalInfo>
    /** Completion blocks not yet run. */
    var pending: seq<Completion>
    /** Everything issued so far, in order. */
    var events: seq<Event>

    /** The modals registered under the key, at most one. */
    function ModalAt(key: string): set<View>
      reads this`modalMap
    {
      if key in modalMap then {modalMap[key].modal} else {}
    }

    /** The keys of the modals marked as shown. */
    function OnKeys(): set<string>
      reads this`modalMap
    {
      set k | k in modalMap && modalMap[k].isOn
    }

    /** `init(style:bgColor:)`: off, without host or modals, with the style's background. */
    constructor (style: Style, bgColor: Color, logger: Logging.LogEngine)
      ensures fresh(asView) && this.logger == logger && backgroundStyle == style && id == ""
      ensures baseWindow == null && !isOverlayOn && modalMap == map[] && pending == [] && events == []
      ensures asView.background == if style == Transparent then WithAlpha(bgColor, TransparentAlpha) else Clear
    {
      var v := new View();
      v.background := bgColor;
      asView := v;
      this.logger := logger;
      backgroundStyle := style;
      id := "";
      baseWindow := null;
      isOverlayOn := false;
      modalMap := map[];
      pending := [];
      events := [];
      new;
      SetBackground();
    }

    /** `setBackground()`: a transparent overlay dims its colour, a clear one has none. */
    method SetBackground()
      modifies asView`background
      ensures asView.background == if backgroundStyle == Transparent then WithAlpha(old(asView.background), TransparentAlpha) else Clear
    {
      match backgroundStyle {
        case Transparent => asView.background := WithAlpha(asView.background, TransparentAlpha);
        case ClearStyle => asView.background := Clear;
      }
    }

    /** Assigning `backgroundStyle` re-applies the background. */
    method SetStyle(style: Style)
      modifies this`backgroundStyle, asView`background
      ensures backgroundStyle == style
      ensures asView.background == if style == Transparent then WithAlpha(old(asView.background), TransparentAlpha) else Clear
    {
      backgroundStyle := style;
      SetBackground();
    }

    /** `setOn(view:)`. */
    method SetOn(view: View)
      modifies this`baseWindow
      ensures baseWindow == view
    {
      baseWindow := view;
    }

    /** `addModal(with:config:)`: the key now holds the config; a modal it held before is detached. */
    method AddModal(key: string, config: ModalInfo)
      modifies this`modalMap, ModalAt(key)`superview
      ensures modalMap == old(modalMap)[key := config]
      ensures key in old(modalMap) ==> old(modalMap)[key].modal.superview == null
    {
      if key in modalMap {
        modalMap[key].modal.superview := null;
        modalMap := modalMap - {key};
      }
      modalMap := modalMap[key := config];
    }

    /** The constraints that place a shown modal on its host. */
    static method Place(modal: View, host: View, position: Position) returns (sides: Constraints.ConstraintStruct, center: Constraints.ConstraintStruct)
      ensures var p := PlacementFor(position);
              && Constraints.Holds(sides.top, modal, Constraints.Top, host, p.top)
              && Constraints.Holds(sides.right, modal, Constraints.Right, host, Inward(p.right))
              && Constraints.Holds(sides.bottom, modal, Constraints.Bottom, host, Inward(p.bottom))
              && Constraints.Holds(sides.left, modal, Constraints.Left, host, p.left)
              && Constraints.Holds(center.centerY, modal, Constraints.CenterY, host, p.centerY) && center.centerX.None?
    {
      var p := PlacementFor(position);
      sides := LayoutHelper.HookToAllSide(modal, host, p.top, p.right, p.bottom, p.left);
      if p.centerY.Some? {
        center := LayoutHelper.Center(modal, host, None, p.centerY);
      } else {
        center := Constraints.Empty();
      }
    }

    /**
     * `showOverlay(duration:)`: without a host it only logs; otherwise the
     * overlay joins the host, fades in between the will-load and did-load
     * calls, and is on.
     */
    method ShowOverlay(duration: real)
      modifies this`isOverlayOn, this`events, asView`superview, logger`output
      ensures baseWindow == null ==>
                && isOverlayOn == old(isOverlayOn) && events == old(events) && asView.superview == old(asView.superview)
                && logger.output == old(logger.output) + [Logging.KeyedLine(LoggingKey, NoWindow), ""]
      ensures baseWindow != null ==>
                && isOverlayOn && asView.superview == baseWindow && logger.output == old(logger.output)
                && events == old(events) + ShowOverlayEvents(id, asView, duration)
    {
      if baseWindow == null {
        logger.LogWith(LoggingKey, NoWindow);
        logger.Log("");
        return;
      }
      events := events + [WillLoad(id)];
      asView.superview := baseWindow;
      var _ := LayoutHelper.HookToAllSide(asView, baseWindow, Some(0.0), Some(0.0), Some(0.0), Some(0.0));
      events := events + [Animate(asView, "OverlayEnter", Fade(Enter, duration))];
      isOverlayOn := true;
      events := events + [DidLoad(id)];
    }

    /**
     * `showModal(with:)`: fails, logging why, for an unknown key (checked
     * first) or a missing host. Otherwise it opens the overlay if needed,
     * puts the modal on the host, plays its entry and leaves its on flag
     * to the completion.
     */
    method ShowModal(key: string) returns (shown: bool)
      modifies this`isOverlayOn, this`pending, this`events, asView`superview, ModalAt(key)`superview, logger`output
      ensures shown <==> key in modalMap && baseWindow != null
      ensures !shown ==>
                && isOverlayOn == old(isOverlayOn) && pending == old(pending) && events == old(events)
                && asView.superview == old(asView.superview)
      ensures !shown && key in modalMap ==> modalMap[key].modal.superview == old(modalMap[key].modal.superview)
      ensures key !in modalMap ==> logger.output == old(logger.output) + [Logging.KeyedLine(LoggingKey, NoKeyToShow + key)]
      ensures key in modalMap && baseWindow == null ==>
                logger.output == old(logger.output) + [Logging.KeyedLine(LoggingKey, NoWindowToShow + key)]
      ensures shown ==>
                && isOverlayOn && modalMap[key].modal.superview == baseWindow && logger.output == old(logger.output)
                && (!old(isOverlayOn) ==> asView.superview == baseWindow)
                && pending == old(pending) + [ShowDone(key, modalMap[key].modal)]
                && events == old(events) + (if old(isOverlayOn) then [] else ShowOverlayEvents(id, asView, ShowDuration))
                                         + ShowModalEvents(key, modalMap[key])
      ensures shown && old(isOverlayOn) && modalMap[key].modal != asView ==> asView.superview == old(asView.superview)
    {
      if key !in modalMap {
        logger.LogWith(LoggingKey, NoKeyToShow + key);
        return false;
      }
      if baseWindow == null {
        logger.LogWith(LoggingKey, NoWindowToShow + key);
        return false;
      }
      var info := modalMap[key];
      if !isOverlayOn {
        ShowOverlay(ShowDuration);
      }
      Present(key, info);
      shown := true;
    }

    /** The modal's part of a successful `showModal`. */
    method Present(key: string, info: ModalInfo)
      requires baseWindow != null
      modifies this`pending, this`events, info.modal`superview
      ensures info.modal.superview == baseWindow
      ensures pending == old(pending) + [ShowDone(key, info.modal)]
      ensures events == old(events) + ShowModalEvents(key, info)
    {
      info.modal.superview := null;
      pending := pending + [ShowDone(key, info.modal)];
      events := events + [ModalWillShow(info.modal)];
      info.modal.superview := baseWindow;
      var _, _ := Place(info.modal, baseWindow, info.position);
      events := events + [Animate(info.modal, key + "modalFadeEntry", Fade(Enter, info.entryTime))];
      if info.enterDirection != NoDirection {
        events := events + [Animate(info.modal, key + "modalMoveTo", MoveAnimation(To, info.enterDirection, DefaultOffset, info.entryTime))];
      }
    }

    /**
     * `hideModal(with:)`: fails, logging why, for an unknown key. Otherwise
     * it plays the modal's exit and leaves the on flag and the detaching
     * to the completion.
     */
    method HideModal(key: string) returns (hidden: bool)
      modifies this`pending, this`events, logger`output
      ensures hidden <==> key in modalMap
      ensures !hidden ==>
                && pending == old(pending) && events == old(events)
                && logger.output == old(logger.output) + [Logging.KeyedLine(LoggingKey, NoKeyToHide + key)]
      ensures hidden ==>
                && pending == old(pending) + [HideDone(key, modalMap[key].modal)]
                && events == old(events) + HideModalEvents(key, modalMap[key])
                && logger.output == old(logger.output)
    {
      if key !in modalMap {
        logger.LogWith(LoggingKey, NoKeyToHide + key);
        return false;
      }
      var info := modalMap[key];
      pending := pending + [HideDone(key, info.modal)];
      events := events + [ModalWillHide(info.modal), Animate(info.modal, key + "modalFadeLeave", Fade(Leave, info.leaveTime))];
      if info.enterDirection != NoDirection {
        events := events + [Animate(info.modal, key + "modalMoveFrom", MoveAnimation(From, info.leaveDirection, DefaultOffset, info.leaveTime))];
      }
      hidden := true;
    }

    /**
     * `hideOverlay(duration:)`: while off it only logs. While on, it fades
     * out and calls `hideModal` once for each modal marked as shown and for
     * no other; the overlay goes off at completion.
     */
    method HideOverlay(duration: real)
      modifies this`pending, this`events, logger`output
      ensures logger.output == old(logger.output) + if old(isOverlayOn) then [] else [Logging.KeyedLine(LoggingKey, NotOn)]
      ensures !isOverlayOn ==> pending == old(pending) && events == old(events)
      ensures isOverlayOn ==>
                && |pending| > |old(pending)| && pending[..|old(pending)| + 1] == old(pending) + [OverlayHidden]
                && var hidden := HiddenKeys(pending[|old(pending)| + 1..]);
                && Sequences.NoDup(hidden) && |hidden| == |OnKeys()|
                && (forall k :: k in hidden <==> k in OnKeys())
                && pending[|old(pending)| + 1..] == Dones(hidden, modalMap)
                && events == old(events) + [WillDisappear(id), Animate(asView, "OverlayLeave", Fade(Leave, duration))]
                             + HideEventsOf(hidden, modalMap)
    {
      if !isOverlayOn {
        logger.LogWith(LoggingKey, NotOn);
        return;
      }
      events := events + [WillDisappear(id)];
      pending := pending + [OverlayHidden];
      events := events + [Animate(asView, "OverlayLeave", Fade(Leave, duration))];
      ghost var mid, said := pending, events;
      HideMarked();
      assert pending[..|mid|] == mid && pending[|old(pending)| + 1..] == pending[|mid|..];
      assert pending[..|old(pending)| + 1] == mid[..|old(pending)| + 1];
    }

    /** The loop of `hideOverlay`: one `hideModal` per modal marked as shown, in whatever order the map yields them. */
    method HideMarked()
      modifies this`pending, this`events, logger`output
      ensures logger.output == old(logger.output)
      ensures |pending| >= |old(pending)| && pending[..|old(pending)|] == old(pending)
      ensures var hidden := HiddenKeys(pending[|old(pending)|..]);
              && Sequences.NoDup(hidden) && |hidden| == |OnKeys()|
              && (forall k :: k in hidden <==> k in OnKeys())
              && pending[|old(pending)|..] == Dones(hidden, modalMap)
              && events == old(events) + HideEventsOf(hidden, modalMap)
    {
      ghost var m := modalMap;
      ghost var on := OnKeys();
      ghost var hidden: seq<string> := [];
      var todo := OnKeys();
      while todo != {}
        invariant modalMap == m && (forall k | k in on :: k in m)
        invariant Hiding(hidden, todo, on)
        invariant pending == old(pending) + Dones(hidden, m)
        invariant events == old(events) + HideEventsOf(hidden, m)
        invariant logger.output == old(logger.output)
        decreases todo
      {
        var k :| k in todo;
        HideOne(k, old(pending), old(events), hidden);
        HidingStep(hidden, todo, on, k);
        hidden := hidden + [k];
        todo := todo - {k};
      }
      HidingDone(old(pending), pending, hidden, m, on);
    }

    /**
     * One step of `hideOverlay`'s loop: `hideModal` of a key marked as
     * shown, after the calls for the keys `hidden`.
     */
    method HideOne(k: string, ghost pending0: seq<Completion>, ghost events0: seq<Event>, ghost hidden: seq<string>)
      requires k in OnKeys() && forall h | h in hidden :: h in modalMap
      requires pending == pending0 + Dones(hidden, modalMap) && events == events0 + HideEventsOf(hidden, modalMap)
      modifies this`pending, this`events, logger`output
      ensures pending == pending0 + Dones(hidden + [k], modalMap)
      ensures events == events0 + HideEventsOf(hidden + [k], modalMap)
      ensures logger.output == old(logger.output)
    {
      var ok := HideModal(k);
      DonesSnoc(hidden, modalMap, k);
      HideEventsSnoc(hidden, modalMap, k);
    }

    /**
     * Runs the completion block at `i`: a shown modal is marked on; a
     * hidden modal is marked off and detached; a hidden overlay is off and
     * detached. The on flag goes to whatever modal the key holds by then.
     */
    method Complete(i: nat)
      requires i < |pending|
      modifies this`isOverlayOn, this`modalMap, this`pending, this`events, Target(pending[i], asView)`superview
      ensures pending == old(pending[..i] + pending[i + 1..])
      ensures old(pending[i]).ShowDone? ==>
                && modalMap == Marked(old(modalMap), old(pending[i]).key, true)
                && isOverlayOn == old(isOverlayOn) && old(pending[i]).modal.superview == old(pending[i].modal.superview)
                && events == old(events) + [ModalDidShow(old(pending[i]).modal)]
      ensures old(pending[i]).HideDone? ==>
                && modalMap == Marked(old(modalMap), old(pending[i]).key, false)
                && isOverlayOn == old(isOverlayOn) && old(pending[i]).modal.superview == null
                && events == old(events) + [RemoveAnimations(old(pending[i]).modal), ModalDidHide(old(pending[i]).modal)]
      ensures old(pending[i]).OverlayHidden? ==>
                && modalMap == old(modalMap) && !isOverlayOn && asView.superview == null
                && events == old(events) + [RemoveAnimations(asView), DidDisappear(id)]
    {
      var c := pending[i];
      pending := pending[..i] + pending[i + 1..];
      match c {
        case ShowDone(key, modal) =>
          modalMap := Marked(modalMap, key, true);
          events := events + [ModalDidShow(modal)];
        case HideDone(key, modal) =>
          modalMap := Marked(modalMap, key, false);
          modal.superview := null;
          events := events + [RemoveAnimations(modal), ModalDidHide(modal)];
        case OverlayHidden =>
          isOverlayOn := false;
          asView.superview := null;
          events := events + [RemoveAnimations(asView), DidDisappear(id)];
      }
    }
  }
}
