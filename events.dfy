/**
 * Event descriptors: the SimulaEvent / SimulaUiEvent / SimulaMouseEvent
 * value records (after DOM Level 2 Events), built by merging caller options
 * over fixed defaults, and the option merges the Simulation's builders use.
 */
module Events {
  import opened Basics
  import opened Dom

  /** `SimulaMouseEvent.TYPE`: click, mousedown, mouseup, mouseover, mouseout, mousemove. */
  datatype EventType = Click | MouseDown | MouseUp | MouseOver | MouseOut | MouseMove

  /** `SimulaMouseEvent.BUTTON`. */
  const LEFT: nat := 0
  const MIDDLE: nat := 1
  const RIGHT: nat := 2

  /** The AbstractView an event comes from; `window` unless the caller names another. */
  datatype View = Window | OtherView(id: nat)

  /** An EventTarget named by `relatedTarget`: an element, or the document (the default). */
  datatype Related = Document | Element(elem: Elem)

  /** An options object: every key may be absent (`None`). */
  datatype Options = Options(
    eventType: Option<EventType>,
    bubbles: Option<bool>,
    cancelable: Option<bool>,
    view: Option<View>,
    detail: Option<int>,
    screenX: Option<real>,
    screenY: Option<real>,
    clientX: Option<real>,
    clientY: Option<real>,
    ctrlKey: Option<bool>,
    shiftKey: Option<bool>,
    altKey: Option<bool>,
    metaKey: Option<bool>,
    button: Option<nat>,
    relatedTarget: Option<Related>)

  /** The empty options object `{}`. */
  const NoOptions: Options :=
    Options(None, None, None, None, None, None, None, None, None, None, None, None, None, None, None)

  datatype SimulaEvent = SimulaEvent(eventType: Option<EventType>, bubbles: bool, cancelable: bool)

  datatype UiEvent = UiEvent(event: SimulaEvent, view: View, detail: int)

  datatype MouseEvent = MouseEvent(
    ui: UiEvent,
    screenX: real, screenY: real, clientX: real, clientY: real,
    ctrlKey: bool, shiftKey: bool, altKey: bool, metaKey: bool,
    button: nat, relatedTarget: Related)

  /** `new SimulaEvent(options)`: the type is taken as given; bubbles and cancelable default to true. */
  function SimulaEventOf(o: Options): (e: SimulaEvent)
    ensures e.eventType == o.eventType
    ensures e.bubbles == o.bubbles.GetOr(true) && e.cancelable == o.cancelable.GetOr(true)
  {
    SimulaEvent(o.eventType, o.bubbles.GetOr(true), o.cancelable.GetOr(true))
  }

  /** `new SimulaUiEvent(options)`: a SimulaEvent plus view (default window) and detail (default 0). */
  function UiEventOf(o: Options): (e: UiEvent)
    ensures e.event == SimulaEventOf(o)
    ensures e.view == o.view.GetOr(Window) && e.detail == o.detail.GetOr(0)
  {
    UiEvent(SimulaEventOf(o), o.view.GetOr(Window), o.detail.GetOr(0))
  }

  /**
   * `new SimulaMouseEvent(options)`: a SimulaUiEvent plus coordinates
   * (default 0), modifier keys (default false), button (default LEFT) and
   * relatedTarget (default the document).
   */
  function MouseEventOf(o: Options): (e: MouseEvent)
    ensures e.ui == UiEventOf(o)
    ensures e.screenX == o.screenX.GetOr(0.0) && e.screenY == o.screenY.GetOr(0.0)
    ensures e.clientX == o.clientX.GetOr(0.0) && e.clientY == o.clientY.GetOr(0.0)
    ensures e.ctrlKey == o.ctrlKey.GetOr(false) && e.shiftKey == o.shiftKey.GetOr(false)
    ensures e.altKey == o.altKey.GetOr(false) && e.metaKey == o.metaKey.GetOr(false)
    ensures e.button == o.button.GetOr(LEFT) && e.relatedTarget == o.relatedTarget.GetOr(Document)
  {
    MouseEvent(
      UiEventOf(o),
      o.screenX.GetOr(0.0), o.screenY.GetOr(0.0), o.clientX.GetOr(0.0), o.clientY.GetOr(0.0),
      o.ctrlKey.GetOr(false), o.shiftKey.GetOr(false), o.altKey.GetOr(false), o.metaKey.GetOr(false),
      o.button.GetOr(LEFT), o.relatedTarget.GetOr(Document))
  }

  /**
   * The descriptor a Simulation builder creates for an event of type `t`:
   * the caller's options with the type forced; `mousemove` also forces
   * `cancelable = false`, and `mousedown`, `mouseup` and `click` put
   * `button: LEFT` under the caller's options.
   */
  function BuilderEvent(t: EventType, o: Options): (e: MouseEvent)
    ensures e.ui.event.eventType == Some(t)
    ensures e.ui.event.cancelable == (t != MouseMove && o.cancelable.GetOr(true))
    ensures e.ui.event.bubbles == o.bubbles.GetOr(true)
    ensures e.button == o.button.GetOr(LEFT)
    ensures e.clientX == o.clientX.GetOr(0.0) && e.clientY == o.clientY.GetOr(0.0)
    ensures e.relatedTarget == o.relatedTarget.GetOr(Document)
    ensures e.ui.view == o.view.GetOr(Window) && e.ui.detail == o.detail.GetOr(0)
    ensures e.screenX == o.screenX.GetOr(0.0) && e.screenY == o.screenY.GetOr(0.0)
    ensures e.ctrlKey == o.ctrlKey.GetOr(false) && e.shiftKey == o.shiftKey.GetOr(false)
    ensures e.altKey == o.altKey.GetOr(false) && e.metaKey == o.metaKey.GetOr(false)
  {
    match t
    case MouseMove => MouseEventOf(o.(eventType := Some(MouseMove), cancelable := Some(false)))
    case MouseOver => MouseEventOf(o.(eventType := Some(MouseOver)))
    case MouseOut => MouseEventOf(o.(eventType := Some(MouseOut)))
    case _ => MouseEventOf(o.(button := Some(o.button.GetOr(LEFT))).(eventType := Some(t)))
  }

  /** `$.extend({}, options, {clientX: x, clientY: y})`. */
  function WithClient(o: Options, x: real, y: real): Options {
    o.(clientX := Some(x), clientY := Some(y))
  }

  /** `$.extend({}, options, {clientX: x, clientY: y, relatedTarget: r})`. */
  function WithRelated(o: Options, x: real, y: real, r: Elem): Options {
    o.(clientX := Some(x), clientY := Some(y), relatedTarget := Some(Element(r)))
  }

  /**
   * Options the builder adds always win over the caller's: whatever type,
   * coordinates or relatedTarget the caller passes, the descriptor carries
   * the builder's.
   */
  lemma BuilderOverridesCaller(t: EventType, o: Options, x: real, y: real, r: Elem)
    ensures BuilderEvent(t, WithRelated(o, x, y, r)).ui.event.eventType == Some(t)
    ensures BuilderEvent(t, WithRelated(o, x, y, r)).clientX == x
    ensures BuilderEvent(t, WithRelated(o, x, y, r)).clientY == y
    ensures BuilderEvent(t, WithRelated(o, x, y, r)).relatedTarget == Element(r)
    ensures BuilderEvent(t, WithRelated(o, x, y, r)).button == o.button.GetOr(LEFT)
  {
  }
}
