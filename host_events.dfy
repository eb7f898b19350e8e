/** The page-level wiring of the phone-field controller: the document-ready
    callbacks that create the global controller and the page-builder
    integration once, and the fixed table from host events (page-builder popup
    events, clicks, key presses) to delayed controller actions.

    Timers are not modelled as time: a reaction is the action together with the
    delay it is scheduled with, and running it is a separate call of `Page.Run`. */
module HostEvents {
  import opened Options
  import opened PhoneField

  /** The events the ready callbacks listen to on `document`. */
  datatype HostEvent =
    | PopupShow               // `elementor/popup/show`
    | PopupHide               // `elementor/popup/hide`
    | PopupOpen               // `elementor/popup/open`
    | PopupClose              // `elementor/popup/close`
    | CloseButtonClick        // `click` on `.elementor-popup-modal-close`
    | KeyDown(key: string)    // `keydown`, with `e.key`
    | OtherEvent

  /** What a handler asks of the global controller, when it exists. */
  datatype Action = ForceReinitAll | CleanupPopups

  /** An action and the `setTimeout` delay in milliseconds it runs after (0: at once). */
  datatype Reaction = Reaction(action: Action, delay: nat)

  /** The handlers registered by the controller's ready callback. */
  function ControllerReactions(e: HostEvent): seq<Reaction> {
    match e
    case PopupShow => [Reaction(ForceReinitAll, 300)]
    case PopupHide => [Reaction(CleanupPopups, 0)]
    case PopupOpen => [Reaction(ForceReinitAll, 500)]
    case PopupClose => [Reaction(CleanupPopups, 0)]
    case CloseButtonClick => [Reaction(CleanupPopups, 100)]
    case KeyDown(key) => if key == "Escape" then [Reaction(CleanupPopups, 100)] else []
    case OtherEvent => []
  }

  /** The popup handlers registered by the page-builder integration, on top of
      the controller's own. */
  function IntegrationReactions(e: HostEvent): seq<Reaction> {
    match e
    case PopupShow => [Reaction(ForceReinitAll, 300)]
    case PopupHide => [Reaction(CleanupPopups, 0)]
    case _ => []
  }

  /** Everything an event schedules, given whether the integration was loaded. */
  function Reactions(e: HostEvent, integration: bool): seq<Reaction> {
    ControllerReactions(e) + if integration then IntegrationReactions(e) else []
  }

  /** Opening or showing a popup schedules a full re-initialisation and nothing
      else; hiding or closing one, its close button and the Escape key schedule a
      popup clean-up and nothing else; every other event schedules nothing. */
  lemma ReactionKinds(e: HostEvent, integration: bool)
    ensures forall r :: r in Reactions(e, integration) ==>
              (r.action == ForceReinitAll <==> e == PopupShow || e == PopupOpen)
    ensures Reactions(e, integration) != [] <==>
              e.PopupShow? || e.PopupOpen? || e.PopupHide? || e.PopupClose? || e.CloseButtonClick?
              || e == KeyDown("Escape")
  {
  }

  /** The delays: a re-initialisation waits 300 ms after `show` and 500 ms after
      `open`; a clean-up runs at once on `hide` and `close` and 100 ms after the
      close button or the Escape key. */
  lemma ReactionDelays(e: HostEvent, integration: bool)
    ensures forall r :: r in Reactions(e, integration) ==>
              r.delay == match e
                         case PopupShow => 300
                         case PopupOpen => 500
                         case PopupHide => 0
                         case PopupClose => 0
                         case _ => 100
  {
  }

  /** With the integration loaded, `show` re-initialises twice and `hide` cleans
      up twice; the other events react once. */
  lemma IntegrationDoublesShowAndHide(e: HostEvent)
    ensures |Reactions(e, true)| == |Reactions(e, false)| + (if e.PopupShow? || e.PopupHide? then 1 else 0)
    ensures (e.PopupShow? || e.PopupHide?) ==> Reactions(e, true)[0] == Reactions(e, true)[1]
  {
  }

  /** Of all key presses, only Escape reacts. */
  lemma OnlyEscapeKeyReacts(key: string, integration: bool)
    ensures Reactions(KeyDown(key), integration) != [] <==> key == "Escape"
  {
  }

  /** The globals of the page: `window.ddiPhoneField` and whether
      `window.ddiPhoneFieldElementor` was set. */
  class Page {
    var controller: Controller?
    var integration: bool

    ghost predicate Valid()
      reads this, controller
    {
      controller != null ==> controller.Valid()
    }

    constructor ()
      ensures controller == null && !integration
    {
      controller := null;
      integration := false;
    }

    /** The controller's ready callback: create the controller only if there is
        none yet; `created` says whether this call created it. */
    method ReadyController(inputs: map<FieldId, Input>, order: seq<FieldId>,
                           maskPlugin: bool, widgetMarksInput: bool, build: FieldId -> Option<Handle>)
      returns (created: bool)
      requires Valid() && Coherent(map[], inputs, order)
      modifies this`controller
      ensures Valid()
      ensures created <==> old(controller) == null
      ensures !created ==> controller == old(controller)
      ensures created ==> controller != null && fresh(controller)
                          && controller.order == order && controller.maskPlugin == maskPlugin
                          && Snapshot(controller.phoneFields, controller.inputs, {})
                             == AttachAll(Snapshot(map[], inputs, {}), Unmarked(order, inputs), build, maskPlugin, widgetMarksInput)
    {
      if controller != null {
        return false;
      }
      controller := new Controller(inputs, order, maskPlugin, widgetMarksInput, build);
      return true;
    }

    /** The integration's ready callback: create it only once. */
    method ReadyIntegration() returns (created: bool)
      modifies this`integration
      ensures created <==> !old(integration)
      ensures integration
    {
      if integration {
        return false;
      }
      integration := true;
      return true;
    }

    /** A scheduled reaction (or the integration's `forceReinit`) running: the
        action is applied to the controller if it exists and is skipped
        otherwise. `rescan` says whether a re-scan of the document was scheduled. */
    method Run(a: Action) returns (rescan: bool)
      requires Valid()
      modifies if controller != null then {controller} else {}
      ensures controller == old(controller) && Valid()
      ensures controller == null ==> !rescan
      ensures controller != null ==>
                controller.popupObserverConnected == old(controller.popupObserverConnected)
                && controller.contentObserverConnected == old(controller.contentObserverConnected)
                && controller.order == old(controller.order)
      ensures controller != null && a == ForceReinitAll ==>
                controller.phoneFields == map[] && rescan == controller.maskPlugin
                && controller.disposed == old(controller.disposed) + Destroyable(old(controller.phoneFields), old(controller.phoneFields).Keys)
                && controller.inputs == if !controller.maskPlugin then old(controller.inputs)
                                        else map f | f in old(controller.inputs) ::
                                               old(controller.inputs)[f].(mask := Unmasked, widgetMarker := false, popupMarker := false)
      ensures controller != null && a == CleanupPopups ==>
                !rescan && controller.inputs == old(controller.inputs)
                && controller.phoneFields == Kept(old(controller.phoneFields), controller.inputs, old(controller.phoneFields).Keys)
                && controller.disposed == old(controller.disposed)
                                          + Destroyable(old(controller.phoneFields),
                                                        Gone(old(controller.phoneFields), controller.inputs, old(controller.phoneFields).Keys))
    {
      if controller == null {
        return false;
      }
      match a
      case ForceReinitAll =>
        rescan := controller.ForceReinit();
      case CleanupPopups =>
        controller.CleanupPopupFields();
        rescan := false;
    }
  }
}
