/**
 * `DialogManager` and `DialogHandler`: requests to show or hide a dialog
 * are emitted as `DialogType` events, and the handler's state follows the
 * events it collects. Callbacks are named by identifiers, and running one
 * is recorded; emission is modelled as completing at once.
 */
module Dialogs {
  import opened Wrappers

  /** A caller-supplied click handler, known by its identity. */
  datatype Callback = Callback(id: nat)

  /** `DialogType`; `NoDialog` is the source's `DialogType.None`. */
  datatype DialogType =
    | Alert(title: string, message: string, confirmButtonText: string, dismissButtonText: Option<string>,
            onConfirm: Callback, onDismiss: Option<Callback>)
    | Progress(message: string)
    | NoDialog

  /** The state after collecting `events` in order, starting from `s`. */
  function Replay(s: DialogType, events: seq<DialogType>): DialogType
    decreases |events|
  {
    if events == [] then s else Replay(events[0], events[1..])
  }

  /** Collecting leaves the state at the last event, or unchanged when there is none. */
  lemma {:induction false} ReplayIsLast(s: DialogType, events: seq<DialogType>)
    ensures Replay(s, events) == if events == [] then s else events[|events| - 1]
    decreases |events|
  {
    if events != [] {
      ReplayIsLast(events[0], events[1..]);
    }
  }

  class DialogManager {
    /** Every event emitted on `dialogFlow`, in order. */
    var emitted: seq<DialogType>
    /** Every caller callback run by a dialog button, in order. */
    var invoked: seq<Callback>

    constructor ()
      ensures emitted == [] && invoked == []
    {
      emitted := [];
      invoked := [];
    }

    /** `showAlert`: the button texts default to "OK" and "Cancel", the dismiss callback to none. */
    method ShowAlert(title: string, message: string, onConfirm: Callback,
                     confirmButtonText: string := "OK", dismissButtonText: Option<string> := Some("Cancel"),
                     onDismiss: Option<Callback> := None)
      modifies this
      ensures emitted == old(emitted) + [Alert(title, message, confirmButtonText, dismissButtonText, onConfirm, onDismiss)]
      ensures invoked == old(invoked)
    {
      emitted := emitted + [Alert(title, message, confirmButtonText, dismissButtonText, onConfirm, onDismiss)];
    }

    /** `showProgress`: the message defaults to "Please wait...". */
    method ShowProgress(message: string := "Please wait...")
      modifies this
      ensures emitted == old(emitted) + [Progress(message)]
      ensures invoked == old(invoked)
    {
      emitted := emitted + [Progress(message)];
    }

    /** `hideDialog`: from whatever state, `None`. */
    method HideDialog()
      modifies this
      ensures emitted == old(emitted) + [NoDialog]
      ensures invoked == old(invoked)
    {
      emitted := emitted + [NoDialog];
    }

    /** The alert's confirm button: the caller's callback, then `None`. */
    method ClickConfirm(alert: DialogType)
      requires alert.Alert?
      modifies this
      ensures invoked == old(invoked) + [alert.onConfirm]
      ensures emitted == old(emitted) + [NoDialog]
    {
      invoked := invoked + [alert.onConfirm];
      emitted := emitted + [NoDialog];
    }

    /**
     * The alert's dismiss: the caller's callback if one was given, then
     * `None`. The wrapper always exists, so dismissing always hides the dialog.
     */
    method ClickDismiss(alert: DialogType)
      requires alert.Alert?
      modifies this
      ensures invoked == old(invoked) + (if alert.onDismiss.Some? then [alert.onDismiss.value] else [])
      ensures emitted == old(emitted) + [NoDialog]
    {
      if alert.onDismiss.Some? {
        invoked := invoked + [alert.onDismiss.value];
      }
      emitted := emitted + [NoDialog];
    }
  }

  class DialogHandler {
    const manager: DialogManager
    /** `dialogState`. */
    var state: DialogType
    /** How many of the manager's events the handler has collected. */
    var seen: nat

    /** The state is the last collected event, or `None` before the first one. */
    predicate Valid()
      reads this, manager
    {
      seen <= |manager.emitted| &&
      state == (if seen == 0 then NoDialog else manager.emitted[seen - 1])
    }

    constructor (manager: DialogManager)
      requires manager.emitted == []
      ensures this.manager == manager && state == NoDialog && seen == 0
      ensures Valid()
    {
      this.manager := manager;
      state := NoDialog;
      seen := 0;
    }

    /** The `LaunchedEffect`'s `collect`, run over every event emitted so far. */
    method Collect()
      requires Valid()
      modifies this
      ensures seen == |manager.emitted|
      ensures state == Replay(old(state), manager.emitted[old(seen)..])
      ensures state == if manager.emitted == [] then NoDialog else manager.emitted[|manager.emitted| - 1]
      ensures Valid()
    {
      ghost var pending := manager.emitted[seen..];
      ReplayIsLast(state, pending);
      while seen < |manager.emitted|
        invariant old(seen) <= seen <= |manager.emitted|
        invariant Valid()
        invariant state == if seen == old(seen) then old(state) else manager.emitted[seen - 1]
        decreases |manager.emitted| - seen
      {
        state := manager.emitted[seen];
        seen := seen + 1;
      }
    }
  }
}
