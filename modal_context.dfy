/** The application-wide modal provider (contexts/ModalContext.tsx): one dialog state shared by
    every screen, `alert` and `confirm` to fill it, and the stored resolver of the pending
    confirmation, which each press or close resolves at most once. A confirmation's promise is
    named by the number of confirmations made before it; `resolutions` records every call of a
    stored resolver, in order. */
module ModalContext {
  import opened Common
  import opened AlertModal

  datatype AlertOptions = AlertOptions(
    title: string, message: Option<string>, kind: Option<AlertType>, buttons: Option<seq<AlertButton>>)

  /** A confirm button is styled 'default' or 'destructive'. */
  type ConfirmStyle = s: ButtonStyle | s != CancelStyle witness DefaultStyle

  datatype ConfirmOptions = ConfirmOptions(
    title: string, message: Option<string>, confirmText: Option<string>, cancelText: Option<string>,
    confirmStyle: Option<ConfirmStyle>)

  /** What the shared dialog shows. */
  datatype ModalState = ModalState(
    visible: bool, title: string, message: Option<string>, kind: AlertType, buttons: seq<AlertButton>)

  /** One call of a stored resolver: which confirmation it answered, with which value. */
  datatype Resolution = Resolution(promise: nat, value: bool)

  const InitialState: ModalState := ModalState(false, "", None, Info, [])

  function OrDefault<T>(o: Option<T>, default: T): T {
    if o.Some? then o.value else default
  }

  /** The dialog `alert` shows: type 'info' and a single '확인' button unless given. */
  function AlertState(o: AlertOptions): (st: ModalState)
    ensures st.visible && st.title == o.title && st.message == o.message
    ensures st.kind == (if o.kind.Some? then o.kind.value else Info)
    ensures st.buttons == (if o.buttons.Some? then o.buttons.value else [OkButton])
  {
    ModalState(true, o.title, o.message, OrDefault(o.kind, Info), OrDefault(o.buttons, [OkButton]))
  }

  /** The dialog `confirm` shows: type 'confirm' and exactly two buttons, cancel (answering false)
      then confirm (answering true), with texts '취소' and '확인' and style 'default' unless given. */
  function ConfirmState(o: ConfirmOptions): (st: ModalState)
    ensures st.visible && st.title == o.title && st.message == o.message && st.kind == Confirm
    ensures |st.buttons| == 2
    ensures st.buttons[0] == AlertButton(OrDefault(o.cancelText, "취소"), Some(ResolvePending(false)), Some(CancelStyle))
    ensures st.buttons[1].text == OrDefault(o.confirmText, "확인")
    ensures st.buttons[1].onPress == Some(ResolvePending(true))
    ensures st.buttons[1].style == Some(if o.confirmStyle.Some? then o.confirmStyle.value else DefaultStyle)
  {
    var cancel := AlertButton(OrDefault(o.cancelText, "취소"), Some(ResolvePending(false)), Some(CancelStyle));
    var ok := AlertButton(OrDefault(o.confirmText, "확인"), Some(ResolvePending(true)), Some(OrDefault<ButtonStyle>(o.confirmStyle, DefaultStyle)));
    ModalState(true, o.title, o.message, Confirm, [cancel, ok])
  }

  /** `useModal`: the context value inside the provider; outside it, an error. */
  function UseModal<T>(context: Option<T>): (r: Result<T>)
    ensures r.Ok? <==> context.Some?
    ensures r.Ok? ==> r.value == context.value
    ensures r.Err? ==> r.message == "useModal must be used within a ModalProvider"
  {
    UseContext(context, "useModal must be used within a ModalProvider")
  }

  /** No confirmation was answered twice. */
  predicate AnsweredAtMostOnce(resolutions: seq<Resolution>) {
    forall k, l :: 0 <= k < l < |resolutions| ==> resolutions[k].promise != resolutions[l].promise
  }

  /** `ModalProvider`: the dialog state, the stored resolver (`pending`: the confirmation it
      answers), the confirmations made so far, the resolver calls so far, and the number of
      scheduled 300 ms resets that have not run yet. */
  class ModalProvider {
    var modalState: ModalState
    var pending: Option<nat>
    var promisesMade: nat
    var resolutions: seq<Resolution>
    var pendingResets: nat

    /** Only confirmations that were made are answered, none twice, and the stored resolver's
        confirmation has not been answered yet. */
    ghost predicate Valid()
      reads this
    {
      && (forall k :: 0 <= k < |resolutions| ==> resolutions[k].promise < promisesMade)
      && AnsweredAtMostOnce(resolutions)
      && (pending.Some? ==> pending.value < promisesMade)
      && (pending.Some? ==> forall k :: 0 <= k < |resolutions| ==> resolutions[k].promise != pending.value)
    }

    constructor ()
      ensures Valid()
      ensures modalState == InitialState && pending == None && promisesMade == 0
      ensures resolutions == [] && pendingResets == 0
    {
      modalState := InitialState;
      pending := None;
      promisesMade := 0;
      resolutions := [];
      pendingResets := 0;
    }

    /** `alert`: shows the dialog; a pending confirmation stays pending. */
    method Alert(o: AlertOptions)
      requires Valid()
      modifies this`modalState
      ensures Valid() && modalState == AlertState(o)
    {
      modalState := AlertState(o);
    }

    /** `confirm`: a new confirmation, whose resolver replaces any stored one. */
    method Confirm(o: ConfirmOptions) returns (promise: nat)
      requires Valid()
      modifies this`modalState, this`pending, this`promisesMade
      ensures Valid()
      ensures promise == old(promisesMade) && promisesMade == promise + 1 && pending == Some(promise)
      ensures modalState == ConfirmState(o)
    {
      promise := promisesMade;
      promisesMade := promisesMade + 1;
      pending := Some(promise);
      modalState := ConfirmState(o);
    }

    /** `resolveRef.current?.(answer); resolveRef.current = null`. */
    method ResolveStored(answer: bool)
      requires Valid()
      modifies this`pending, this`resolutions
      ensures Valid() && pending == None
      ensures resolutions == old(resolutions) + (if old(pending).Some? then [Resolution(old(pending).value, answer)] else [])
    {
      if pending.Some? {
        resolutions := resolutions + [Resolution(pending.value, answer)];
        pending := None;
      }
    }

    /** `closeModal`: hides the dialog and keeps what it shows; the reset to the initial state is
        scheduled. */
    method CloseModal()
      requires Valid()
      modifies this`modalState, this`pendingResets
      ensures Valid()
      ensures modalState == old(modalState).(visible := false) && pendingResets == old(pendingResets) + 1
    {
      modalState := modalState.(visible := false);
      pendingResets := pendingResets + 1;
    }

    /** A scheduled reset runs: the initial state, whatever the dialog shows by then. */
    method ResetTimerFired()
      requires Valid() && pendingResets > 0
      modifies this`modalState, this`pendingResets
      ensures Valid()
      ensures modalState == InitialState && pendingResets == old(pendingResets) - 1
    {
      modalState := InitialState;
      pendingResets := pendingResets - 1;
    }

    /** `handleClose`, the dialog's `onClose`: a still-pending confirmation is answered false, then
        the dialog closes. */
    method HandleClose()
      requires Valid()
      modifies this
      ensures Valid() && pending == None && promisesMade == old(promisesMade)
      ensures resolutions == old(resolutions) + (if old(pending).Some? then [Resolution(old(pending).value, false)] else [])
      ensures modalState == old(modalState).(visible := false) && pendingResets == old(pendingResets) + 1
    {
      ResolveStored(false);
      CloseModal();
    }

    /** The dialog delivers a press of one of its buttons whose action has returned: the button's
        action, then `onClose`. A confirm button answers the stored resolver with its value; the
        close that follows then finds no resolver, so one press answers at most once. */
    method PressButton(index: nat)
      requires Valid() && modalState.visible && index < |modalState.buttons|
      modifies this
      ensures Valid() && pending == None && promisesMade == old(promisesMade)
      ensures resolutions == old(resolutions) + (
        if old(pending).None? then []
        else match old(modalState).buttons[index].onPress
          case Some(ResolvePending(answer)) => [Resolution(old(pending).value, answer)]
          case _ => [Resolution(old(pending).value, false)])
      ensures modalState == old(modalState).(visible := false) && pendingResets == old(pendingResets) + 1
    {
      match modalState.buttons[index].onPress {
        case Some(ResolvePending(answer)) => ResolveStored(answer);
        case _ =>
      }
      HandleClose();
    }
  }

  /** Confirming answers true once; a close after it answers nothing more. */
  method ScenarioConfirmThenClose()
  {
    var m := new ModalProvider();
    var p := m.Confirm(ConfirmOptions("삭제 확인", None, Some("삭제"), None, Some(DestructiveStyle)));
    assert m.modalState.buttons[1].onPress == Some(ResolvePending(true));
    m.PressButton(1);
    assert m.resolutions == [Resolution(p, true)];
    m.HandleClose();
    assert m.resolutions == [Resolution(p, true)];
  }

  /** A second confirmation replaces the stored resolver: the first is never answered. */
  method ScenarioReplacedConfirm()
  {
    var m := new ModalProvider();
    var p0 := m.Confirm(ConfirmOptions("첫 번째", None, None, None, None));
    var p1 := m.Confirm(ConfirmOptions("두 번째", None, None, None, None));
    assert m.modalState.buttons[0].onPress == Some(ResolvePending(false));
    m.PressButton(0);
    assert m.resolutions == [Resolution(p1, false)] && p0 != p1;
  }

  /** A reset scheduled by an earlier close also clears an alert shown after that close. */
  method ScenarioResetAfterLaterAlert()
  {
    var m := new ModalProvider();
    m.Alert(AlertOptions("완료", None, Some(Success), None));
    m.HandleClose();
    m.Alert(AlertOptions("오류", Some("다시 시도해주세요."), Some(Error), None));
    assert m.modalState.visible;
    m.ResetTimerFired();
    assert !m.modalState.visible && m.modalState == InitialState;
  }
}
