/** The shared alert/confirm dialog component (components/common/AlertModal.tsx): its defaults,
    its icon per alert type, the backdrop rule, and the press guard that keeps a second press out
    while an asynchronous button action is running. */
module AlertModal {
  import opened Common

  datatype AlertType = Info | Success | Error | Confirm

  datatype ButtonStyle = DefaultStyle | CancelStyle | DestructiveStyle

  /** What a button's `onPress` does, as far as the dialog's users need to know it: resolve the
      pending confirmation with an answer, or run a callback supplied by the caller. */
  datatype PressHandler = ResolvePending(answer: bool) | Custom(name: string)

  datatype AlertButton = AlertButton(text: string, onPress: Option<PressHandler>, style: Option<ButtonStyle>)

  /** What calling a button's `onPress` does at run time. */
  datatype CallResult = ReturnsValue | ReturnsPromise | Throws

  /** The icon drawn above the title and its colour. */
  datatype Icon = Icon(glyph: string, color: string)

  const PrimaryColor: string := "#6C5CE7"
  const AccentColor: string := "#FF7675"
  const SuccessColor: string := "#55efc4"

  /** The single button shown when none is given. */
  const OkButton: AlertButton := AlertButton("확인", None, Some(DefaultStyle))

  /** `type = 'info'`. */
  function EffectiveKind(kind: Option<AlertType>): (k: AlertType)
    ensures kind.Some? ==> k == kind.value
    ensures kind.None? ==> k == Info
  {
    if kind.Some? then kind.value else Info
  }

  /** `buttons = [{ text: '확인', style: 'default' }]`. */
  function EffectiveButtons(buttons: Option<seq<AlertButton>>): (bs: seq<AlertButton>)
    ensures buttons.Some? ==> bs == buttons.value
    ensures buttons.None? ==> bs == [OkButton]
  {
    if buttons.Some? then buttons.value else [OkButton]
  }

  /** `getIconForType`. */
  function IconFor(kind: AlertType): (i: Icon)
    ensures kind == Success ==> i == Icon("✓", SuccessColor)
    ensures kind == Error ==> i == Icon("!", AccentColor)
    ensures kind == Confirm ==> i == Icon("?", PrimaryColor)
    ensures kind == Info ==> i == Icon("i", PrimaryColor)
  {
    match kind
    case Success => Icon("✓", SuccessColor)
    case Error => Icon("!", AccentColor)
    case Confirm => Icon("?", PrimaryColor)
    case _ => Icon("i", PrimaryColor)
  }

  /** Only a confirmation cannot be dismissed by tapping the backdrop. */
  function Dismissable(kind: AlertType): (r: bool)
    ensures r <==> kind != Confirm
  {
    kind != Confirm
  }

  /** Every button is disabled while any press is loading. */
  function ButtonDisabled(loadingIndex: Option<nat>, index: nat): (r: bool)
    ensures r <==> loadingIndex.Some?
  {
    loadingIndex != None
  }

  /** Only the pressed button shows the spinner. */
  function ButtonShowsSpinner(loadingIndex: Option<nat>, index: nat): (r: bool)
    ensures r <==> loadingIndex == Some(index)
  {
    loadingIndex == Some(index)
  }

  /** At most one button shows the spinner, and a button showing it is disabled. */
  lemma SpinnerOnOneDisabledButton(loadingIndex: Option<nat>, i: nat, j: nat)
    requires ButtonShowsSpinner(loadingIndex, i) && ButtonShowsSpinner(loadingIndex, j)
    ensures i == j && ButtonDisabled(loadingIndex, i)
  {
  }

  /** An open dialog. `acceptedPresses` counts the presses the guard let through and `closeCalls`
      the calls of `onClose`; a press waiting on a promise has not closed yet. */
  class AlertModalView {
    const kind: AlertType
    const buttons: seq<AlertButton>
    var loadingIndex: Option<nat>
    var acceptedPresses: nat
    var closeCalls: nat

    /** Every accepted press closes the dialog once, except the one still awaiting its promise. */
    ghost predicate Valid()
      reads this
    {
      && closeCalls + (if loadingIndex.Some? then 1 else 0) == acceptedPresses
      && (loadingIndex.Some? ==> loadingIndex.value < |buttons|)
    }

    /** The component with its props; absent props take their defaults. */
    constructor (kind: Option<AlertType>, buttons: Option<seq<AlertButton>>)
      ensures Valid()
      ensures this.kind == EffectiveKind(kind) && this.buttons == EffectiveButtons(buttons)
      ensures loadingIndex == None && acceptedPresses == 0 && closeCalls == 0
    {
      this.kind := EffectiveKind(kind);
      this.buttons := EffectiveButtons(buttons);
      loadingIndex := None;
      acceptedPresses := 0;
      closeCalls := 0;
    }

    /** `handleButtonPress(buttons[index], index)` up to its first suspension: ignored while a press
        is loading; otherwise a promise returned by `onPress` sets the loading index and waits, and
        every other case (no handler, a plain return, a throw) closes the dialog at once and leaves
        the loading index clear. */
    method Press(index: nat, result: CallResult) returns (accepted: bool)
      requires Valid() && index < |buttons|
      modifies this
      ensures Valid()
      ensures accepted <==> old(loadingIndex).None?
      ensures !accepted ==> loadingIndex == old(loadingIndex) && closeCalls == old(closeCalls) && acceptedPresses == old(acceptedPresses)
      ensures accepted ==> acceptedPresses == old(acceptedPresses) + 1
      ensures accepted && buttons[index].onPress.Some? && result == ReturnsPromise ==>
        loadingIndex == Some(index) && closeCalls == old(closeCalls)
      ensures accepted && !(buttons[index].onPress.Some? && result == ReturnsPromise) ==>
        loadingIndex == None && closeCalls == old(closeCalls) + 1
    {
      if loadingIndex.Some? {
        return false;
      }
      accepted := true;
      acceptedPresses := acceptedPresses + 1;
      if buttons[index].onPress.Some? && result == ReturnsPromise {
        loadingIndex := Some(index);
        return;
      }
      closeCalls := closeCalls + 1;
      loadingIndex := None;
    }

    /** The awaited promise settles, fulfilled or rejected alike: the dialog closes and the loading
        index is cleared. */
    method Settle()
      requires Valid() && loadingIndex.Some?
      modifies this
      ensures Valid()
      ensures loadingIndex == None && closeCalls == old(closeCalls) + 1 && acceptedPresses == old(acceptedPresses)
    {
      closeCalls := closeCalls + 1;
      loadingIndex := None;
    }
  }

  /** A second press while a promise is pending is ignored, and the dialog closes once. */
  method ScenarioDoublePress()
  {
    var view := new AlertModalView(Some(Confirm), Some([AlertButton("저장", Some(Custom("save")), None)]));
    var accepted := view.Press(0, ReturnsPromise);
    assert accepted && view.loadingIndex == Some(0) && view.closeCalls == 0;
    accepted := view.Press(0, ReturnsValue);
    assert !accepted;
    view.Settle();
    assert view.closeCalls == 1 && view.loadingIndex == None;
  }
}
