/** The notification-schedule editor (hooks/notification-schedule/use-notification-schedule-form.ts):
    the form's state, the "H:mm"/"HH:mm" time check, saving as a create or an update, and deleting
    after a confirmation. A mutation's server answer is a parameter of the action that issues it. */
module NotificationScheduleForm {
  import opened Common
  import opened Enums
  import opened Text
  import opened AlertModal
  import opened ModalContext

  datatype NotificationSchedule = NotificationSchedule(id: int, dayOfWeek: DayOfWeek, notificationTime: string)

  /** The requests the form sends to the server. */
  datatype Mutation =
    | CreateSchedule(dayOfWeek: DayOfWeek, notificationTime: string)
    | UpdateSchedule(id: int, dayOfWeek: DayOfWeek, notificationTime: string)
    | DeleteSchedule(id: int)

  /** How a mutation ends; a failure carries the thrown error's `message`, if it has one. */
  datatype MutationOutcome = Succeeded | Failed(errorMessage: Option<string>)

  const DefaultTime: string := "09:00"
  const DefaultDay: DayOfWeek := Monday
  const RetryMessage: string := "다시 시도해주세요."
  const InvalidTimeAlert: AlertOptions := AlertOptions("오류", Some("올바른 시간 형식을 입력해주세요 (HH:mm)"), Some(Error), None)
  const DeleteConfirmation: ConfirmOptions := ConfirmOptions("삭제 확인", Some("이 스케줄을 삭제하시겠습니까?"), Some("삭제"), None, Some(DestructiveStyle))

  /** A two-digit hour 00-23. */
  predicate TwoDigitHour(a: char, b: char) {
    ((a == '0' || a == '1') && IsDigit(b)) || (a == '2' && '0' <= b <= '3')
  }

  /** A two-digit minute 00-59. */
  predicate TwoDigitMinute(a: char, b: char) {
    '0' <= a <= '5' && IsDigit(b)
  }

  /** `validateTime`: the whole text is an optional-leading-zero hour 0-23, a colon and a two-digit
      minute. */
  predicate ValidTime(s: string) {
    || (|s| == 4 && IsDigit(s[0]) && s[1] == ':' && TwoDigitMinute(s[2], s[3]))
    || (|s| == 5 && TwoDigitHour(s[0], s[1]) && s[2] == ':' && TwoDigitMinute(s[3], s[4]))
  }

  /** The reference: the text of hour `h` and minute `m`, the hour in two digits when `padded`. */
  function TimeText(h: nat, m: nat, padded: bool): (r: string)
    requires h < 24 && m < 60 && (!padded ==> h < 10)
    ensures |r| == (if padded then 5 else 4)
  {
    (if padded then [DigitChar(h / 10), DigitChar(h % 10)] else [DigitChar(h)])
      + [':', DigitChar(m / 10), DigitChar(m % 10)]
  }

  /** The hour an accepted time names. */
  function HourOf(s: string): (h: nat)
    requires ValidTime(s)
    ensures h < 24 && (|s| == 4 ==> h < 10)
  {
    if |s| == 4 then DigitValue(s[0]) else 10 * DigitValue(s[0]) + DigitValue(s[1])
  }

  /** The minute an accepted time names. */
  function MinuteOf(s: string): (m: nat)
    requires ValidTime(s)
    ensures m < 60
  {
    10 * DigitValue(s[|s| - 2]) + DigitValue(s[|s| - 1])
  }

  /** Every time of day is accepted, written with or without the hour's leading zero. */
  lemma TimeTextIsValid(h: nat, m: nat, padded: bool)
    requires h < 24 && m < 60 && (!padded ==> h < 10)
    ensures ValidTime(TimeText(h, m, padded))
  {
    var t := TimeText(h, m, padded);
    assert t[|t| - 2] == DigitChar(m / 10) && m / 10 < 6;
    if padded {
      assert t[0] == DigitChar(h / 10) && t[1] == DigitChar(h % 10);
      assert h / 10 <= 2 && (h / 10 == 2 ==> h % 10 <= 3);
    }
  }

  /** Every accepted text is the text of the time it names, so nothing else is accepted. */
  lemma ValidTimeIsTimeText(s: string)
    requires ValidTime(s)
    ensures s == TimeText(HourOf(s), MinuteOf(s), |s| == 5)
  {
    var h, m := HourOf(s), MinuteOf(s);
    assert m / 10 == DigitValue(s[|s| - 2]) && m % 10 == DigitValue(s[|s| - 1]);
    if |s| == 5 {
      assert h / 10 == DigitValue(s[0]) && h % 10 == DigitValue(s[1]);
    }
  }

  lemma ValidTimeExamples()
    ensures ValidTime("09:00") && ValidTime("9:05") && ValidTime("23:59") && ValidTime("0:00")
    ensures !ValidTime("24:00") && !ValidTime("09:5") && !ValidTime("12:60") && !ValidTime("009:00") && !ValidTime("")
  {
  }

  /** `err?.message || '다시 시도해주세요.'`: an absent or empty message falls back to the retry hint. */
  function FailureMessage(errorMessage: Option<string>): (r: string)
    ensures r != []
    ensures errorMessage.Some? && errorMessage.value != [] ==> r == errorMessage.value
    ensures errorMessage.None? || errorMessage.value == [] ==> r == RetryMessage
  {
    if errorMessage.Some? && errorMessage.value != [] then errorMessage.value else RetryMessage
  }

  /** The error alert shown when a save fails, titled by whether an edit or a creation failed. */
  function SaveFailedAlert(editing: bool, errorMessage: Option<string>): (a: AlertOptions)
    ensures a.title == (if editing then "수정 실패" else "생성 실패")
    ensures a.message == Some(FailureMessage(errorMessage)) && a.kind == Some(Error) && a.buttons == None
  {
    AlertOptions(if editing then "수정 실패" else "생성 실패", Some(FailureMessage(errorMessage)), Some(Error), None)
  }

  /** `useNotificationScheduleForm`'s state. */
  class ScheduleForm {
    var modalVisible: bool
    var editingSchedule: Option<NotificationSchedule>
    var selectedDay: DayOfWeek
    var time: string
    var showDayPicker: bool

    /** The fields a reset restores: Monday, 09:00, nothing being edited. */
    predicate IsReset()
      reads this
    {
      selectedDay == DefaultDay && time == DefaultTime && editingSchedule == None
    }

    constructor ()
      ensures IsReset() && !modalVisible && !showDayPicker
    {
      modalVisible := false;
      editingSchedule := None;
      selectedDay := DefaultDay;
      time := DefaultTime;
      showDayPicker := false;
    }

    method SetModalVisible(visible: bool)
      modifies this`modalVisible
      ensures modalVisible == visible
    {
      modalVisible := visible;
    }

    method SetShowDayPicker(show: bool)
      modifies this`showDayPicker
      ensures showDayPicker == show
    {
      showDayPicker := show;
    }

    method SetSelectedDay(day: DayOfWeek)
      modifies this`selectedDay
      ensures selectedDay == day
    {
      selectedDay := day;
    }

    /** The time field takes any text; it is checked on save. */
    method SetTime(text: string)
      modifies this`time
      ensures time == text
    {
      time := text;
    }

    /** `resetForm`. */
    method ResetForm()
      modifies this`selectedDay, this`time, this`editingSchedule
      ensures IsReset()
    {
      selectedDay := DefaultDay;
      time := DefaultTime;
      editingSchedule := None;
    }

    /** `openCreateModal`: an empty form, shown. */
    method OpenCreateModal()
      modifies this`selectedDay, this`time, this`editingSchedule, this`modalVisible
      ensures IsReset() && modalVisible
    {
      ResetForm();
      modalVisible := true;
    }

    /** `openEditModal`: the form filled from the schedule, shown, and remembering it. */
    method OpenEditModal(schedule: NotificationSchedule)
      modifies this`selectedDay, this`time, this`editingSchedule, this`modalVisible
      ensures editingSchedule == Some(schedule) && modalVisible
      ensures selectedDay == schedule.dayOfWeek && time == schedule.notificationTime
    {
      editingSchedule := Some(schedule);
      selectedDay := schedule.dayOfWeek;
      time := schedule.notificationTime;
      modalVisible := true;
    }

    /** `closeModal`: hidden and reset. */
    method CloseModal()
      modifies this`selectedDay, this`time, this`editingSchedule, this`modalVisible
      ensures IsReset() && !modalVisible
    {
      modalVisible := false;
      ResetForm();
    }

    /** `handleSave`: a malformed time raises the error alert and sends nothing; otherwise an update
        of the schedule being edited, or a creation, carrying the chosen day and time. Success hides
        and resets the form; failure keeps it and raises an error alert. */
    method HandleSave(outcome: MutationOutcome) returns (issued: Option<Mutation>, alert: Option<AlertOptions>)
      modifies this`selectedDay, this`time, this`editingSchedule, this`modalVisible
      ensures !ValidTime(old(time)) ==> issued == None && alert == Some(InvalidTimeAlert)
      ensures ValidTime(old(time)) && old(editingSchedule).Some? ==>
        issued == Some(UpdateSchedule(old(editingSchedule).value.id, old(selectedDay), old(time)))
      ensures ValidTime(old(time)) && old(editingSchedule).None? ==>
        issued == Some(CreateSchedule(old(selectedDay), old(time)))
      ensures ValidTime(old(time)) && outcome.Succeeded? ==> alert == None && IsReset() && !modalVisible
      ensures ValidTime(old(time)) && outcome.Failed? ==>
        alert == Some(SaveFailedAlert(old(editingSchedule).Some?, outcome.errorMessage))
      ensures !(ValidTime(old(time)) && outcome.Succeeded?) ==>
        modalVisible == old(modalVisible) && editingSchedule == old(editingSchedule)
        && selectedDay == old(selectedDay) && time == old(time)
    {
      if !ValidTime(time) {
        return None, Some(InvalidTimeAlert);
      }
      var editing := editingSchedule;
      if editing.Some? {
        issued := Some(UpdateSchedule(editing.value.id, selectedDay, time));
      } else {
        issued := Some(CreateSchedule(selectedDay, time));
      }
      match outcome
      case Succeeded =>
        modalVisible := false;
        ResetForm();
        alert := None;
      case Failed(message) =>
        alert := Some(SaveFailedAlert(editing.Some?, message));
    }

    /** `handleDelete`: asks for confirmation; only a confirmed deletion is sent, and only its failure
        raises an alert. The form's state is not touched. */
    method HandleDelete(schedule: NotificationSchedule, confirmed: bool, outcome: MutationOutcome)
      returns (request: ConfirmOptions, issued: Option<Mutation>, alert: Option<AlertOptions>)
      ensures request == DeleteConfirmation
      ensures issued.Some? <==> confirmed
      ensures confirmed ==> issued == Some(DeleteSchedule(schedule.id))
      ensures alert.Some? <==> confirmed && outcome.Failed?
      ensures alert.Some? ==> alert.value == AlertOptions("삭제 실패", Some(FailureMessage(outcome.errorMessage)), Some(Error), None)
    {
      request := DeleteConfirmation;
      if !confirmed {
        return request, None, None;
      }
      issued := Some(DeleteSchedule(schedule.id));
      alert := if outcome.Failed? then Some(AlertOptions("삭제 실패", Some(FailureMessage(outcome.errorMessage)), Some(Error), None)) else None;
    }
  }

  /** Editing a schedule and saving it successfully sends an update and leaves an empty, hidden form. */
  method ScenarioEditAndSave()
  {
    var form := new ScheduleForm();
    form.OpenEditModal(NotificationSchedule(7, Friday, "21:30"));
    form.SetTime("7:45");
    assert ValidTime("7:45");
    var issued, alert := form.HandleSave(Succeeded);
    assert issued == Some(UpdateSchedule(7, Friday, "7:45")) && alert == None;
    assert form.IsReset() && !form.modalVisible;
  }

  /** A malformed time sends nothing and keeps the form as it was. */
  method ScenarioBadTime()
  {
    var form := new ScheduleForm();
    form.OpenCreateModal();
    form.SetTime("24:00");
    assert !ValidTime("24:00");
    var issued, alert := form.HandleSave(Succeeded);
    assert issued == None && alert == Some(InvalidTimeAlert) && form.modalVisible && form.time == "24:00";
  }
}
