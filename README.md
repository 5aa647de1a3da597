# voco-app client core, modelled in Dafny

This project models the stateful and pure logic of the voco-app React Native client, a Korean
conversation-practice app, and proves properties of that model. The screens, styling, SDK wrappers
and REST plumbing are not modelled. There is one Dafny module per modelled source file, plus four
shared modules:

- `Common`: `Option`, `Result`, and reading a React context through its hook.
- `Text`: JavaScript's `\s` whitespace set, `trim`, `includes`/`indexOf`, and integer-to-decimal text.
- `Seqs`: `filter` with `!==`.
- `Enums`: the enumerations from `constants/enums.ts`.

What each module models:

- **LiveKitSession** (`hooks/use-livekit.ts`): the voice-room session.
  - A class `Session` holds the fields `room`, `connectionState`, `isConnecting`, `isMicEnabled`, `participants` and `messages`.
  - Its methods are the transport's event handlers and the actions `connect`, `disconnect`, `toggleMic` and `sendMessage`.
  - The transport stays abstract. Each action takes the outcomes of its transport calls as parameters: whether they resolve, the fetched token and the remote participants.
  - Each action also takes the clock reading that stamps the messages it adds.
  - A received payload is given as the value that `JSON.parse` produces, or as a parse failure.
- **SocialSignUp** (`hooks/use-social-signup.tsx`): the optional sign-up draft.
  - Each updater is a function of the current draft.
  - `SocialSignUpProvider` holds the one mutable field.
- **NotificationScheduleForm** (`hooks/notification-schedule/use-notification-schedule-form.ts`): the schedule editor's state.
  - The `HH:mm` check is written as a string predicate and characterized exactly.
  - Save and delete return the mutation they send and the alert they raise. The server's answer is a parameter.
- **ScenarioSelection** (`hooks/scenario/use-scenario-selection.ts`): the level tab and the chosen scenario.
- **InfiniteCalls** (`hooks/calls/use-infinite-calls.ts`): call-history paging.
  - It covers the next-page rule, the merge of pages with repeated call ids dropped, and the total.
  - It also covers the debounced end-of-list trigger, with the clock and the query flags as parameters.
- **ModalContext** (`contexts/ModalContext.tsx`) and **AlertModal** (`components/common/AlertModal.tsx`): the app-wide dialog.
  - `ModalProvider` records every call of a stored confirmation resolver. Its invariant states that no confirmation is answered twice.
  - `AlertModalView` models the press guard: a press that returns a promise waits in `Press` and finishes in `Settle`.
- **Api** (`types/api.ts`): `createServerError`.
- **Score** (`utils/score.ts`) and **RelativeDate** (`utils/format/date.ts`): threshold classifiers.
  - Scores are reals.
  - Elapsed time is an integer count of milliseconds. Dafny's `/` with a positive divisor is `Math.floor`.
- **CodePushPlugin** (`plugins/withCodePush.js`) and **KakaoMavenRepoPlugin** (`plugins/withKakaoMavenRepo.js`): the build-file patches, as functions from old file text to new.
  - The deployment-key step appends to a resource list in place, so it is a class method.

Notes on `hooks/use-livekit.ts` that the model follows:

- The hook has no agent detection, no transcription merging and no local-identity tracking. The model has none either.
- Participants are appended on join without removing duplicates. A leave removes every copy.
- `connect` enables the microphone on the transport but never writes `isMicEnabled`. The model records the value last sent to the transport (`micRequested`) apart from the flag.
- The configuration has no `defaultRoom`, so `roomName` starts undefined (`None`).
- The configured token endpoint is a constructor parameter. The shipped configuration's value is the empty string.
- `fetchLiveKitToken` throws rather than return an empty token (utils/livekit/token.ts:26-28), so a fetched token is never empty and the alert '토큰 발급에 실패했습니다.' is never shown.

## Model

| member | source | states |
|---|---|---|
| LiveKitSession.Session.constructor | hooks/use-livekit.ts:56-70 | Initial state: default server URL, empty token, no room name, Disconnected, no room, not connecting, microphone on, no participants, no messages |
| LiveKitSession.Session.IsConnected | hooks/use-livekit.ts:257 | Connected exactly when the connection state is Connected |
| LiveKitSession.Session.SetServerUrl | hooks/use-livekit.ts:56 | The server URL becomes the given text |
| LiveKitSession.Session.SetToken | hooks/use-livekit.ts:57 | The token becomes the given text |
| LiveKitSession.Session.SetRoomName | hooks/use-livekit.ts:58 | The room name becomes the given text |
| LiveKitSession.Session.OnConnectionStateChanged | hooks/use-livekit.ts:99-101 | The connection state becomes the reported one, and only it changes |
| LiveKitSession.Session.OnParticipantConnected | hooks/use-livekit.ts:103-109 | The identity is appended at the end, without deduplication; exactly one System "joined" message is appended |
| LiveKitSession.Session.OnParticipantDisconnected | hooks/use-livekit.ts:111-119 | Every copy of the identity is removed and the others keep their order; exactly one System "left" message is appended |
| LiveKitSession.ReceivedChat | hooks/use-livekit.ts:124-136 | A message is produced exactly when the payload parses to an object whose `type` is 'chat'; it carries the payload's `text`, its sender is the participant identity or 'Unknown', it is not local, and it carries the clock reading |
| LiveKitSession.Session.OnDataReceived | hooks/use-livekit.ts:121-141 | A payload that parses to an object of type 'chat' appends exactly one message at the end and keeps the earlier log; a payload that does not parse or is not of type 'chat' leaves the log unchanged |
| LiveKitSession.ChatPayloadRoundTrip | hooks/use-livekit.ts:227-237 | The payload sendMessage builds is received as a chat message with the same text |
| LiveKitSession.Session.Connect | hooks/use-livekit.ts:156-204 | An empty URL alerts and touches nothing. A token is fetched only when none was entered and an endpoint exists; a fetch yields a non-empty token or throws, so the token-issue alert never appears. No token means no room and the matching alert. After line 163 `isConnecting` always ends false. Success sets the participant snapshot, a freshly created room different from any room held before, and one system message. Any failure leaves room, participants and log unchanged and alerts |
| LiveKitSession.Session.Disconnect | hooks/use-livekit.ts:207-215 | No room: nothing changes. Otherwise room cleared, Disconnected, participants and messages emptied; the microphone flag and everything else unchanged |
| LiveKitSession.Session.ToggleMic | hooks/use-livekit.ts:218-224 | No room: nothing changes. Otherwise the flag is negated once the transport call resolves, so two toggles restore it |
| LiveKitSession.Session.SendMessage | hooks/use-livekit.ts:227-255 | No room or blank text: nothing is published and nothing changes. Otherwise the trimmed text is published, and only if publishing resolves is one local 'Me' message with the trimmed text appended |
| Seqs.Without | hooks/use-livekit.ts:114-116 | The filtered list is no longer. It holds only elements of the input other than x, and every element other than x |
| Seqs.WithoutConcat | hooks/use-social-signup.tsx:75 | Filtering a concatenation filters each part, so order is kept |
| Seqs.WithoutCounts | hooks/use-livekit.ts:114-116 | The filter keeps every other element as many times as it occurred, and no copy of x |
| Seqs.WithoutAbsent | hooks/use-social-signup.tsx:75 | Filtering out an absent element changes nothing |
| Seqs.WithoutNoDuplicates | hooks/use-social-signup.tsx:75 | Filtering keeps a duplicate-free list duplicate-free |
| Seqs.AppendNoDuplicates | hooks/use-social-signup.tsx:76 | Appending an absent element keeps a list duplicate-free |
| Text.TrimStart | hooks/use-livekit.ts:229 | Result is a suffix obtained by dropping only whitespace, and it starts with a non-whitespace character; empty exactly for blank input |
| Text.TrimEnd | hooks/use-livekit.ts:229 | Result is a prefix obtained by dropping only whitespace, and it ends with a non-whitespace character; empty exactly for blank input |
| Text.Trim | hooks/use-livekit.ts:229 | `trim()` is the infix of its input left after removing the leading and the trailing whitespace: what is removed at each end is blank, the result is empty exactly for blank input, and it has no whitespace at either end |
| Text.TrimIdempotent | hooks/use-social-signup.tsx:57-58 | Trimming trimmed text changes nothing |
| Text.IndexFrom | plugins/withCodePush.js:21 | Finds the first occurrence at or after k, or reports that there is none |
| Text.ContainsTransitive | plugins/withKakaoMavenRepo.js:12 | A string containing m contains whatever m contains |
| Text.InsertAt | plugins/withKakaoMavenRepo.js:22-25 | Insertion keeps the text before and after the insertion point |
| Text.NatText | hooks/use-livekit.ts:87 | Decimal text of a number: non-empty digits, with no leading zero |
| Text.NatTextValue | hooks/use-livekit.ts:87 | The decimal text reads back as the number |
| Text.NatTextInjective | hooks/use-livekit.ts:87 | Distinct natural numbers have distinct decimal texts |
| Text.IntTextSign | utils/format/date.ts:24 | An integer's text starts with '-' exactly when it is negative |
| Text.IntTextInjective | utils/format/date.ts:24 | Distinct integers have distinct decimal texts |
| SocialSignUp.Started | hooks/use-social-signup.tsx:39-46 | The draft has the given provider and idToken, empty names, no level and no categories |
| SocialSignUp.WithNames | hooks/use-social-signup.tsx:53-61 | A missing draft stays missing. Otherwise both names are stored trimmed, and provider, idToken, level and categories are unchanged |
| SocialSignUp.WithLevel | hooks/use-social-signup.tsx:65 | A missing draft stays missing; otherwise only the level changes |
| SocialSignUp.Toggled | hooks/use-social-signup.tsx:73-76 | The category is in the result exactly when it was not present; an absent category is appended at the end, a present one is filtered out with the others kept in order; every other category is kept, and nothing else is added |
| SocialSignUp.WithCategoryToggled | hooks/use-social-signup.tsx:71-78 | A missing draft stays missing; otherwise only the categories change, by the toggle |
| SocialSignUp.UpdatersKeepWellFormed | hooks/use-social-signup.tsx:39-79 | Each updater keeps the categories duplicate-free, so no draft reached from `start` holds a duplicate |
| SocialSignUp.ToggleAbsentTwice | hooks/use-social-signup.tsx:73-76 | Toggling an absent category twice restores the list exactly |
| SocialSignUp.TogglePresentTwice | hooks/use-social-signup.tsx:73-76 | Toggling a present category twice moves it to the end and keeps the other categories in order |
| SocialSignUp.UseSocialSignUp | hooks/use-social-signup.tsx:93-99 | Returns the context value inside the provider, and the error with its message outside it |
| SocialSignUp.SocialSignUpProvider.constructor | hooks/use-social-signup.tsx:32 | There is no draft at first |
| SocialSignUp.SocialSignUpProvider.Start | hooks/use-social-signup.tsx:35-47 | The draft becomes the fresh draft, from any state |
| SocialSignUp.SocialSignUpProvider.SetNames | hooks/use-social-signup.tsx:49-62 | The draft becomes WithNames of the old one, and stays duplicate-free |
| SocialSignUp.SocialSignUpProvider.SetLevel | hooks/use-social-signup.tsx:64-66 | The draft becomes WithLevel of the old one |
| SocialSignUp.SocialSignUpProvider.ToggleCategory | hooks/use-social-signup.tsx:68-79 | The draft becomes WithCategoryToggled of the old one, and stays duplicate-free |
| SocialSignUp.SocialSignUpProvider.Reset | hooks/use-social-signup.tsx:81 | There is no draft, from any state |
| NotificationScheduleForm.HourOf | hooks/notification-schedule/use-notification-schedule-form.ts:74 | An accepted time names an hour below 24; a three-character hour-and-colon form names an hour below 10 |
| NotificationScheduleForm.MinuteOf | hooks/notification-schedule/use-notification-schedule-form.ts:74 | An accepted time names a minute below 60 |
| NotificationScheduleForm.TimeTextIsValid | hooks/notification-schedule/use-notification-schedule-form.ts:73-76 | Every time 0-23:00-59 is accepted, with or without the hour's leading zero |
| NotificationScheduleForm.ValidTimeIsTimeText | hooks/notification-schedule/use-notification-schedule-form.ts:73-76 | Every accepted text is exactly such a time's text, so nothing else is accepted |
| NotificationScheduleForm.ValidTimeExamples | hooks/notification-schedule/use-notification-schedule-form.ts:26-75 | "09:00" (the default), "9:05", "23:59" and "0:00" are accepted; "24:00", "09:5", "12:60", "009:00" and "" are rejected |
| NotificationScheduleForm.FailureMessage | hooks/notification-schedule/use-notification-schedule-form.ts:95 | The error's message when present and non-empty, otherwise '다시 시도해주세요.' |
| NotificationScheduleForm.SaveFailedAlert | hooks/notification-schedule/use-notification-schedule-form.ts:92-98 | Error alert titled '수정 실패' when editing and '생성 실패' when creating, with the failure message |
| NotificationScheduleForm.ScheduleForm.constructor | hooks/notification-schedule/use-notification-schedule-form.ts:22-27 | Modal hidden, Monday, '09:00', nothing being edited, day picker hidden |
| NotificationScheduleForm.ScheduleForm.SetModalVisible | hooks/notification-schedule/use-notification-schedule-form.ts:22 | Sets the modal's visibility |
| NotificationScheduleForm.ScheduleForm.SetShowDayPicker | hooks/notification-schedule/use-notification-schedule-form.ts:27 | Sets the day picker's visibility |
| NotificationScheduleForm.ScheduleForm.SetSelectedDay | hooks/notification-schedule/use-notification-schedule-form.ts:25 | Sets the selected day |
| NotificationScheduleForm.ScheduleForm.SetTime | hooks/notification-schedule/use-notification-schedule-form.ts:26 | Sets the time text, unchecked |
| NotificationScheduleForm.ScheduleForm.ResetForm | hooks/notification-schedule/use-notification-schedule-form.ts:38-42 | Monday, '09:00', nothing being edited; modal and picker untouched |
| NotificationScheduleForm.ScheduleForm.OpenCreateModal | hooks/notification-schedule/use-notification-schedule-form.ts:47-50 | Reset state with the modal visible |
| NotificationScheduleForm.ScheduleForm.OpenEditModal | hooks/notification-schedule/use-notification-schedule-form.ts:55-60 | The schedule's day and time fill the form, it becomes the edited schedule, and the modal is visible |
| NotificationScheduleForm.ScheduleForm.CloseModal | hooks/notification-schedule/use-notification-schedule-form.ts:65-68 | Modal hidden and reset state |
| NotificationScheduleForm.ScheduleForm.HandleSave | hooks/notification-schedule/use-notification-schedule-form.ts:81-113 | Invalid time: no mutation, the format alert, and the form and modal unchanged. Valid time: an update of the edited schedule, else a create, with the selected day and time. Success hides and resets the form; failure keeps it and raises the matching failure alert |
| NotificationScheduleForm.ScheduleForm.HandleDelete | hooks/notification-schedule/use-notification-schedule-form.ts:128-150 | Always asks the destructive '삭제 확인' confirmation. A delete of the schedule's id is issued exactly when confirmed. An alert '삭제 실패' appears exactly when a confirmed delete fails |
| ScenarioSelection.ScenariosOf | hooks/scenario/use-scenario-selection.ts:23 | The fetched content, or the empty list without data |
| ScenarioSelection.ScenarioSelectionState.constructor | hooks/scenario/use-scenario-selection.ts:14-15 | Beginner level, nothing selected |
| ScenarioSelection.ScenarioSelectionState.HasSelection | hooks/scenario/use-scenario-selection.ts:43 | True exactly when a scenario is selected |
| ScenarioSelection.ScenarioSelectionState.Query | hooks/scenario/use-scenario-selection.ts:17-21 | The query is keyed by the current level, page 1, size 20 |
| ScenarioSelection.ScenarioSelectionState.HandleLevelChange | hooks/scenario/use-scenario-selection.ts:28-31 | The level is set and the selection is always cleared |
| ScenarioSelection.ScenarioSelectionState.HandleScenarioSelect | hooks/scenario/use-scenario-selection.ts:36-38 | The selection is set and the level is untouched |
| InfiniteCalls.RequestFor | hooks/calls/use-infinite-calls.ts:31-32 | Requests the given page with size 10 |
| InfiniteCalls.NextPageParam | hooks/calls/use-infinite-calls.ts:33-37 | None exactly when the item is missing or it is the last page; otherwise number + 1, with a missing number counted as 0 |
| InfiniteCalls.RequestsFollowPageNumbers | hooks/calls/use-infinite-calls.ts:33-38 | The first request is page 0 of size 10; a non-last page n leads to page n + 1, and a last page to none |
| InfiniteCalls.Flatten | hooks/calls/use-infinite-calls.ts:43 | The pages' contents in page order; it fails exactly when some page has no item |
| InfiniteCalls.FindIndex | hooks/calls/use-infinite-calls.ts:46 | The first position holding the id, or -1 when there is none |
| InfiniteCalls.FirstOccurrence | hooks/calls/use-infinite-calls.ts:46 | A record sits at its id's first position exactly when no earlier record has its id |
| InfiniteCalls.FirstsFromIsDedupSeen | hooks/calls/use-infinite-calls.ts:44-47 | The findIndex filter from position i equals the reference walk seeded with the ids before i |
| InfiniteCalls.DedupMatchesReference | hooks/calls/use-infinite-calls.ts:44-47 | The hook's filter equals the reference walk that keeps records whose id has not yet been seen |
| InfiniteCalls.DedupSeenUnique | hooks/calls/use-infinite-calls.ts:44-47 | The reference walk keeps no seen id and no id twice |
| InfiniteCalls.DedupSeenCovers | hooks/calls/use-infinite-calls.ts:44-47 | The reference walk keeps every unseen id of its input |
| InfiniteCalls.DedupSeenFirstWins | hooks/calls/use-infinite-calls.ts:44-47 | Each record the reference walk keeps is the first input record with its id |
| InfiniteCalls.DedupSeenSubsequence | hooks/calls/use-infinite-calls.ts:44-47 | The reference walk only drops records and keeps input order |
| InfiniteCalls.DedupSeenKeepsUnique | hooks/calls/use-infinite-calls.ts:44-47 | A list with distinct unseen ids passes through unchanged |
| InfiniteCalls.DedupUniqueIds | hooks/calls/use-infinite-calls.ts:44-47 | No two merged records share a callId |
| InfiniteCalls.DedupKeepsEveryId | hooks/calls/use-infinite-calls.ts:44-47 | Every callId of the pages appears in the merged list |
| InfiniteCalls.DedupFirstWins | hooks/calls/use-infinite-calls.ts:44-47 | Each merged record is the first record of the pages with its id |
| InfiniteCalls.DedupIsSubsequence | hooks/calls/use-infinite-calls.ts:44-47 | The merged list is a subsequence of the flattened pages |
| InfiniteCalls.DedupIdempotent | hooks/calls/use-infinite-calls.ts:44-47 | Merging a merged list changes nothing |
| InfiniteCalls.DedupExample | hooks/calls/use-infinite-calls.ts:44-47 | Of two records with id 1, the first is kept |
| InfiniteCalls.Calls | hooks/calls/use-infinite-calls.ts:42-48 | Empty without data, failing exactly when flattening fails; otherwise a subsequence of the flattened pages with unique ids, keeping every call id of the pages, each kept record being the first with its id |
| InfiniteCalls.TotalElements | hooks/calls/use-infinite-calls.ts:51 | The first page's total, 0 without data or pages, and a failure when the first page has no item |
| InfiniteCalls.CallList.constructor | hooks/calls/use-infinite-calls.ts:16-17 | Not refreshing, and the last fetch time is 0 |
| InfiniteCalls.CallList.OnEndReached | hooks/calls/use-infinite-calls.ts:66-80 | Fetches exactly when a next page exists, nothing is fetching or loading, and more than 500 ms passed since the last trigger; the time is recorded only then |
| InfiniteCalls.CallList.OnRefresh | hooks/calls/use-infinite-calls.ts:56-60 | Exactly one refetch is issued, and the refreshing flag is false once it has finished |
| InfiniteCalls.EndReachedTwice | hooks/calls/use-infinite-calls.ts:70-79 | Two end-of-list events at most 500 ms apart trigger at most one fetch |
| AlertModal.EffectiveKind | components/common/AlertModal.tsx:39 | The type defaults to 'info' |
| AlertModal.EffectiveButtons | components/common/AlertModal.tsx:40 | The buttons default to one '확인' default button |
| AlertModal.IconFor | components/common/AlertModal.tsx:65-76 | success gives ✓ in the success colour, error gives ! in the accent colour, confirm gives ? in primary, info gives i in primary |
| AlertModal.Dismissable | components/common/AlertModal.tsx:81 | The backdrop dismisses exactly when the type is not 'confirm' |
| AlertModal.ButtonDisabled | components/common/AlertModal.tsx:103 | All buttons are disabled exactly when a press is loading |
| AlertModal.ButtonShowsSpinner | components/common/AlertModal.tsx:102 | Only the loading index shows the spinner |
| AlertModal.SpinnerOnOneDisabledButton | components/common/AlertModal.tsx:102-103 | At most one button shows the spinner, and it is disabled |
| AlertModal.AlertModalView.constructor | components/common/AlertModal.tsx:35-43 | Props take their defaults; nothing is loading |
| AlertModal.AlertModalView.Press | components/common/AlertModal.tsx:45-63 | Ignored while loading. Only a returned promise sets the loading index (to the pressed button); otherwise onClose runs once and the index is cleared. The invariant: every accepted press closes exactly once |
| AlertModal.AlertModalView.Settle | components/common/AlertModal.tsx:53-61 | A settled promise, fulfilled or rejected, closes once and clears the index |
| ModalContext.AlertState | contexts/ModalContext.tsx:75-90 | Visible with the given title and message; type 'info' and one '확인' button unless given |
| ModalContext.ConfirmState | contexts/ModalContext.tsx:92-132 | Visible, type 'confirm', exactly two buttons: cancel (answers false, '취소' by default) then confirm (answers true, '확인' and 'default' by default) |
| Common.UseContext | contexts/ModalContext.tsx:169-175 | A context hook yields the provider's value exactly when there is one, and otherwise throws the hook's own message |
| ModalContext.UseModal | contexts/ModalContext.tsx:169-175 | The context inside the provider; the error 'useModal must be used within a ModalProvider' outside it |
| ModalContext.ModalProvider.constructor | contexts/ModalContext.tsx:64-65 | The initial state, with no stored resolver |
| ModalContext.ModalProvider.Alert | contexts/ModalContext.tsx:75-90 | The dialog shows the alert; a pending confirmation stays pending |
| ModalContext.ModalProvider.Confirm | contexts/ModalContext.tsx:92-132 | A new confirmation whose resolver replaces the stored one; the dialog shows it |
| ModalContext.ModalProvider.ResolveStored | contexts/ModalContext.tsx:107-118 | The stored resolver, if any, is called once with the answer and cleared |
| ModalContext.ModalProvider.CloseModal | contexts/ModalContext.tsx:67-73 | Only `visible` turns false; one reset is scheduled |
| ModalContext.ModalProvider.ResetTimerFired | contexts/ModalContext.tsx:70-72 | A scheduled reset restores the initial state |
| ModalContext.ModalProvider.HandleClose | contexts/ModalContext.tsx:134-141 | A pending confirmation is answered false and cleared, then the dialog closes |
| ModalContext.ModalProvider.PressButton | contexts/ModalContext.tsx:103-120 | A confirm button answers the pending confirmation with its value; the close that follows answers nothing more; other buttons' close answers false. The invariant: no confirmation is answered twice |
| Api.CreateServerError | types/api.ts:74-83 | The exception's message when present and non-empty, else 'Request failed'; errorNo and validation from the exception, absent without one |
| Api.ServerErrorFromExceptionOnly | types/api.ts:74-83 | The error depends only on the exception, not on the type or the item |
| Score.ScoreColor | utils/score.ts:10-14 | The colour's rank is the number of bounds (60, 80) the score reaches: red below 60, yellow up to 80, green from 80 |
| Score.ScoreLabel | utils/score.ts:22-28 | The label's rank is the number of bounds (60, 70, 80, 90) the score reaches, so each score gets exactly one of the five labels |
| Score.ReachedMonotone | utils/score.ts:11-13 | A higher score reaches at least as many bounds |
| Score.ScoreMonotone | utils/score.ts:10-28 | A higher score never gets a lower colour or label |
| Score.ColorAgreesWithLabel | utils/score.ts:10-28 | '훌륭해요!'/'잘했어요!' exactly with green, '좋아요!'/'괜찮아요' exactly with yellow, '더 연습해봐요' exactly with red |
| Score.ScoreBandsAtTheBounds | utils/score.ts:10-28 | Each bound belongs to the higher band |
| RelativeDate.Classify | utils/format/date.ts:18-38 | [0, 1 h) gives minutes 0..59; [1 h, 24 h) gives hours 1..23; [1 d, 2 d) gives yesterday; [2 d, 7 d) gives days 2..6; negative gives a negative day count; from 7 d, the calendar date |
| RelativeDate.FormatRelativeDate | utils/format/date.ts:14-39 | The text for each range: "N분 전", "N시간 전", "어제", "N일 전" (with "-N" for a future date), or the calendar text |
| RelativeDate.RenderInjective | utils/format/date.ts:20-30 | Two non-calendar branches never produce the same text, so the text determines branch and count |
| RelativeDate.FormatRelativeDateExamples | utils/format/date.ts:14-39 | 0 ms gives "0분 전", just under an hour gives "59분 전", one hour gives "1시간 전", just over a day gives "어제", seven days gives the calendar text |
| CodePushPlugin.InsertAfterFirst | plugins/withCodePush.js:28-31 | Without the anchor nothing changes; otherwise the text goes right after the first anchor and the rest is kept |
| CodePushPlugin.GradleLineNamesScript | plugins/withCodePush.js:18-21 | The inserted Gradle line contains `codepush.gradle` |
| CodePushPlugin.AppBuildGradle | plugins/withCodePush.js:15-60 | Non-groovy files, and files already naming the script, are unchanged. Otherwise the line goes after the react plugin line, else the single-quoted one, else the kotlin plugin line, else at the top. Every groovy result names the script |
| CodePushPlugin.AppBuildGradleIdempotent | plugins/withCodePush.js:21-56 | Patching twice equals patching once |
| CodePushPlugin.WithImport | plugins/withCodePush.js:72-80 | The import goes after the ReactApplication import only when absent; with the anchor present the result has it |
| CodePushPlugin.WithImportIdempotent | plugins/withCodePush.js:72-80 | The import step is idempotent |
| CodePushPlugin.LineEnd | plugins/withCodePush.js:96 | The end of the line, as `.*` matches it: the first line terminator or the end of the text |
| CodePushPlugin.DefinitionLineEnd | plugins/withCodePush.js:94-96 | Where `getJSMainModuleName\(\): String = .*` stops matching: the first line terminator after the `= `, or the end of the text; none when the definition is absent |
| CodePushPlugin.WithBundleOverride | plugins/withCodePush.js:82-104 | Inserted after the getJSMainModuleName definition line only when `CodePush.getJSBundleFile()` is absent and the signature is present; unchanged otherwise or without ` = `; the result then has the call |
| CodePushPlugin.WithBundleOverrideIdempotent | plugins/withCodePush.js:88-104 | The override step is idempotent |
| CodePushPlugin.MainApplication | plugins/withCodePush.js:70-108 | Kotlin files get both steps; any other language is unchanged |
| CodePushPlugin.HasNamed | plugins/withCodePush.js:118 | `find` by name succeeds exactly when some entry has that name |
| CodePushPlugin.StringsResources.constructor | plugins/withCodePush.js:117 | The resource list as given, possibly absent |
| CodePushPlugin.StringsResources.Entries | plugins/withCodePush.js:117 | The list, or [] when it is absent |
| CodePushPlugin.StringsResources.AddDeploymentKey | plugins/withCodePush.js:115-125 | A truthy key with no entry of that name appends exactly one entry with moduleConfig 'true'; otherwise nothing changes. The count of key entries becomes 1 only from 0 |
| CodePushPlugin.AddDeploymentKeyTwice | plugins/withCodePush.js:115-124 | Repeating the step never yields a second key entry |
| Text.SkipWhitespace | plugins/withKakaoMavenRepo.js:18 | `\s*` under greedy matching: the first index at or after the start that is not white space, with only white space before it |
| KakaoMavenRepoPlugin.OpenAt | plugins/withKakaoMavenRepo.js:18 | `word\s*\{` matches at i exactly for the end it reports, and that end is unique |
| KakaoMavenRepoPlugin.FirstOpen | plugins/withKakaoMavenRepo.js:18 | The first index at or after k where it matches, or none |
| KakaoMavenRepoPlugin.LaterOpenEndsLater | plugins/withKakaoMavenRepo.js:18 | A later `allprojects {` match ends no earlier |
| KakaoMavenRepoPlugin.Match | plugins/withKakaoMavenRepo.js:18-20 | The leftmost, shortest match; none exactly when no `allprojects {` has a `repositories {` after it |
| KakaoMavenRepoPlugin.WithKakaoMavenRepo | plugins/withKakaoMavenRepo.js:6-32 | Unchanged when it already names devrepo.kakao.com or the block is missing; otherwise exactly one repository line right after the match, everything else preserved |
| KakaoMavenRepoPlugin.InsertionNamesHost | plugins/withKakaoMavenRepo.js:9-12 | The inserted line names devrepo.kakao.com |
| KakaoMavenRepoPlugin.WithKakaoMavenRepoIdempotent | plugins/withKakaoMavenRepo.js:9-25 | Patching twice equals patching once |

## Left out

- Audio session start and stop (hooks/use-livekit.ts:73-82), and the TrackSubscribed handler, which only logs (hooks/use-livekit.ts:143-150). These are platform audio calls and console output.
- Console logging everywhere. It has no effect on state.
- Concurrency: each action runs as one atomic step. The model does not cover:
  - an overlapping second `connect`, which has no re-entrancy guard;
  - transport events arriving while `connect` is suspended;
  - React's deferred state updates, such as a second tap reaching `handleButtonPress` before the re-render that sets `loadingIndex`.
- LiveKitSession.Session.Connect: the token request's contents are not modelled. These are the room name and the `user-<time>` identity. The model keeps only whether an endpoint is configured, and the fetch outcome is a parameter.
- LiveKitSession.ReceivedChat: a chat payload whose `text` is not a string is stored with text "". The source stores whatever value `text` has (a number, an object or undefined), because messages here hold strings.
- LiveKitSession.Session.Connect: after the room's own connect resolves, a failure to enable the microphone leaves a connected transport room. The model does not track that room.
- The UTF-8 codec and `JSON.parse` are not modelled. A payload is given by its parse result.
- Message ids come from the millisecond clock and can collide. No uniqueness of ids is claimed.
- `isSaving`, `isLoading`, `isError`, the mutations' and query's caching, refetching and invalidation (React Query). Requests are returned as values, and their outcomes are parameters.
- CodePushPlugin.AppBuildGradle and CodePushPlugin.WithImport: the source's anchor patterns treat `.` as a wildcard. The model matches the anchors as literal text, so a line that differs from the anchor at a dot is not treated as an anchor.
- KakaoMavenRepoPlugin.WithKakaoMavenRepo: the pattern is matched by hand. The match is proved leftmost and shortest, but a regular-expression engine is not modelled.
- CodePushPlugin.MainApplication: idempotence is proved for each step, not for the two steps composed.
- The build tooling is not modelled: `createRunOncePlugin`, the config objects, and how the language tags are determined (they are given as text).
- A string resource without a `$` attribute object is not modelled.
- Native `Date` parsing and `toLocaleDateString` are not modelled. The elapsed milliseconds and the calendar text are parameters. An unparsable date gives a NaN difference in the source, which an integer cannot be.
- Score.ScoreColor and Score.ScoreLabel: NaN, which fails every comparison in the source, is not modelled.
- The 300 ms reset timer is an explicit event, `ResetTimerFired`, with a count of pending resets.
- The Modal component's animation and layout are not modelled.
- ModalContext.ModalProvider.PressButton: a caller-supplied button's own effect is outside the provider and is not modelled. Its promise is taken as already settled.
- Screens and components outside the dialog are not modelled, including the screen copy of the time check in app/notification-schedules.tsx.
- REST wrappers, token storage, the authenticated HTTP client with its refresh queue, the social-login SDKs and the token scripts are not part of this model.
