# Goal accountability pages — a Dafny model

This project models the logic of a small two-person "goal accountability" web
application. Two people set a shared goal and a deadline, and each sets a reward
with an amount. Later they upload a proof image and watch a simulated audit.

The model covers the two pages that hold logic:

- **Goal setting** (`GoalSetting`, `goal_setting.dfy`). The page state is the
  class `GoalSettingPage`. `ValidateForm` builds the error map field by field,
  with the field checks in `CollectFieldErrors`. A picked deadline 0 to 7 whole
  days away raises the warning flag and returns `false` *before* the new map is
  stored, so the errors shown before stay on screen. `HandleSubmit` emits the
  create payload only when validation passes. The payload renames
  `amazonLink1`/`amazonLink2` to `reward1`/`reward2` and carries the deadline's
  `YYYY-MM-DD` text as `goalDate`. The pure function `Validate` states what one
  validation call does. The lemmas about it and about `FieldErrors` state the
  field rules:
  - an amount is refused when it is blank, `0` or `NaN`;
  - every other number passes, negative ones included;
  - nothing records that the warning was shown, so a repeated submit with the
    same near deadline warns again.
- **Goal result** (`GoalResult`, `goal_result.dfy`). The page state is the class
  `GoalResultPage`.
  - `ReceiveSnapshot` is the store subscription's callback together with the
    effect that reacts to it. It drops records without a creation time and takes
    the newest one (`LatestIndex`). From that record it derives exactly two
    entries (`DeriveUserGoals`), both pending.
  - `HandleImageUpload` stores the chosen file. With a file, it resets the audit
    to pending and schedules the completion callback.
  - `FireAuditTimer` is that callback. It sets the audit to success and marks
    entries 0 and 1 achieved, in place, in the entries array the callback
    captured.
  - `StatusChipColor` and `ProgressValue` are the display rules.
- **Both pages together** (`GoalFlow`, `goal_flow.dfy`): a form that passes
  validation is the record shown once the store returns it as the newest record.
  The shown entries carry the form's values.

Behaviour of the code that the model keeps on purpose:

- The sort that picks the newest record is stable. Among records with the same
  creation time, the earliest in the snapshot is shown (`IsLatest`).
- The completion callback works on the entries array that was current when the
  file was chosen (`timers`). If a newer snapshot replaced the entries in
  between, the callback marks the old array and makes it the shown one again.
- With fewer than two entries, the callback's indexing throws a `TypeError`
  (`threw`). The audit status was already set to success before the throw, and
  with one entry that entry was already marked.
- `ReceiveSnapshot` leaves the entries untouched when no record has a creation
  time.

Inputs that stand for things outside the code:

- The store's create call is the returned `GoalPayload`. The navigation after it
  is the returned route.
- The live query's updates are calls of `ReceiveSnapshot`.
- The deadline's whole-day distance from now is the integer `diffInDays`. It is
  what the date library's `diff(now, "day")` returns at submit time.
- Creation times are integers in milliseconds.
- The 3-second timer is an explicit call of `FireAuditTimer`. Callbacks run in
  the order they were scheduled, since all of them have the same delay.

## Model

| member | source | states |
|---|---|---|
| `GoalSetting.FieldErrors` | src/pages/GoalSettingPage.tsx:35-47 | The map built check by check has a key exactly for each field the per-field rule rejects, with that field's message |
| `GoalSetting.RequiredTextFieldsReported` | src/pages/GoalSettingPage.tsx:37-43 | An empty goal or reward link is reported under its own key with its message; a non-empty one is not reported |
| `GoalSetting.AmountsReported` | src/pages/GoalSettingPage.tsx:40-45 | An amount is reported exactly when it is blank, `0` or `NaN`; negative amounts pass |
| `GoalSetting.NoErrorsIffComplete` | src/pages/GoalSettingPage.tsx:59-61 | The error map is empty exactly when every field is acceptable, the deadline included |
| `GoalSetting.Validate` | src/pages/GoalSettingPage.tsx:34-62 | With a picked deadline 0..7 days away: invalid, warning raised, previous errors kept, whatever the other fields hold. Otherwise: no warning, errors replaced by the fresh map, valid exactly when that map is empty; valid exactly when not near and complete |
| `GoalSetting.NearDeadlineWarnsEveryTime` | src/pages/GoalSettingPage.tsx:52-55 | A second validation with the same near deadline is again invalid and warns again; there is no bypass |
| `GoalSetting.GoalSettingPage.constructor` | src/pages/GoalSettingPage.tsx:24-31 | The page starts with empty fields, no deadline, no errors and no warning |
| `GoalSetting.GoalSettingPage.CollectFieldErrors` | src/pages/GoalSettingPage.tsx:35-47 | The field-by-field checks produce exactly the error map of the current fields |
| `GoalSetting.GoalSettingPage.ValidateForm` | src/pages/GoalSettingPage.tsx:34-62 | The return value, the stored errors and the warning flag are those `Validate` gives for the current fields and the errors shown before; the flag is only ever raised, never cleared |
| `GoalSetting.GoalSettingPage.HandleSubmit` | src/pages/GoalSettingPage.tsx:65-83 | No create call and no navigation when validation fails. Otherwise one payload with the goal, the renamed rewards, the amounts and the deadline text, then navigation to the result page |
| `GoalResult.LatestIndex` | src/pages/GoalResultPage.tsx:108-119 | None exactly when no record has a creation time. Otherwise a dated record that no other dated record is newer than, with every earlier dated record strictly older |
| `GoalResult.LatestIsUnique` | src/pages/GoalResultPage.tsx:114-117 | The newest-first, first-in-snapshot choice picks exactly one record |
| `GoalResult.DeriveUserGoals` | src/pages/GoalResultPage.tsx:119-142 | Exactly two entries. Both share the record's goal and date. Entry 0 takes reward 1 and amount 1, entry 1 takes reward 2 and amount 2. Missing text becomes `""`, a missing amount `0`. Both are pending |
| `GoalResult.MarkAchieved` | src/pages/GoalResultPage.tsx:63-68 | The completion callback marks the first two entries achieved and changes no goal, reward, amount or deadline, and no other entry |
| `GoalResult.StatusChipColor` | src/pages/GoalResultPage.tsx:192-194 | An entry's chip is green exactly when its status is "目標達成", the warning colour otherwise |
| `GoalResult.ProgressValue` | src/pages/GoalResultPage.tsx:271 | The progress bar is at 100 exactly when the audit succeeded and at 50 otherwise |
| `GoalResult.AuditTurnsChipsGreen` | src/pages/GoalResultPage.tsx:189-195 | Freshly derived entries show warning-coloured chips; after the completion callback both show green |
| `GoalResult.GoalResultPage.constructor` | src/pages/GoalResultPage.tsx:50-54 | The page starts with no image, a pending audit and no entries |
| `GoalResult.GoalResultPage.ReceiveSnapshot` | src/pages/GoalResultPage.tsx:92-146 | The snapshot is stored. If some record is dated, the entries become a fresh array holding the pair derived from the newest record; otherwise they stay as they were |
| `GoalResult.GoalResultPage.HandleImageUpload` | src/pages/GoalResultPage.tsx:56-62 | The first chosen file becomes the image. With a file the audit becomes pending and a callback over the current entries is scheduled. With no file the image is cleared and the audit and schedule stay |
| `GoalResult.GoalResultPage.FireAuditTimer` | src/pages/GoalResultPage.tsx:63-69 | The oldest callback runs: the audit succeeds and the captured array is marked in place. With at least two entries that array becomes the shown one. With fewer the indexing throws, and the shown array stays |
| `GoalFlow.SubmittedGoalIsShown` | src/pages/GoalSettingPage.tsx:70-80 | A validated form, stored as the newest record, is the record shown. Its two entries carry the form's goal and deadline, each person's reward link and amount, and the pending status |
| `GoalFlow.UploadAfterSnapshot` | src/pages/GoalResultPage.tsx:56-71 | After a snapshot, an upload and the timer, the audit has succeeded and the bar is full. The entries are the achieved pair derived from the newest record, and every chip is green |

## Left out

- `src/components/Header.tsx` is not part of this model: it is navigation with
  one drawer-open flag and no logic.
- `src/GoalResult.tsx` is not part of this model: it is an older copy of the
  result page whose upload handler only stores the file.
- The remote data store is left out. Creating a record is the returned payload.
  A rejected create is not modelled: the model navigates whenever it emits a
  payload. Subscribing and unsubscribing are not modelled. Each delivered
  snapshot is a call of `ReceiveSnapshot`.
- Date arithmetic is left out. The day difference is an integer parameter, the
  formatted date is an opaque string, and creation times are integers. A
  creation time whose text does not parse as a date is not modelled.
- Amounts are integers. Fractional amounts, `Infinity` and `-0` are not
  modelled. The conversion of the typed text by `Number(...)` in the field
  handlers is not modelled either: an amount box holds a blank, a number or
  `NaN`.
- The field change handlers are plain assignments to the page's fields and have
  no members of their own.
- Timing is left out. The 3-second delay is not modelled: a scheduled callback
  runs when `FireAuditTimer` is called. The callbacks that run after the page is
  left are not modelled.
- The failure audit state is declared but no operation enters it, as in the
  code.
- Rendering is left out: icons, styling, yen formatting, the snackbar's display
  and its closing handler, and React's choice of when to re-render.
