# MyPage reservation panel and profile form — a Dafny model

This project models the logic of the "my page" view of a school
space-reservation web application (`src/pages/MyPage.js`). The page shows
the signed-in user's profile and the reservations made under their student
ID. A user can cancel a reservation until 08:00 local time on the day of the
cancel; an admin can cancel at any hour.

The model has four modules:

- `Wrappers`: `Option`, standing for JavaScript's `null`/`undefined` versus a value.
- `JsStrings`: the two string built-ins the page relies on. These are
  `repeat` for a one-character string and `trim`, with ECMAScript's
  WhiteSpace and LineTerminator code points.
- `MyPageFormat`: the module-level helpers `maskName` and `formatStudentId`.
  A reference definition of a mask goes with `maskName`. A parser of the
  "{g}학년 {cc}반 {nn}번" label goes with `formatStudentId`, so that
  formatting can be shown to be invertible.
- `MyPage`: the reservation slot label and the 08:00 cutoff rule. It also
  holds the cancel button's disabled flag, opacity and caption, and the
  component itself as the class `Component`. The class has one field per
  piece of React state (`userReservations`, `loadingReservations`,
  `reservationsError`, `studentId`, `name`, `loading`, `error`, `success`).
  Its methods are the mount effect, `loadUserReservations`, `handleCancel`,
  the two input `onChange` handlers and `handleSubmit`.

The collaborators are not modelled. Each handler receives what they would
have produced:

- `getUserReservations` gives a `Fetch`: the list, or a failure.
- `deleteReservation` gives a success flag.
- `completeUserProfile` gives a `ProfileUpdate`: success, or failure with the
  error's message.
- `window.confirm` gives a boolean.
- The clock gives the time of day in milliseconds since local midnight.

A ghost field `requests` records the calls the page makes to these
collaborators. This lets the contracts say "nothing is fetched" and "nothing
is deleted". A `MyPageScenarios` module holds three client sessions. Each
is derived from the contracts alone.

`HandleSubmit` tests `!studentId.trim()` through `IsBlank`, and
`JsStrings.TrimsToEmpty` proves that the two agree on every string.

User-facing messages are kept as the page's Korean string literals.

Three behaviours of the code are easy to miss; the model follows the code:

- A successful load replaces the list but does not clear
  `reservationsError` (`src/pages/MyPage.js:66-77`). A cutoff or cancel error
  shown earlier therefore stays on screen after a successful reload.
- `maskName` is defined but not used. Each rendered reservation shows
  `studentName` as stored (`src/pages/MyPage.js:273`).
- When `handleCancel` runs without a signed-in user and the deletion
  succeeds, the reload's `user.studentId` throws. The `catch` turns that into
  the cancel-failure message. `HandleCancel` models this case.

## Model

| member | source | states |
|---|---|---|
| `JsStrings.Repeat` | src/pages/MyPage.js:17 | `"*".repeat(n)` has length n and is `*` at every position |
| `JsStrings.Trim` | src/pages/MyPage.js:124 | `trim` returns a slice of its input such that everything before and after the slice is white space and neither end of the slice is white space, i.e. the input with its leading and trailing white space removed |
| `JsStrings.TrimStart` | src/pages/MyPage.js:124 | the result is a suffix of the input, everything dropped is white space, and the result does not start with white space |
| `JsStrings.TrimEnd` | src/pages/MyPage.js:124 | the result is a prefix of the input, everything dropped is white space, and the result does not end with white space |
| `JsStrings.TrimsToEmpty` | src/pages/MyPage.js:124 | `!s.trim()` holds iff every character of `s` is white space (including `""`), in both directions |
| `MyPageFormat.MaskName` | src/pages/MyPage.js:11-19 | absent or empty gives `""`; length 1 is unchanged; length 2 gives first char + `*`; a non-empty name keeps its length; from length 3 the first and last chars are kept and every middle char is `*` |
| `MyPageFormat.MaskNameIsTheMask` | src/pages/MyPage.js:11-19 | for every present name, the empty one included, `maskName` returns r iff r is the position-by-position mask (revealed ends copied, every other position `*`) |
| `MyPageFormat.MaskNameRevealsOnlyEnds` | src/pages/MyPage.js:15-18 | two names of the same length with the same first char (and, from length 3, the same last char) get the same mask, so the mask leaks nothing else |
| `MyPageFormat.MaskNameIdempotent` | src/pages/MyPage.js:11-19 | masking a masked name changes nothing |
| `MyPageFormat.SplitStudentId` | src/pages/MyPage.js:24-26 | grade, class and number have lengths 1, 2 and 2, and concatenate back to the ID |
| `MyPageFormat.SplitJoin` | src/pages/MyPage.js:24-26 | splitting the concatenation of well-sized parts returns those parts (the other half of the round trip) |
| `MyPageFormat.FormatStudentId` | src/pages/MyPage.js:22-28 | an absent ID, or one whose length is not 5, is returned unchanged; a 5-character ID gives an 11-character label |
| `MyPageFormat.ParseStudentIdLabel` | src/pages/MyPage.js:27 | a label the parser accepts reads back as a 5-character ID |
| `MyPageFormat.ParseFormatted` | src/pages/MyPage.js:24-27 | the label of a 5-character ID is `{g}학년 {cc}반 {nn}번` with the ID's pieces in place, and parsing it gives the ID back |
| `MyPageFormat.FormatParsed` | src/pages/MyPage.js:27 | every well-formed label is the formatting of the ID read from it |
| `MyPageFormat.FormatStudentIdInjective` | src/pages/MyPage.js:22-28 | distinct 5-character IDs get distinct labels |
| `MyPageFormat.FormatStudentIdIdempotent` | src/pages/MyPage.js:23 | a label is passed through unchanged, so formatting twice equals formatting once |
| `MyPage.SlotLabel` | src/pages/MyPage.js:262-270 | `lunch`, `cip1`, `cip2` and `cip3` map to their fixed labels (given as a table); any other code falls back to `timeRange` |
| `MyPage.SlotLabelsDistinguishFixedSlots` | src/pages/MyPage.js:262-270 | reservations in different fixed slots never share a label |
| `MyPage.CancelBlocked` | src/pages/MyPage.js:80-89 | the cutoff test `user?.role !== "admin" && now > cutoffTime`: anyone but a present user with role `admin` (an absent user included) is blocked iff the clock is past hour 8, or in hour 8 but past 08:00:00.000; an admin is never blocked |
| `MyPage.CancelBlockedOnTheClock` | src/pages/MyPage.js:80-89 | for a non-admin, cancel is blocked iff the clock reads later than 08:00:00.000, so exactly 08:00:00.000 is allowed; an admin is never blocked |
| `MyPage.CancelBlockedUntilMidnight` | src/pages/MyPage.js:86 | once a user is blocked, they stay blocked for every later time of the same day |
| `MyPage.CancelButtonAt` | src/pages/MyPage.js:289-303 | the button is disabled, shown at opacity 0.5 and captioned "취소 불가 (8시 이후)" exactly when `CancelBlocked` holds, the same condition `HandleCancel` checks; otherwise it is enabled at opacity 1 and captioned "예약 취소" |
| `MyPage.Component.constructor` | src/pages/MyPage.js:33-40 | first render: empty list, loading, no error; the form holds the user's ID and name (or `""`), is idle and shows no message |
| `MyPage.Component.LoadUserReservations` | src/pages/MyPage.js:66-77 | always ends not loading, and fetches by the given ID; on success the list is replaced and the error is left untouched; on failure the load error is set and the list is kept; the form is unchanged |
| `MyPage.Component.Mount` | src/pages/MyPage.js:42-64 | admin: empty list, no error, no fetch; student with an ID: one fetch by that ID, then the load's outcome; student without an ID: empty list, "예약 정보를 불러올 수 없습니다.", no fetch; no user: empty list, "로그인 정보가 없습니다.", no fetch; never left loading |
| `MyPage.Component.HandleCancel` | src/pages/MyPage.js:79-100 | when blocked: the cutoff message, no confirm and no delete. When allowed: a confirm; if confirmed, a delete; if the delete fails (or there is no user to reload for), the cancel error and the list is kept; if it succeeds, a reload by the user's ID with the load's outcome. The form is never touched |
| `MyPage.Component.EditStudentId` | src/pages/MyPage.js:180 | the student-ID field takes the typed value |
| `MyPage.Component.EditName` | src/pages/MyPage.js:191 | the name field takes the typed value |
| `MyPage.Component.HandleSubmit` | src/pages/MyPage.js:117-135 | a blank ID or name gives "학번과 이름을 모두 입력해주세요." and no call; otherwise the untrimmed ID and name are sent, and success shows the saved message while failure shows the backend's message or the fallback when it is empty; error and success are never both set; the form ends idle; the panel is unchanged |
| `MyPageScenarios.StudentWithoutIdSession` | src/pages/MyPage.js:52-57 | a student without an ID ends with an empty, settled list, the "cannot load" message and no request |
| `MyPageScenarios.CancelBeforeAndAfterCutoff` | src/pages/MyPage.js:79-100 | a cancel at 07:59:59.999 deletes and reloads, leaving one of two reservations; a cancel at 09:00 is refused with the cutoff message and makes no request |
| `MyPageScenarios.AdminSession` | src/pages/MyPage.js:44-48 | an admin's mount leaves an empty list with no error, so no cancel button is rendered for them; evaluated directly at 09:00, the button state is enabled and the cancel handler reaches the confirmation |

## Left out

- Rendering (JSX, inline styles, CSS, the early "no session" render at lines 137-143) is not modelled. The exception is the cancel button's state, which follows the cutoff rule.
- `formatDate` and the `createdAt` timestamp are not modelled. Both depend on locale-specific `Date` formatting, and `Reservation` has no `createdAt` field.
- `handleLogout`, `navigate`, `useAuth` and the Firebase functions are foreign calls. They appear only as the outcomes passed to the methods. The unused `updateUserProfile` import has no counterpart.
- `console.error` logging and `e.preventDefault()` are not modelled.
- Each handler runs to completion as one step. The render in which `loadingReservations` or `loading` is `true` while a call is pending is not a separate state.
- Overlapping loads that complete out of order (last completion wins) are not modelled, since that is scheduling, not logic.
- The user is fixed for the component's life. React re-runs the mount effect when the user changes, while keeping the form fields initialised from the first user. That case is not modelled.
- A missing `studentId` or `name` on the user object is modelled as `""`. JavaScript truthiness of values that are not strings is not modelled.
- Strings are sequences of Unicode scalar values. JavaScript's `length` and indexing count UTF-16 code units, so masking and the length-5 test differ for characters outside the Basic Multilingual Plane.
- The time of day is a wall-clock reading in milliseconds since local midnight, so days with a daylight-saving change are not modelled. The cancel handler takes the time of day of the click.
- MyPage.CancelButtonAt: reads the clock once per render, so opacity, `disabled` and caption always agree. The source runs the cutoff test separately for each of the three (lines 290-291, 296-297, 300-301), each with its own `new Date()` calls, so they can disagree in a render during which the clock passes 08:00:00.000.
