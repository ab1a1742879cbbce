/**
 * The "my page" component: the reservation panel (loaded on mount, with a
 * cancel action guarded by a same-day 08:00 cutoff) and the profile form.
 *
 * Collaborators are not modelled, only their outcomes: each handler receives
 * what the backend call returned (`Fetch`, a deletion flag, `ProfileUpdate`),
 * the answer to the confirmation dialog and the wall-clock time of day.
 */
module MyPage {
  import opened Wrappers
  import opened JsStrings

  // ------------------------------------------------------------------ data

  /** The signed-in user, as the authentication context supplies it; an absent student ID is `""`. */
  datatype User = User(email: string, studentId: string, name: string, role: string)

  /** A reservation as the backend returns it (its creation timestamp is not modelled). */
  datatype Reservation = Reservation(
    id: string, wing: string, floor: string, room: string, date: string,
    time: string, timeRange: string, studentName: string)

  /** The outcome of `getUserReservations`: the list, or a rejected promise. */
  datatype Fetch = Fetched(data: seq<Reservation>) | FetchFailed

  /** The outcome of `completeUserProfile`; `message` is `""` when the error carries none. */
  datatype ProfileUpdate = Updated | UpdateFailed(message: string)

  /** The calls the page makes to its collaborators, in the order it makes them. */
  datatype Request =
    | Confirm(prompt: string)
    | GetUserReservations(studentId: string)
    | DeleteReservation(reservationId: string)
    | CompleteUserProfile(studentId: string, name: string)

  // -------------------------------------------------------------- messages

  const NoStudentIdMessage := "예약 정보를 불러올 수 없습니다."
  const NoSessionMessage := "로그인 정보가 없습니다."
  const LoadErrorMessage := "내 예약 목록을 불러오는 중 오류가 발생했습니다."
  const CutoffMessage := "오전 8시 이후에는 관리자에게 문의해주세요."
  const CancelPrompt := "이 예약을 취소하시겠습니까?"
  const CancelErrorMessage := "예약 취소 중 오류가 발생했습니다."
  const RequiredMessage := "학번과 이름을 모두 입력해주세요."
  const ProfileSavedMessage := "프로필이 성공적으로 업데이트되었습니다."
  const ProfileErrorFallback := "프로필 업데이트 중 오류가 발생했습니다."
  const CancelLabel := "예약 취소"
  const CancelUnavailableLabel := "취소 불가 (8시 이후)"

  /** Every text the reservation panel can show as its error. */
  const PanelMessages: set<string> :=
    {"", NoStudentIdMessage, NoSessionMessage, LoadErrorMessage, CutoffMessage, CancelErrorMessage}

  // ------------------------------------------------------------ slot label

  /** The fixed daily slots and their labels. */
  const SlotLabels: map<string, string> :=
    map["lunch" := "점심시간", "cip1" := "CIP1", "cip2" := "CIP2", "cip3" := "CIP3"]

  /** The label shown for a reservation's slot: a fixed label, else its raw time range. */
  function SlotLabel(r: Reservation): (text: string)
    ensures r.time in SlotLabels ==> text == SlotLabels[r.time]
    ensures r.time !in SlotLabels ==> text == r.timeRange
  {
    if r.time == "lunch" then "점심시간"
    else if r.time == "cip1" then "CIP1"
    else if r.time == "cip2" then "CIP2"
    else if r.time == "cip3" then "CIP3"
    else r.timeRange
  }

  /** Two reservations in different fixed slots never share a label. */
  lemma SlotLabelsDistinguishFixedSlots(a: Reservation, b: Reservation)
    requires a.time in SlotLabels && b.time in SlotLabels && a.time != b.time
    ensures SlotLabel(a) != SlotLabel(b)
  {
  }

  // ------------------------------------------------------------ cutoff rule

  /** Milliseconds in a day; a time of day is counted in milliseconds since local midnight. */
  const MsPerDay := 86_400_000
  type TimeOfDay = t: nat | t < MsPerDay

  /** A local wall-clock reading as a time of day. */
  function ClockTime(hours: nat, minutes: nat, seconds: nat, millis: nat): (t: TimeOfDay)
    requires hours < 24 && minutes < 60 && seconds < 60 && millis < 1000
  {
    ((hours * 60 + minutes) * 60 + seconds) * 1000 + millis
  }

  /** Today at 08:00:00.000, as set by `setHours(8, 0, 0, 0)`. */
  const Cutoff: TimeOfDay := 8 * 60 * 60 * 1000

  predicate IsAdmin(user: Option<User>) {
    user.Some? && user.value.role == "admin"
  }

  /**
   * `user?.role !== "admin" && now > cutoff`: the one condition behind the
   * cancel handler's guard and the button's disabled flag, opacity and label.
   */
  predicate CancelBlocked(user: Option<User>, now: TimeOfDay): (blocked: bool)
    ensures blocked <==>
              (!IsAdmin(user) && (now / 3_600_000 > 8 || (now / 3_600_000 == 8 && now % 3_600_000 > 0)))
  {
    !IsAdmin(user) && now > Cutoff
  }

  /**
   * On a wall clock: a non-admin is blocked from 08:00:00.001 on, and 08:00:00.000
   * itself is still allowed; an admin is never blocked.
   */
  lemma CancelBlockedOnTheClock(user: Option<User>, hours: nat, minutes: nat, seconds: nat, millis: nat)
    requires hours < 24 && minutes < 60 && seconds < 60 && millis < 1000
    ensures CancelBlocked(user, ClockTime(hours, minutes, seconds, millis)) <==>
              !IsAdmin(user) && (hours > 8 || (hours == 8 && (minutes > 0 || seconds > 0 || millis > 0)))
  {
  }

  /** Once blocked, a user stays blocked for the rest of the day. */
  lemma CancelBlockedUntilMidnight(user: Option<User>, earlier: TimeOfDay, later: TimeOfDay)
    requires earlier <= later
    ensures CancelBlocked(user, earlier) ==> CancelBlocked(user, later)
  {
  }

  /** The cancel button of one reservation row. */
  datatype CancelButton = CancelButton(disabled: bool, opacity: real, caption: string)

  /** The button as rendered at time `now`: disabled, dimmed and relabelled exactly when cancel is blocked. */
  function CancelButtonAt(user: Option<User>, now: TimeOfDay): (b: CancelButton)
    ensures b.disabled <==> CancelBlocked(user, now)
    ensures b.disabled <==> b.opacity == 0.5
    ensures !b.disabled <==> b.opacity == 1.0
    ensures b.disabled <==> b.caption == CancelUnavailableLabel
    ensures !b.disabled <==> b.caption == CancelLabel
  {
    var blocked := CancelBlocked(user, now);
    CancelButton(blocked, if blocked then 0.5 else 1.0,
                 if blocked then CancelUnavailableLabel else CancelLabel)
  }

  // -------------------------------------------------------------- component

  /**
   * The page's state. `userReservations`, `loadingReservations` and
   * `reservationsError` drive the reservation panel; `studentId`, `name`,
   * `loading`, `error` and `success` drive the profile form. `requests`
   * records the calls made to collaborators.
   */
  class Component {
    const user: Option<User>
    var userReservations: seq<Reservation>
    var loadingReservations: bool
    var reservationsError: string
    var studentId: string
    var name: string
    var loading: bool
    var error: string
    var success: string
    ghost var requests: seq<Request>

    /**
     * Between events: no submission is pending, the form never shows an error
     * and a success message together, and every message is one the page defines
     * (profile errors may also carry the backend's own message).
     */
    ghost predicate Valid()
      reads this
    {
      !loading && (error == "" || success == "") && success in {"", ProfileSavedMessage} &&
      reservationsError in PanelMessages
    }

    /** The first render: the panel is loading, the form holds the user's ID and name. */
    constructor (user: Option<User>)
      ensures Valid()
      ensures this.user == user
      ensures userReservations == [] && loadingReservations && reservationsError == ""
      ensures studentId == (if user.Some? then user.value.studentId else "")
      ensures name == (if user.Some? then user.value.name else "")
      ensures !loading && error == "" && success == ""
      ensures requests == []
    {
      this.user := user;
      userReservations := [];
      loadingReservations := true;
      reservationsError := "";
      studentId := if user.Some? then user.value.studentId else "";
      name := if user.Some? then user.value.name else "";
      loading := false;
      error := "";
      success := "";
      requests := [];
    }

    /** The panel after a load that started from `list` and `message`, given the fetch outcome. */
    ghost predicate LoadedFrom(fetch: Fetch, list: seq<Reservation>, message: string)
      reads this
    {
      !loadingReservations &&
      match fetch
      case Fetched(data) => userReservations == data && reservationsError == message
      case FetchFailed => userReservations == list && reservationsError == LoadErrorMessage
    }

    /**
     * `loadUserReservations(studentId)`: always ends not loading; a success
     * replaces the list and leaves the error as it was, a failure sets the
     * load error and keeps the list.
     */
    method LoadUserReservations(id: string, fetch: Fetch)
      requires Valid()
      modifies this
      ensures Valid()
      ensures LoadedFrom(fetch, old(userReservations), old(reservationsError))
      ensures requests == old(requests) + [GetUserReservations(id)]
      ensures unchanged(this`studentId, this`name, this`loading, this`error, this`success)
    {
      loadingReservations := true;
      requests := requests + [GetUserReservations(id)];
      match fetch {
        case Fetched(data) =>
          userReservations := data;
        case FetchFailed =>
          reservationsError := LoadErrorMessage;
      }
      loadingReservations := false;
    }

    /**
     * The mount effect: an admin gets an empty panel with no fetch; a student
     * with an ID has the list fetched; a user without an ID, or no user, gets an
     * empty panel with its own message and no fetch.
     */
    method Mount(fetch: Fetch)
      requires Valid()
      modifies this
      ensures Valid()
      ensures !loadingReservations
      ensures unchanged(this`studentId, this`name, this`loading, this`error, this`success)
      ensures IsAdmin(user) ==>
                userReservations == [] && reservationsError == "" && requests == old(requests)
      ensures user.Some? && !IsAdmin(user) && user.value.studentId != "" ==>
                requests == old(requests) + [GetUserReservations(user.value.studentId)] &&
                LoadedFrom(fetch, old(userReservations), old(reservationsError))
      ensures user.Some? && !IsAdmin(user) && user.value.studentId == "" ==>
                userReservations == [] && reservationsError == NoStudentIdMessage &&
                requests == old(requests)
      ensures user.None? ==>
                userReservations == [] && reservationsError == NoSessionMessage &&
                requests == old(requests)
    {
      if user.Some? {
        if user.value.role == "admin" {
          loadingReservations := false;
          userReservations := [];
          reservationsError := "";
        } else if user.value.studentId != "" {
          LoadUserReservations(user.value.studentId, fetch);
        } else {
          loadingReservations := false;
          userReservations := [];
          reservationsError := NoStudentIdMessage;
        }
      } else {
        loadingReservations := false;
        userReservations := [];
        reservationsError := NoSessionMessage;
      }
    }

    /**
     * `handleCancel(reservationId)` at time of day `now`, with the answer to the
     * confirmation dialog, whether the deletion succeeded, and the outcome of
     * the reload that follows a successful deletion. A blocked cancel sets the
     * cutoff message and neither asks nor deletes. Without a signed-in user the
     * reload cannot start (`user.studentId` throws) and the cancel error shows.
     */
    method HandleCancel(reservationId: string, now: TimeOfDay, confirmed: bool, deleted: bool, reload: Fetch)
      requires Valid()
      modifies this
      ensures Valid()
      ensures unchanged(this`studentId, this`name, this`loading, this`error, this`success)
      ensures CancelBlocked(user, now) ==>
                reservationsError == CutoffMessage && requests == old(requests) &&
                unchanged(this`userReservations, this`loadingReservations)
      ensures !CancelBlocked(user, now) && !confirmed ==>
                requests == old(requests) + [Confirm(CancelPrompt)] &&
                unchanged(this`userReservations, this`loadingReservations, this`reservationsError)
      ensures !CancelBlocked(user, now) && confirmed && (!deleted || user.None?) ==>
                requests == old(requests) + [Confirm(CancelPrompt), DeleteReservation(reservationId)] &&
                reservationsError == CancelErrorMessage &&
                unchanged(this`userReservations, this`loadingReservations)
      ensures !CancelBlocked(user, now) && confirmed && deleted && user.Some? ==>
                requests == old(requests) + [Confirm(CancelPrompt), DeleteReservation(reservationId),
                                             GetUserReservations(user.value.studentId)] &&
                LoadedFrom(reload, old(userReservations), old(reservationsError))
    {
      if !IsAdmin(user) && now > Cutoff {
        reservationsError := CutoffMessage;
        return;
      }
      requests := requests + [Confirm(CancelPrompt)];
      if confirmed {
        requests := requests + [DeleteReservation(reservationId)];
        if deleted && user.Some? {
          LoadUserReservations(user.value.studentId, reload);
        } else {
          reservationsError := CancelErrorMessage;
        }
      }
    }

    /** The student-ID field's `onChange`. */
    method EditStudentId(value: string)
      requires Valid()
      modifies this`studentId
      ensures Valid() && studentId == value
    {
      studentId := value;
    }

    /** The name field's `onChange`. */
    method EditName(value: string)
      requires Valid()
      modifies this`name
      ensures Valid() && name == value
    {
      name := value;
    }

    /**
     * `handleSubmit`: a blank ID or name is refused with the required-fields
     * message and no call; otherwise the profile is sent as typed (untrimmed)
     * and the outcome shows as the success message, the backend's error
     * message, or the fallback when that message is empty. The form ends idle.
     */
    method HandleSubmit(outcome: ProfileUpdate)
      requires Valid()
      modifies this
      ensures Valid()
      ensures unchanged(this`studentId, this`name)
      ensures unchanged(this`userReservations, this`loadingReservations, this`reservationsError)
      ensures IsBlank(studentId) || IsBlank(name) ==>
                error == RequiredMessage && success == "" && requests == old(requests)
      ensures !IsBlank(studentId) && !IsBlank(name) ==>
                requests == old(requests) + [CompleteUserProfile(studentId, name)]
      ensures !IsBlank(studentId) && !IsBlank(name) && outcome.Updated? ==>
                success == ProfileSavedMessage && error == ""
      ensures !IsBlank(studentId) && !IsBlank(name) && outcome.UpdateFailed? ==>
                success == "" && error != "" &&
                error == (if outcome.message == "" then ProfileErrorFallback else outcome.message)
    {
      loading := true;
      error := "";
      success := "";
      // `!studentId.trim() || !name.trim()`; `TrimsToEmpty` proves that a string
      // trims to nothing exactly when it is blank.
      var blank := IsBlank(studentId) || IsBlank(name);
      if blank {
        error := RequiredMessage;
      } else {
        requests := requests + [CompleteUserProfile(studentId, name)];
        match outcome {
          case Updated =>
            success := ProfileSavedMessage;
          case UpdateFailed(message) =>
            error := if message == "" then ProfileErrorFallback else message;
        }
      }
      loading := false;
    }
  }
}
