/**
 * Client code: sessions of the page that follow from the component's
 * contracts alone, the way a caller sees them.
 */
module MyPageScenarios {
  import opened Wrappers
  import opened MyPage

  /**
   * A student whose profile has no student ID: the panel settles on an empty
   * list with the "cannot load" message, and nothing is fetched.
   */
  method StudentWithoutIdSession(fetch: Fetch)
    returns (shown: seq<Reservation>, message: string, pending: bool, ghost calls: seq<Request>)
    ensures shown == [] && message == NoStudentIdMessage && !pending
    ensures calls == []
  {
    var page := new Component(Some(User("student@school.kr", "", "김하늘", "student")));
    page.Mount(fetch);
    shown, message, pending, calls :=
      page.userReservations, page.reservationsError, page.loadingReservations, page.requests;
  }

  /**
   * A student with two reservations cancels the first one at 07:59:59.999:
   * the deletion is followed by a reload that leaves one reservation. A second
   * attempt at 09:00 is refused with the cutoff message, and the list stays.
   */
  method CancelBeforeAndAfterCutoff(first: Reservation, second: Reservation)
    returns (afterCancel: seq<Reservation>, afterLateCancel: seq<Reservation>, message: string,
             ghost calls: seq<Request>)
    ensures afterCancel == [second] && afterLateCancel == [second]
    ensures message == CutoffMessage
    ensures calls == [GetUserReservations("10203"), Confirm(CancelPrompt),
                      DeleteReservation(first.id), GetUserReservations("10203")]
  {
    var page := new Component(Some(User("student@school.kr", "10203", "김하늘", "student")));
    page.Mount(Fetched([first, second]));
    page.HandleCancel(first.id, ClockTime(7, 59, 59, 999), true, true, Fetched([second]));
    afterCancel := page.userReservations;
    page.HandleCancel(second.id, ClockTime(9, 0, 0, 0), true, true, Fetched([]));
    afterLateCancel, message, calls := page.userReservations, page.reservationsError, page.requests;
  }

  /**
   * The same morning for an admin: the mount leaves the list empty, so no row
   * and no cancel button is ever rendered for them. The scenario therefore
   * evaluates the button and calls the cancel handler directly, to show that
   * neither is held back by the cutoff at 09:00.
   */
  method AdminSession(fetch: Fetch, reservationId: string)
    returns (shown: seq<Reservation>, message: string, button: CancelButton, ghost calls: seq<Request>)
    ensures shown == [] && message == "" && !button.disabled && button.caption == CancelLabel
    ensures calls == [Confirm(CancelPrompt)]
  {
    var admin := Some(User("admin@school.kr", "", "관리자", "admin"));
    var page := new Component(admin);
    page.Mount(fetch);
    button := CancelButtonAt(admin, ClockTime(9, 0, 0, 0));
    page.HandleCancel(reservationId, ClockTime(9, 0, 0, 0), false, false, fetch);
    shown, message, calls := page.userReservations, page.reservationsError, page.requests;
  }
}
