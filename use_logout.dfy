/** The logout sequence: notify the backend when the session is complete
    enough, ignore a failure of that request, clear both storage areas, reset
    four of the six session fields and navigate to "/". */
module UseLogout {
  import opened Wrappers
  import Browser
  import UserContext

  /** The body of the backend logout request. */
  datatype LogoutRequest = LogoutRequest(userId: int, userDate: string, userTime: string)

  /** How the backend request ended; a rejection is caught and only logged. */
  datatype RequestOutcome = Delivered | Threw

  /** The request is sent only when `userId && loginDate && loginTime` is
      truthy: all three are set, the id is not 0 and neither string is empty. */
  function RequestFor(userId: Option<int>, loginDate: Option<string>, loginTime: Option<string>)
    : (request: Option<LogoutRequest>)
    ensures request.Some? <==>
      && userId.Some? && userId.value != 0
      && loginDate.Some? && loginDate.value != ""
      && loginTime.Some? && loginTime.value != ""
    ensures request.Some? ==>
      request.value == LogoutRequest(userId.value, loginDate.value, loginTime.value)
  {
    if userId.Some? && userId.value != 0 && loginDate.Some? && loginDate.value != ""
       && loginTime.Some? && loginTime.value != ""
    then Some(LogoutRequest(userId.value, loginDate.value, loginTime.value))
    else None
  }

  /** `logout`. Whatever the request did, both storage areas end up empty,
      userId, loginEmail, loginDate and loginTime end up null, userLogId and
      overallScore keep their values, and the page navigates to "/". */
  method Logout(session: UserContext.Session, local: Browser.Storage, sessionStorage: Browser.Storage,
                outcome: RequestOutcome)
    returns (sent: Option<LogoutRequest>, warned: bool, navigatedTo: string)
    modifies session, local, sessionStorage
    ensures sent == RequestFor(old(session.userId), old(session.loginDate), old(session.loginTime))
    ensures warned <==> sent.Some? && outcome == Threw
    ensures local.items == map[] && sessionStorage.items == map[]
    ensures session.userId == None && session.loginEmail == None
    ensures session.loginDate == None && session.loginTime == None
    ensures session.userLogId == old(session.userLogId)
    ensures session.overallScore == old(session.overallScore)
    ensures navigatedTo == "/"
  {
    sent := RequestFor(session.userId, session.loginDate, session.loginTime);
    warned := sent.Some? && outcome == Threw;
    local.Clear();
    sessionStorage.Clear();
    session.SetUserId(None);
    session.SetLoginEmail(None);
    session.SetLoginDate(None);
    session.SetLoginTime(None);
    navigatedTo := "/";
  }
}
