/** The session store shared by the pages: six nullable fields, each with
    its own setter, and the lookup that fails outside a provider. Numbers are
    modelled as integers. */
module UserContext {
  import opened Wrappers

  class Session {
    var userId: Option<int>
    var loginEmail: Option<string>
    var loginTime: Option<string>
    var loginDate: Option<string>
    var userLogId: Option<int>
    var overallScore: Option<int>

    /** The provider starts with every field null. */
    constructor ()
      ensures userId == None && loginEmail == None && loginTime == None
      ensures loginDate == None && userLogId == None && overallScore == None
    {
      userId := None;
      loginEmail := None;
      loginTime := None;
      loginDate := None;
      userLogId := None;
      overallScore := None;
    }

    // Each setter may change only its own field (its `modifies` frame), so
    // the other five keep their values. The setters accept null, as the
    // logout sequence relies on.

    method SetUserId(value: Option<int>)
      modifies this`userId
      ensures userId == value
    {
      userId := value;
    }

    method SetLoginEmail(value: Option<string>)
      modifies this`loginEmail
      ensures loginEmail == value
    {
      loginEmail := value;
    }

    method SetLoginTime(value: Option<string>)
      modifies this`loginTime
      ensures loginTime == value
    {
      loginTime := value;
    }

    method SetLoginDate(value: Option<string>)
      modifies this`loginDate
      ensures loginDate == value
    {
      loginDate := value;
    }

    method SetUserLogId(value: Option<int>)
      modifies this`userLogId
      ensures userLogId == value
    {
      userLogId := value;
    }

    method SetOverallScore(value: Option<int>)
      modifies this`overallScore
      ensures overallScore == value
    {
      overallScore := value;
    }
  }

  const OutsideProviderMessage: string := "useUser must be used within UserProvider"

  /** `useUser`: the session of the enclosing provider, or the error thrown
      when there is none. */
  function UseUser(provider: Option<Session>): (r: Result<Session, string>)
    ensures r.Success? <==> provider.Some?
    ensures r.Success? ==> r.value == provider.value
    ensures r.Failure? ==> r.error == OutsideProviderMessage
  {
    match provider
    case Some(session) => Success(session)
    case None => Failure(OutsideProviderMessage)
  }
}
