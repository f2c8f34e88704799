/** The page that routes between the login, dashboard, quiz and certificate
    views, keeps the completed and attempted day lists, and persists the user
    and both lists in the browser's local storage. Stored values are kept as
    the records they encode; the JSON text itself is not modelled. */
module Index {
  import opened Wrappers

  datatype View = LoginView | DashboardView | QueryView | CertificateView

  datatype UserData = UserData(name: string, track: string, batchCode: string)

  /** A value in local storage, as written by this page. */
  datatype Saved = SavedUser(user: UserData) | SavedDays(days: seq<int>)

  const UserKey: string := "haq_user"
  const CompletedKey: string := "haq_completed"
  const AttemptedKey: string := "haq_attempted"

  /** The number of days that earns the certificate. */
  const CertificateDays: int := 15

  /** Each of the page's keys holds the kind of record the page writes under it. */
  ghost predicate WellFormed(storage: map<string, Saved>)
  {
    && (UserKey in storage ==> storage[UserKey].SavedUser?)
    && (CompletedKey in storage ==> storage[CompletedKey].SavedDays?)
    && (AttemptedKey in storage ==> storage[AttemptedKey].SavedDays?)
  }

  /** The user restored from storage, if one was saved. */
  function SavedUserIn(storage: map<string, Saved>): Option<UserData>
  {
    if UserKey in storage && storage[UserKey].SavedUser? then Some(storage[UserKey].user) else None
  }

  /** The day list restored from `key`: the saved list, or the initial empty list. */
  function SavedDaysIn(storage: map<string, Saved>, key: string): seq<int>
  {
    if key in storage && storage[key].SavedDays? then storage[key].days else []
  }

  /** Writing both lists keeps storage well formed and leaves the saved user alone. */
  lemma StoreDays(storage: map<string, Saved>, completed: seq<int>, attempted: seq<int>)
    requires WellFormed(storage)
    ensures var s := storage[CompletedKey := SavedDays(completed)][AttemptedKey := SavedDays(attempted)];
      && WellFormed(s) && SavedUserIn(s) == SavedUserIn(storage)
      && SavedDaysIn(s, CompletedKey) == completed && SavedDaysIn(s, AttemptedKey) == attempted
  {
  }

  /** Appending the same day to both lists keeps the completed entries within the attempted ones. */
  lemma AppendKeepsWithin(completed: seq<int>, attempted: seq<int>, day: int)
    ensures multiset(completed) <= multiset(attempted) ==>
      multiset(completed + [day]) <= multiset(attempted + [day])
  {
    assert multiset(completed + [day]) == multiset(completed) + multiset{day};
    assert multiset(attempted + [day]) == multiset(attempted) + multiset{day};
  }

  /** What the page renders. */
  datatype Screen =
    | LoginScreen
    | QueryScreen(day: int, hasAttempted: bool)
    | CertificateScreen(user: UserData)
    | DashboardScreen(user: UserData, completedDays: seq<int>)
    | Blank

  class App {
    var view: View
    var user: Option<UserData>
    var completedDays: seq<int>
    var attemptedDays: seq<int>
    var selectedDay: Option<int>
    var storage: map<string, Saved>
    /** Return-to-dashboard timers scheduled by completions and not yet fired. */
    var pendingReturns: nat

    /** Storage holds exactly the page's user and lists, so a reload restores them. */
    ghost predicate Persisted()
      reads this
    {
      && WellFormed(storage)
      && user == SavedUserIn(storage)
      && completedDays == SavedDaysIn(storage, CompletedKey)
      && attemptedDays == SavedDaysIn(storage, AttemptedKey)
    }

    /** Every completed entry is also an attempted entry (with multiplicity). */
    ghost predicate CompletedWithinAttempted()
      reads this
    {
      multiset(completedDays) <= multiset(attemptedDays)
    }

    /** Start-up: the page opens on the login view, then restores the saved
        user (moving to the dashboard) and the saved lists; a restored
        completed list of exactly 15 entries moves to the certificate. */
    constructor (storage: map<string, Saved>)
      requires WellFormed(storage)
      ensures Persisted() && this.storage == storage
      ensures user == SavedUserIn(storage)
      ensures completedDays == SavedDaysIn(storage, CompletedKey)
      ensures attemptedDays == SavedDaysIn(storage, AttemptedKey)
      ensures view == (if |completedDays| == CertificateDays then CertificateView
                       else if user.Some? then DashboardView else LoginView)
      ensures selectedDay == None && pendingReturns == 0
    {
      view := LoginView;
      user := None;
      completedDays := [];
      attemptedDays := [];
      selectedDay := None;
      this.storage := storage;
      pendingReturns := 0;
      new;
      if UserKey in storage {
        user := Some(storage[UserKey].user);
        view := DashboardView;
      }
      if CompletedKey in storage {
        completedDays := storage[CompletedKey].days;
        CertificateCheck();
      }
      if AttemptedKey in storage {
        attemptedDays := storage[AttemptedKey].days;
      }
    }

    /** The effect that runs whenever the completed list is replaced: exactly
        15 entries force the certificate view, whatever view was showing. */
    method CertificateCheck()
      modifies this`view
      ensures view == if |completedDays| == CertificateDays then CertificateView else old(view)
    {
      if |completedDays| == CertificateDays {
        view := CertificateView;
      }
    }

    /** `handleLogin`: store the user, persist it and show the dashboard. */
    method HandleLogin(name: string, track: string, batchCode: string)
      requires Persisted()
      modifies this`user, this`storage, this`view
      ensures Persisted()
      ensures user == Some(UserData(name, track, batchCode))
      ensures storage == old(storage)[UserKey := SavedUser(UserData(name, track, batchCode))]
      ensures view == DashboardView
    {
      var u := UserData(name, track, batchCode);
      user := Some(u);
      storage := storage[UserKey := SavedUser(u)];
      view := DashboardView;
    }

    /** `handleDayClick`: remember the day and open the quiz. */
    method HandleDayClick(day: int)
      modifies this`selectedDay, this`view
      ensures selectedDay == Some(day) && view == QueryView
    {
      selectedDay := Some(day);
      view := QueryView;
    }

    /** `handleQueryComplete`: append the day to both lists (duplicates are
        kept), persist both, schedule the return to the dashboard, and let the
        certificate check see the new completed list. */
    method HandleQueryComplete(day: int)
      requires Persisted()
      modifies this`completedDays, this`attemptedDays, this`storage, this`pendingReturns, this`view
      ensures Persisted()
      ensures old(CompletedWithinAttempted()) ==> CompletedWithinAttempted()
      ensures completedDays == old(completedDays) + [day]
      ensures attemptedDays == old(attemptedDays) + [day]
      ensures storage == old(storage)[CompletedKey := SavedDays(completedDays)]
                                     [AttemptedKey := SavedDays(attemptedDays)]
      ensures pendingReturns == old(pendingReturns) + 1
      ensures view == if |completedDays| == CertificateDays then CertificateView else old(view)
    {
      var newCompleted := completedDays + [day];
      var newAttempted := attemptedDays + [day];
      StoreDays(storage, newCompleted, newAttempted);
      AppendKeepsWithin(completedDays, attemptedDays, day);
      completedDays := newCompleted;
      attemptedDays := newAttempted;
      storage := storage[CompletedKey := SavedDays(newCompleted)][AttemptedKey := SavedDays(newAttempted)];
      pendingReturns := pendingReturns + 1;
      CertificateCheck();
    }

    /** A return-to-dashboard timer fires: the dashboard is shown and the
        selected day forgotten, even when the certificate view was showing. */
    method ReturnTimerFires()
      requires pendingReturns > 0
      modifies this`view, this`selectedDay, this`pendingReturns
      ensures view == DashboardView && selectedDay == None
      ensures pendingReturns == old(pendingReturns) - 1
    {
      view := DashboardView;
      selectedDay := None;
      pendingReturns := pendingReturns - 1;
    }

    /** `handleBackToDashboard`. */
    method HandleBackToDashboard()
      modifies this`view, this`selectedDay
      ensures view == DashboardView && selectedDay == None
    {
      view := DashboardView;
      selectedDay := None;
    }

    /** `handleReset`: remove the three keys, forget the user and both lists,
        and return to the login view. The selected day and any scheduled
        timers are left alone. */
    method HandleReset()
      requires Persisted()
      modifies this`storage, this`user, this`completedDays, this`attemptedDays, this`view
      ensures Persisted() && CompletedWithinAttempted()
      ensures storage == old(storage) - {UserKey, CompletedKey, AttemptedKey}
      ensures user == None && completedDays == [] && attemptedDays == [] && view == LoginView
    {
      storage := storage - {UserKey};
      storage := storage - {CompletedKey};
      storage := storage - {AttemptedKey};
      user := None;
      completedDays := [];
      CertificateCheck();
      attemptedDays := [];
      view := LoginView;
    }

    /** What the page renders. The quiz needs a selected day that is not 0
        (the check is a truthiness test) and a user; it is told whether the day
        was attempted. A view whose user is missing renders nothing. */
    function Render(): (screen: Screen)
      reads this
      ensures screen.QueryScreen? <==>
        view == QueryView && selectedDay.Some? && selectedDay.value != 0 && user.Some?
      ensures screen.QueryScreen? ==>
        screen.day == selectedDay.value && (screen.hasAttempted <==> screen.day in attemptedDays)
      ensures screen.Blank? <==>
        view != LoginView && (user.None? || (view == QueryView && (selectedDay.None? || selectedDay.value == 0)))
      ensures screen == LoginScreen <==> view == LoginView
      ensures view == CertificateView && user.Some? ==> screen == CertificateScreen(user.value)
      ensures view == DashboardView && user.Some? ==> screen == DashboardScreen(user.value, completedDays)
    {
      match view
      case LoginView => LoginScreen
      case QueryView =>
        if selectedDay.Some? && selectedDay.value != 0 && user.Some?
        then QueryScreen(selectedDay.value, selectedDay.value in attemptedDays)
        else Blank
      case CertificateView => if user.Some? then CertificateScreen(user.value) else Blank
      case DashboardView => if user.Some? then DashboardScreen(user.value, completedDays) else Blank
    }
  }

  /** A reload rebuilds the same user and lists from storage. */
  method Reload(app: App) returns (reloaded: App)
    requires app.Persisted()
    ensures fresh(reloaded)
    ensures reloaded.user == app.user
    ensures reloaded.completedDays == app.completedDays
    ensures reloaded.attemptedDays == app.attemptedDays
  {
    reloaded := new App(app.storage);
  }

  /** Completing the fifteenth day shows the certificate, but the return
      timer of that same completion then replaces it with the dashboard. */
  method FifteenthCompletion(app: App, day: int)
    requires app.Persisted() && |app.completedDays| == CertificateDays - 1
    modifies app
    ensures app.view == DashboardView && |app.completedDays| == CertificateDays
  {
    app.HandleQueryComplete(day);
    assert app.view == CertificateView;
    app.ReturnTimerFires();
  }
}
