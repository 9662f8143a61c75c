/**
 * The student dashboard: location tracking through a continuous watch,
 * the gate on which alert buttons open the dialog, composition and
 * insertion of the alert, the role check, and logout. The dialog it keeps
 * mounted is a field, so that the draft survives between openings.
 */
module StudentSide {
  import opened Wrappers
  import opened Geolocation
  import opened AlertStore
  import opened Auth
  import opened Dialog

  /** Where every failed check and the logout send the student. */
  const StudentLoginRoute: string := "/student/login"

  /** The options the dashboard asks the sensor for: high accuracy, no cached fix, 5 s per fix. */
  const TrackingOptions: WatchOptions := WatchOptions(true, 0, 5000)

  /** The two types that need a location fix before their dialog opens. */
  predicate RequiresLocation(alertType: string)
  {
    alertType == High || alertType == Moderate
  }

  /**
   * Whether a click on an alert button opens the dialog: a general
   * complaint always does, a high or moderate alert only once a fix is known.
   */
  predicate ClickAccepted(alertType: string, location: Option<Coords>): (accepted: bool)
    ensures alertType == General ==> accepted
    ensures (alertType == High || alertType == Moderate) ==> (accepted <==> location.Some?)
  {
    !RequiresLocation(alertType) || location.Some?
  }

  // ---------------------------------------------------------------------
  // location: the `watchPosition` callbacks

  /** One callback of the watch: a position, or a sensor error. */
  datatype PositionEvent = PositionFix(coords: Coords) | PositionError

  /** The location after one callback: a fix replaces it, an error leaves it. */
  function AfterPosition(location: Option<Coords>, e: PositionEvent): (r: Option<Coords>)
    ensures e.PositionFix? ==> r == Some(e.coords)
    ensures e.PositionError? ==> r == location
    ensures location.Some? ==> r.Some?
  {
    match e
    case PositionFix(c) => Some(c)
    case PositionError => location
  }

  /** The location after a run of callbacks, oldest first. */
  function LocationAfter(location: Option<Coords>, events: seq<PositionEvent>): Option<Coords>
    decreases |events|
  {
    if events == [] then location
    else LocationAfter(AfterPosition(location, events[0]), events[1..])
  }

  /** The most recent fix in a run of callbacks, looking from the newest end. */
  function LastFix(events: seq<PositionEvent>): Option<Coords>
    decreases |events|
  {
    if events == [] then None
    else match events[|events| - 1]
      case PositionFix(c) => Some(c)
      case PositionError => LastFix(events[..|events| - 1])
  }

  lemma {:induction false} LocationAfterSnoc(location: Option<Coords>, events: seq<PositionEvent>, e: PositionEvent)
    ensures LocationAfter(location, events + [e]) == AfterPosition(LocationAfter(location, events), e)
    decreases |events|
  {
    if events == [] {
      assert ([] + [e])[1..] == [];
    } else {
      assert (events + [e])[0] == events[0];
      assert (events + [e])[1..] == events[1..] + [e];
      LocationAfterSnoc(AfterPosition(location, events[0]), events[1..], e);
    }
  }

  /**
   * No history is kept: after any run of callbacks the location is the
   * latest fix among them, or what it was before when none was a fix.
   */
  lemma {:induction false} LocationIsLatestFix(location: Option<Coords>, events: seq<PositionEvent>)
    ensures LocationAfter(location, events) == if LastFix(events).Some? then LastFix(events) else location
    decreases |events|
  {
    if events != [] {
      var init := events[..|events| - 1];
      assert events == init + [events[|events| - 1]];
      LocationAfterSnoc(location, init, events[|events| - 1]);
      LocationIsLatestFix(location, init);
    }
  }

  /** Once a fix has arrived, no later callback makes the location unavailable again. */
  lemma FixIsNeverLost(location: Option<Coords>, events: seq<PositionEvent>)
    requires location.Some?
    ensures LocationAfter(location, events).Some?
  {
    LocationIsLatestFix(location, events);
  }

  // ---------------------------------------------------------------------
  // composing the insert payload

  /** `description || null`: no description and the empty one both become null. */
  function NormaliseDescription(description: Option<string>): (d: Option<string>)
    ensures d.None? <==> description.None? || description.value == ""
    ensures d.Some? ==> d == description
  {
    if description.None? || description.value == "" then None else description
  }

  /** The `alertData` object as first built, before any location is attached. */
  function BasePayload(userId: string, alertType: string, description: Option<string>): (p: Payload)
    ensures p.studentId == userId && p.alertType == alertType
    ensures p.description.None? <==> description.None? || description.value == ""
    ensures p.description == NormaliseDescription(description)
    ensures p.location.None?
  {
    Payload(userId, alertType, NormaliseDescription(description), None)
  }

  /**
   * The payload handed to `insert`: the session's user, the current type,
   * the normalised description, and the held fix exactly when the type is
   * high or moderate.
   */
  function ComposePayload(userId: string, alertType: string, description: Option<string>, location: Option<Coords>): (p: Payload)
    ensures p.studentId == userId && p.alertType == alertType
    ensures p.description == NormaliseDescription(description)
    ensures p.location.Some? <==> RequiresLocation(alertType) && location.Some?
    ensures p.location.Some? ==> p.location == location
    ensures alertType == General ==> p.location.None?
  {
    var base := BasePayload(userId, alertType, description);
    if RequiresLocation(alertType) && location.Some? then base.(location := location) else base
  }

  /** Which session check the dashboard passes: only a session with a `student` profile gets in. */
  function StudentGate(session: Option<Session>, response: ProfileResponse): (r: GateOutcome)
    ensures r.Redirect? ==> r.route == StudentLoginRoute
    ensures r == Redirect(false, StudentLoginRoute) <==> session.None?
    ensures r.Admit? <==>
      session.Some? && !response.failed && response.data.Some? && response.data.value.role == "student"
    ensures r.Admit? ==> Some(r.profile) == response.data
  {
    if session.None? then Redirect(false, StudentLoginRoute)
    else if response.failed || response.data.None? || response.data.value.role != "student" then Redirect(true, StudentLoginRoute)
    else Admit(response.data.value)
  }

  /**
   * The dashboard's `|| null` changes nothing the dialog's `|| undefined`
   * has produced: a description reaches the payload exactly when the
   * draft was not empty, and then verbatim.
   */
  lemma DraftReachesPayload(draft: string)
    ensures NormaliseDescription(SubmittedDescription(draft)) == SubmittedDescription(draft)
    ensures NormaliseDescription(SubmittedDescription(draft)) == if draft == "" then None else Some(draft)
  {
  }

  /**
   * A high alert sent with a fix and an empty draft is stored pending,
   * with that fix and no description; a general one sent with a draft
   * and no fix is stored with that description and no location.
   */
  lemma StoredAlertScenarios(store: Store, user: string, fix: Coords, text: string, id: string, now: int)
    requires text != ""
    ensures var s := Insert(store, ComposePayload(user, High, SubmittedDescription(""), Some(fix)), id, now);
      var r := s.alerts[|store.alerts|];
      r.alertType == High && r.location == Some(fix) && r.description.None? && r.status == Pending && r.studentId == user
    ensures var s := Insert(store, ComposePayload(user, General, SubmittedDescription(text), None), id, now);
      var r := s.alerts[|store.alerts|];
      r.alertType == General && r.location.None? && r.description == Some(text) && r.status == Pending
  {
  }

  /** What a submission reports: the success toast, or the failure toast's message. */
  datatype SubmitOutcome = Sent | Failed(message: string)

  class StudentDashboard {
    /** The browser's geolocation facility. */
    const geo: Geolocation
    /** The alert dialog, mounted for the dashboard's whole life. */
    const dialog: AlertDialog

    var loading: bool
    var userName: string
    var profile: Option<Profile>
    var dialogOpen: bool
    var alertType: string
    var location: Option<Coords>
    var watchId: Option<nat>
    var showLocationCard: bool
    /** Whether the mount effect has run. */
    var mounted: bool
    /** The `watchId` the mount effect's cleanup closed over: the one of the first render. */
    var cleanupWatchId: Option<nat>

    /**
     * Besides the sensor's own invariant: nothing is tracked before the
     * mount effect, and an open dialog for a high or moderate alert was
     * opened with a fix, which no later callback takes away.
     */
    ghost predicate Valid()
      reads this, geo
    {
      geo.Valid() &&
      (!mounted ==> watchId.None? && cleanupWatchId.None?) &&
      (location.Some? ==> geo.supported) &&
      (dialogOpen && RequiresLocation(alertType) ==> location.Some?)
    }

    constructor (geo: Geolocation)
      requires geo.Valid()
      ensures Valid() && this.geo == geo && fresh(dialog) && dialog.description == ""
      ensures !loading && userName == "" && profile.None? && !dialogOpen && alertType == High
      ensures location.None? && watchId.None? && !showLocationCard && !mounted
    {
      this.geo := geo;
      dialog := new AlertDialog();
      loading := false;
      userName := "";
      profile := None;
      dialogOpen := false;
      alertType := High;
      location := None;
      watchId := None;
      showLocationCard := false;
      mounted := false;
      cleanupWatchId := None;
    }

    /**
     * The mount effect's tracking half: its cleanup captures the watch id
     * of the first render (none yet), then a watch is started when the
     * browser offers geolocation.
     */
    method Mount()
      requires Valid() && !mounted
      modifies this`mounted, this`cleanupWatchId, this`watchId, geo
      ensures Valid() && mounted && cleanupWatchId.None?
      ensures geo.supported ==>
        watchId.Some? && watchId.value !in old(geo.watches) &&
        geo.watches == old(geo.watches)[watchId.value := TrackingOptions]
      ensures !geo.supported ==> watchId.None? && geo.watches == old(geo.watches)
    {
      mounted := true;
      cleanupWatchId := watchId;
      if geo.supported {
        var id := geo.WatchPosition(TrackingOptions);
        watchId := Some(id);
      }
    }

    /** The mount effect's cleanup: it clears only the watch id it captured. */
    method Unmount()
      requires Valid() && mounted
      modifies geo
      ensures Valid()
      ensures geo.watches ==
        if cleanupWatchId.Some? then old(geo.watches) - {cleanupWatchId.value} else old(geo.watches)
    {
      if cleanupWatchId.Some? {
        geo.ClearWatch(cleanupWatchId.value);
      }
    }

    /** `handleLogout`: clears the current watch, then signs out and leaves for the login page. */
    method HandleLogout() returns (exit: GateOutcome)
      requires Valid()
      modifies geo
      ensures Valid()
      ensures exit == Redirect(true, StudentLoginRoute)
      ensures geo.watches == if watchId.Some? then old(geo.watches) - {watchId.value} else old(geo.watches)
    {
      if watchId.Some? {
        geo.ClearWatch(watchId.value);
      }
      exit := Redirect(true, StudentLoginRoute);
    }

    /** `checkAuth`: keeps the profile only when the gate admits. */
    method CheckAuth(session: Option<Session>, response: ProfileResponse) returns (outcome: GateOutcome)
      requires Valid()
      modifies this`profile, this`userName
      ensures Valid()
      ensures outcome == StudentGate(session, response)
      ensures outcome.Admit? ==> profile == Some(outcome.profile) && userName == outcome.profile.fullName
      ensures outcome.Redirect? ==> profile == old(profile) && userName == old(userName)
    {
      if session.None? {
        return Redirect(false, StudentLoginRoute);
      }
      if response.failed || response.data.None? || response.data.value.role != "student" {
        return Redirect(true, StudentLoginRoute);
      }
      profile := response.data;
      userName := response.data.value.fullName;
      outcome := Admit(response.data.value);
    }

    /** The watch's success and error callbacks. */
    method OnPosition(e: PositionEvent)
      requires Valid()
      requires watchId.Some? && watchId.value in geo.watches
      modifies this`location
      ensures Valid()
      ensures location == AfterPosition(old(location), e)
    {
      match e {
        case PositionFix(c) =>
          location := Some(c);
        case PositionError =>
      }
    }

    /**
     * `handleAlertClick`: a high or moderate click without a fix is
     * turned away and changes nothing; otherwise the type is taken, the
     * location card shown for the two located types, and the dialog opened.
     */
    method HandleAlertClick(t: string) returns (accepted: bool)
      requires Valid()
      modifies this`alertType, this`showLocationCard, this`dialogOpen
      ensures Valid()
      ensures accepted <==> ClickAccepted(t, location)
      ensures accepted && RequiresLocation(t) ==>
        ShowsLocationLine(location) && (ShowDescriptionField(alertType) <==> t == Moderate)
      ensures accepted ==> alertType == t && dialogOpen && (showLocationCard <==> RequiresLocation(t))
      ensures !accepted ==>
        alertType == old(alertType) && dialogOpen == old(dialogOpen) && showLocationCard == old(showLocationCard)
    {
      if (t == High || t == Moderate) && location.None? {
        return false;
      }
      alertType := t;
      showLocationCard := t == High || t == Moderate;
      dialogOpen := true;
      accepted := true;
    }

    /**
     * `handleAlertSubmit`: without a session nothing is inserted; otherwise
     * the composed payload is inserted, and the dialog closes only when the
     * insert succeeds. `insertError` is the store's answer.
     */
    method HandleAlertSubmit(description: Option<string>, session: Option<Session>, insertError: Option<string>)
      returns (inserted: Option<Payload>, outcome: SubmitOutcome)
      requires Valid()
      modifies this`loading, this`dialogOpen
      ensures Valid()
      ensures inserted == if session.None? then None
        else Some(ComposePayload(session.value.userId, alertType, description, location))
      ensures outcome == if session.None? then Failed("Not authenticated")
        else if insertError.Some? then Failed(insertError.value) else Sent
      ensures dialogOpen == if outcome.Sent? then false else old(dialogOpen)
      ensures !loading
    {
      loading := true;
      inserted := None;
      if session.None? {
        outcome := Failed("Not authenticated");
      } else {
        var alertData := BasePayload(session.value.userId, alertType, description);
        if (alertType == High || alertType == Moderate) && location.Some? {
          alertData := alertData.(location := location);
        }
        inserted := Some(alertData);
        if insertError.Some? {
          outcome := Failed(insertError.value);
        } else {
          outcome := Sent;
          dialogOpen := false;
        }
      }
      loading := false;
    }

    /** Typing into the dialog: possible only while it is open and shows the textarea. */
    method TypeDescription(text: string)
      requires Valid()
      modifies dialog
      ensures Valid()
      ensures dialog.description == if dialogOpen && ShowDescriptionField(alertType) then text else old(dialog.description)
    {
      if dialogOpen && ShowDescriptionField(alertType) {
        dialog.Edit(text);
      }
    }

    /** The dialog's Cancel button, wired to `setDialogOpen`: closes it and keeps the draft. */
    method CancelDialog()
      requires Valid() && dialogOpen
      modifies this`dialogOpen
      ensures Valid() && !dialogOpen
    {
      var e := dialog.Cancel();
      dialogOpen := e.open;
    }

    /** The dialog's Send button: the draft goes to `handleAlertSubmit` and is cleared. */
    method SubmitDialog(session: Option<Session>, insertError: Option<string>)
      returns (inserted: Option<Payload>, outcome: SubmitOutcome)
      requires Valid() && dialogOpen
      modifies this`loading, this`dialogOpen, dialog
      ensures Valid() && dialog.description == ""
      ensures session.Some? && RequiresLocation(alertType) ==> inserted.Some? && inserted.value.location.Some?
      ensures inserted == if session.None? then None
        else Some(ComposePayload(session.value.userId, alertType, SubmittedDescription(old(dialog.description)), location))
      ensures outcome == if session.None? then Failed("Not authenticated")
        else if insertError.Some? then Failed(insertError.value) else Sent
      ensures dialogOpen == !outcome.Sent?
      ensures !loading
    {
      var e := dialog.HandleSubmit();
      inserted, outcome := HandleAlertSubmit(e.description, session, insertError);
    }
  }

  /**
   * Leaving the dashboard without logging out keeps the sensor watch
   * registered: the cleanup closed over the first render's empty watch id.
   */
  method UnmountKeepsWatch() returns (handle: nat, stillWatched: bool)
    ensures stillWatched
  {
    var geo := new Geolocation(true);
    var dash := new StudentDashboard(geo);
    dash.Mount();
    handle := dash.watchId.value;
    dash.Unmount();
    stillWatched := handle in geo.watches;
  }

  /** Logging out does release the watch the dashboard started. */
  method LogoutReleasesWatch() returns (handle: nat, stillWatched: bool)
    ensures !stillWatched
  {
    var geo := new Geolocation(true);
    var dash := new StudentDashboard(geo);
    dash.Mount();
    handle := dash.watchId.value;
    var exit := dash.HandleLogout();
    stillWatched := handle in geo.watches;
  }

  /**
   * A draft typed into a moderate or general dialog and then cancelled is
   * still sent with a later high alert, although a high dialog hides the
   * textarea.
   */
  method StaleDraftReachesHighAlert(draft: string, earlier: string, user: Session, fix: Coords)
    returns (inserted: Option<Payload>)
    requires draft != "" && (earlier == Moderate || earlier == General)
    ensures inserted == Some(Payload(user.userId, High, Some(draft), Some(fix)))
  {
    var geo := new Geolocation(true);
    var dash := new StudentDashboard(geo);
    dash.Mount();
    dash.OnPosition(PositionFix(fix));
    var ok := dash.HandleAlertClick(earlier);
    dash.TypeDescription(draft);
    dash.CancelDialog();
    ok := dash.HandleAlertClick(High);
    var outcome;
    inserted, outcome := dash.SubmitDialog(Some(user), None);
  }

  /**
   * A sensor error before any fix: a high click is turned away, so no
   * insert can follow, while a general click still opens the dialog.
   */
  method SensorErrorBlocksHighAlert() returns (highAccepted: bool, generalAccepted: bool)
    ensures !highAccepted && generalAccepted
  {
    var geo := new Geolocation(true);
    var dash := new StudentDashboard(geo);
    dash.Mount();
    dash.OnPosition(PositionError);
    highAccepted := dash.HandleAlertClick(High);
    assert !dash.dialogOpen;
    generalAccepted := dash.HandleAlertClick(General);
  }
}
