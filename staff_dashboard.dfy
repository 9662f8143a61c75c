/**
 * The staff dashboard: the role check, the alert feed loaded through one
 * query per filter value, its split into fresh and solved lists, the
 * checkbox that writes a status, and the realtime channel that reloads
 * the feed on any change to the alerts table.
 */
module StaffSide {
  import opened Wrappers
  import opened Geolocation
  import opened AlertStore
  import opened Auth
  import opened Realtime
  import StudentSide

  /** Where every failed check and the logout send the staff member. */
  const StaffLoginRoute: string := "/staff/login"

  /** The dashboard's `Alert` record: one feed entry. */
  datatype FeedAlert = FeedAlert(
    id: string,
    alertType: string,
    location: Option<Coords>,
    description: Option<string>,
    createdAt: int,
    status: Status,
    student: Option<StudentInfo>)

  /** The `.map` over returned rows: fields copied as they are, `student` null when the join found none. */
  function ToFeedAlert(j: JoinedRow): (a: FeedAlert)
    ensures a.id == j.record.id && a.alertType == j.record.alertType && a.location == j.record.location
    ensures a.description == j.record.description && a.createdAt == j.record.createdAt
    ensures a.status == j.record.status && a.student == j.student
  {
    FeedAlert(j.record.id, j.record.alertType, j.record.location, j.record.description,
              j.record.createdAt, j.record.status, j.student)
  }

  /** The feed built from a list of alert rows, row by row. */
  function View(rows: seq<AlertRecord>, profiles: map<string, StudentInfo>): (v: seq<FeedAlert>)
    ensures |v| == |rows|
    ensures forall i :: 0 <= i < |rows| ==> v[i] == ToFeedAlert(JoinRow(rows[i], profiles))
  {
    var joined := Join(rows, profiles);
    seq(|joined|, i requires 0 <= i < |joined| => ToFeedAlert(joined[i]))
  }

  /**
   * What `loadAlerts` leaves in `alerts`: the mapped query result, or
   * nothing at all when the query fails.
   */
  function LoadedView(store: Store, filter: string, queryFails: bool): (v: seq<FeedAlert>)
    ensures queryFails ==> v == []
    ensures !queryFails ==> |v| == |Matching(store.alerts, filter)|
  {
    if queryFails then []
    else
      var sel := Select(store.alerts, filter);
      assert |sel| == |multiset(sel)| == |multiset(Matching(store.alerts, filter))|;
      View(sel, store.profiles)
  }

  /** Most recent first, on the feed. */
  ghost predicate FeedNewestFirst(a: seq<FeedAlert>)
  {
    forall i, j :: 0 <= i < j < |a| ==> a[i].createdAt >= a[j].createdAt
  }

  /** The feed entries of one type, in feed order: the reference for what a typed query should show. */
  function FeedOfType(a: seq<FeedAlert>, t: string): (r: seq<FeedAlert>)
    ensures forall x :: x in r <==> x in a && x.alertType == t
  {
    if a == [] then []
    else
      var rest := FeedOfType(a[1..], t);
      assert forall x :: x in a[1..] ==> x in a;
      if a[0].alertType == t then [a[0]] + rest else rest
  }

  /** Keeping the head of a newest-first feed in front of entries drawn from its tail keeps the order. */
  lemma KeepHeadFeedNewestFirst(a: seq<FeedAlert>, rest: seq<FeedAlert>)
    requires a != []
    requires forall x :: x in rest ==> x in a[1..]
    requires FeedNewestFirst(a[1..]) ==> FeedNewestFirst(rest)
    ensures FeedNewestFirst(a) ==> FeedNewestFirst([a[0]] + rest)
  {
    if FeedNewestFirst(a) {
      assert FeedNewestFirst(a[1..]);
      var r := [a[0]] + rest;
      forall i, j | 0 <= i < j < |r| ensures r[i].createdAt >= r[j].createdAt {
        assert r[j] == rest[j - 1] && r[j] in rest;
        if i > 0 {
          assert r[i] == rest[i - 1];
        } else {
          var m :| 0 <= m < |a[1..]| && a[1..][m] == r[j];
          assert a[m + 1] == r[j];
        }
      }
    }
  }

  /** The feed entries with one status, in feed order: the `alerts.filter(a => a.status === ...)` lists. */
  function WithStatus(a: seq<FeedAlert>, s: Status): (r: seq<FeedAlert>)
    ensures forall x :: x in r <==> x in a && x.status == s
    ensures FeedNewestFirst(a) ==> FeedNewestFirst(r)
  {
    if a == [] then []
    else
      var rest := WithStatus(a[1..], s);
      assert forall x :: x in a[1..] ==> x in a;
      if a[0].status == s then
        KeepHeadFeedNewestFirst(a, rest);
        [a[0]] + rest
      else
        assert FeedNewestFirst(a) ==> FeedNewestFirst(a[1..]);
        rest
  }

  /** "Fresh Alerts": the pending entries. */
  function FreshAlerts(a: seq<FeedAlert>): (r: seq<FeedAlert>)
    ensures forall x :: x in r <==> x in a && x.status == Pending
    ensures FeedNewestFirst(a) ==> FeedNewestFirst(r)
  {
    WithStatus(a, Pending)
  }

  /** "Solved Alerts": the completed entries. */
  function CompletedAlerts(a: seq<FeedAlert>): (r: seq<FeedAlert>)
    ensures forall x :: x in r <==> x in a && x.status == Completed
    ensures FeedNewestFirst(a) ==> FeedNewestFirst(r)
  {
    WithStatus(a, Completed)
  }

  lemma ViewCons(rows: seq<AlertRecord>, profiles: map<string, StudentInfo>)
    requires rows != []
    ensures View(rows, profiles) == [ToFeedAlert(JoinRow(rows[0], profiles))] + View(rows[1..], profiles)
  {
    var v := View(rows, profiles);
    assert v[1..] == View(rows[1..], profiles);
    assert v == [v[0]] + v[1..];
  }

  lemma {:induction false} ViewOfType(rows: seq<AlertRecord>, profiles: map<string, StudentInfo>, t: string)
    ensures View(OfType(rows, t), profiles) == FeedOfType(View(rows, profiles), t)
  {
    if rows != [] {
      ViewOfType(rows[1..], profiles, t);
      ViewCons(rows, profiles);
      var v := View(rows, profiles);
      assert v[0].alertType == rows[0].alertType;
      assert v[1..] == View(rows[1..], profiles);
      if rows[0].alertType == t {
        var f := OfType(rows, t);
        assert f == [rows[0]] + OfType(rows[1..], t);
        assert f[1..] == OfType(rows[1..], t);
        ViewCons(f, profiles);
      } else {
        assert OfType(rows, t) == OfType(rows[1..], t);
      }
    }
  }

  /**
   * With the filter on one type the feed holds exactly the entries of that
   * type that the "all" feed holds, in the same order; the "all" feed is
   * the whole table, newest first.
   */
  lemma TypedFeedIsSubsetOfAll(store: Store, t: string)
    requires t != AllTypes
    ensures LoadedView(store, t, false) == FeedOfType(LoadedView(store, AllTypes, false), t)
  {
    SelectTypedIsSubsetOfAll(store.alerts, t);
    ViewOfType(Select(store.alerts, AllTypes), store.profiles, t);
  }

  lemma LoadedViewNewestFirst(store: Store, filter: string)
    ensures FeedNewestFirst(LoadedView(store, filter, false))
  {
    var sel := Select(store.alerts, filter);
    var v := LoadedView(store, filter, false);
    forall i, j | 0 <= i < j < |v| ensures v[i].createdAt >= v[j].createdAt {
      assert v[i].createdAt == sel[i].createdAt && v[j].createdAt == sel[j].createdAt;
    }
  }

  lemma LoadedViewShows(store: Store, filter: string, a: AlertRecord)
    requires a in store.alerts && (filter == AllTypes || a.alertType == filter)
    ensures ToFeedAlert(JoinRow(a, store.profiles)) in LoadedView(store, filter, false)
  {
    var sel := Select(store.alerts, filter);
    SelectMembers(store.alerts, filter, a);
    var i :| 0 <= i < |sel| && sel[i] == a;
    assert LoadedView(store, filter, false)[i] == ToFeedAlert(JoinRow(a, store.profiles));
  }

  lemma LoadedViewFrom(store: Store, filter: string, x: FeedAlert)
    requires x in LoadedView(store, filter, false)
    ensures exists r :: (r in store.alerts && (filter == AllTypes || r.alertType == filter) &&
      x == ToFeedAlert(JoinRow(r, store.profiles)))
  {
    var sel := Select(store.alerts, filter);
    var v := LoadedView(store, filter, false);
    var i :| 0 <= i < |v| && v[i] == x;
    SelectMembers(store.alerts, filter, sel[i]);
    assert x == ToFeedAlert(JoinRow(sel[i], store.profiles));
  }

  /**
   * A loaded feed is newest first; it shows every stored alert the filter
   * lets through, with its submitter joined in, and nothing else. A failed
   * load shows nothing.
   */
  lemma LoadedViewContents(store: Store, filter: string, a: AlertRecord)
    ensures FeedNewestFirst(LoadedView(store, filter, false))
    ensures a in store.alerts && (filter == AllTypes || a.alertType == filter) ==>
      ToFeedAlert(JoinRow(a, store.profiles)) in LoadedView(store, filter, false)
    ensures forall x :: x in LoadedView(store, filter, false) ==>
      exists r :: (r in store.alerts && (filter == AllTypes || r.alertType == filter) &&
        x == ToFeedAlert(JoinRow(r, store.profiles)))
    ensures LoadedView(store, filter, true) == []
  {
    LoadedViewNewestFirst(store, filter);
    if a in store.alerts && (filter == AllTypes || a.alertType == filter) {
      LoadedViewShows(store, filter, a);
    }
    forall x | x in LoadedView(store, filter, false)
      ensures exists r :: (r in store.alerts && (filter == AllTypes || r.alertType == filter) &&
        x == ToFeedAlert(JoinRow(r, store.profiles)))
    {
      LoadedViewFrom(store, filter, x);
    }
  }

  lemma {:induction false} PartitionCounts(a: seq<FeedAlert>)
    ensures multiset(WithStatus(a, Pending)) + multiset(WithStatus(a, Completed)) == multiset(a)
  {
    if a != [] {
      var rest := a[1..];
      PartitionCounts(rest);
      assert a == [a[0]] + rest;
      if a[0].status == Pending {
        assert WithStatus(a, Pending) == [a[0]] + WithStatus(rest, Pending);
        assert WithStatus(a, Completed) == WithStatus(rest, Completed);
      } else {
        assert WithStatus(a, Pending) == WithStatus(rest, Pending);
        assert WithStatus(a, Completed) == [a[0]] + WithStatus(rest, Completed);
      }
    }
  }

  /** One step of the status filter: the head is kept exactly when it has the status. */
  lemma WithStatusCons(x: FeedAlert, r: seq<FeedAlert>, s: Status)
    ensures WithStatus([x] + r, s) == (if x.status == s then [x] else []) + WithStatus(r, s)
  {
    assert ([x] + r)[0] == x && ([x] + r)[1..] == r;
  }

  /** Filtering by status distributes over concatenation: it never reorders what it keeps. */
  lemma {:induction false} WithStatusAppend(a: seq<FeedAlert>, b: seq<FeedAlert>, s: Status)
    ensures WithStatus(a + b, s) == WithStatus(a, s) + WithStatus(b, s)
  {
    if a == [] {
      assert a + b == b;
    } else {
      var x, rest := a[0], a[1..];
      var head := if x.status == s then [x] else [];
      assert a == [x] + rest;
      assert a + b == [x] + (rest + b);
      calc {
        WithStatus(a + b, s);
        { WithStatusCons(x, rest + b, s); }
        head + WithStatus(rest + b, s);
        { WithStatusAppend(rest, b, s); }
        head + (WithStatus(rest, s) + WithStatus(b, s));
        (head + WithStatus(rest, s)) + WithStatus(b, s);
        { WithStatusCons(x, rest, s); }
        WithStatus(a, s) + WithStatus(b, s);
      }
    }
  }

  /**
   * The two lists split the feed: every entry is in exactly one of them,
   * as often as in the feed, and each list keeps the feed's relative order,
   * so a feed split at any point splits both lists at the same point.
   */
  lemma PartitionIsExact(a: seq<FeedAlert>)
    ensures multiset(FreshAlerts(a)) + multiset(CompletedAlerts(a)) == multiset(a)
    ensures forall x :: x in FreshAlerts(a) ==> x !in CompletedAlerts(a)
    ensures FeedNewestFirst(a) ==> FeedNewestFirst(FreshAlerts(a)) && FeedNewestFirst(CompletedAlerts(a))
    ensures forall k :: 0 <= k <= |a| ==>
      FreshAlerts(a) == FreshAlerts(a[..k]) + FreshAlerts(a[k..]) &&
      CompletedAlerts(a) == CompletedAlerts(a[..k]) + CompletedAlerts(a[k..])
  {
    PartitionCounts(a);
    forall k | 0 <= k <= |a|
      ensures FreshAlerts(a) == FreshAlerts(a[..k]) + FreshAlerts(a[k..])
      ensures CompletedAlerts(a) == CompletedAlerts(a[..k]) + CompletedAlerts(a[k..])
    {
      assert a == a[..k] + a[k..];
      WithStatusAppend(a[..k], a[k..], Pending);
      WithStatusAppend(a[..k], a[k..], Completed);
    }
  }

  // ---------------------------------------------------------------------
  // status writes

  /** `completed ? 'completed' : 'pending'`. */
  function StatusFor(completed: bool): (s: Status)
    ensures s == Completed <==> completed
  {
    if completed then Completed else Pending
  }

  /** The list a checkbox is drawn in. */
  datatype Section = FreshSection | SolvedSection

  /** A checkbox's `checked` value: the status in the fresh list, always ticked in the solved list. */
  predicate CheckboxChecked(section: Section, a: FeedAlert): (checked: bool)
    ensures section == SolvedSection ==> checked
    ensures section == FreshSection ==> (checked <==> a.status == Completed)
  {
    match section
    case FreshSection => a.status == Completed
    case SolvedSection => true
  }

  /** The status a click writes: the click flips the box, and `onChange` passes the flipped value on. */
  function ClickWrites(section: Section, a: FeedAlert): (s: Status)
    ensures section == SolvedSection ==> s == Pending
    ensures section == FreshSection ==> s != a.status
  {
    StatusFor(!CheckboxChecked(section, a))
  }

  /** Ticking a fresh alert completes it; unticking a solved alert makes it pending again. */
  lemma ClickFlipsStatus(feed: seq<FeedAlert>, a: FeedAlert)
    ensures a in FreshAlerts(feed) ==> ClickWrites(FreshSection, a) == Completed
    ensures a in CompletedAlerts(feed) ==> ClickWrites(SolvedSection, a) == Pending
    ensures a in FreshAlerts(feed) || a in CompletedAlerts(feed) ==>
      ClickWrites(if a.status == Pending then FreshSection else SolvedSection, a) != a.status
  {
  }

  /** Every row the update touched now has the written status. */
  lemma UpdatedRowHasStatus(rows: seq<AlertRecord>, id: string, st: Status, r: AlertRecord)
    requires r in SetStatus(rows, id, st) && r.id == id
    ensures r.status == st
  {
    var u := SetStatus(rows, id, st);
    var k :| 0 <= k < |u| && u[k] == r;
  }

  /**
   * After an alert is set to completed, reloading the "all" feed shows it
   * among the solved alerts and never among the fresh ones.
   */
  lemma CompletedAlertIsSolvedAfterReload(store: Store, id: string)
    ensures var view := LoadedView(store.(alerts := SetStatus(store.alerts, id, Completed)), AllTypes, false);
      forall a :: a in view && a.id == id ==> a in CompletedAlerts(view) && a !in FreshAlerts(view)
    ensures var view := LoadedView(store.(alerts := SetStatus(store.alerts, id, Completed)), AllTypes, false);
      (exists r :: r in store.alerts && r.id == id) ==> exists a :: a in CompletedAlerts(view) && a.id == id
  {
    var updated := store.(alerts := SetStatus(store.alerts, id, Completed));
    var view := LoadedView(updated, AllTypes, false);
    forall a | a in view && a.id == id ensures a.status == Completed {
      LoadedViewFrom(updated, AllTypes, a);
      var r :| r in updated.alerts && a == ToFeedAlert(JoinRow(r, updated.profiles));
      UpdatedRowHasStatus(store.alerts, id, Completed, r);
    }
    if r :| r in store.alerts && r.id == id {
      var k :| 0 <= k < |store.alerts| && store.alerts[k] == r;
      var u := updated.alerts[k];
      LoadedViewShows(updated, AllTypes, u);
      assert ToFeedAlert(JoinRow(u, updated.profiles)).id == id;
    }
  }

  /** Which colour badge a type gets; unknown types are grey. */
  function AlertColor(alertType: string): (colour: string)
    ensures colour == "bg-gray-500" <==> alertType != High && alertType != Moderate && alertType != General
    ensures alertType == High ==> colour == "bg-red-500"
    ensures alertType == Moderate ==> colour == "bg-orange-500"
    ensures alertType == General ==> colour == "bg-blue-500"
  {
    if alertType == High then "bg-red-500"
    else if alertType == Moderate then "bg-orange-500"
    else if alertType == General then "bg-blue-500"
    else "bg-gray-500"
  }

  /**
   * The staff `checkAuth`: no session redirects without signing out; a
   * missing profile or a role other than `staff` signs out first. The
   * query's error flag is not consulted.
   */
  function StaffGate(session: Option<Session>, response: ProfileResponse): (r: GateOutcome)
    ensures r.Redirect? ==> r.route == StaffLoginRoute
    ensures r == Redirect(false, StaffLoginRoute) <==> session.None?
    ensures r.Admit? <==> session.Some? && response.data.Some? && response.data.value.role == "staff"
    ensures r.Admit? ==> Some(r.profile) == response.data
  {
    if session.None? then Redirect(false, StaffLoginRoute)
    else if response.data.None? || response.data.value.role != "staff" then Redirect(true, StaffLoginRoute)
    else Admit(response.data.value)
  }

  /**
   * No profile gets past both dashboards' checks; and the staff check,
   * unlike the student one, admits a staff row even when the query
   * reported an error.
   */
  lemma GatesAreExclusive(session: Option<Session>, response: ProfileResponse)
    ensures !(StaffGate(session, response).Admit? && StudentSide.StudentGate(session, response).Admit?)
    ensures session.Some? && response.failed && response.data.Some? ==>
      StudentSide.StudentGate(session, response).Redirect? &&
      (StaffGate(session, response).Admit? <==> response.data.value.role == "staff")
  {
  }

  /** What the component renders: a loading line, or the two lists. */
  datatype StaffView = LoadingScreen | Lists(pending: seq<FeedAlert>, solved: seq<FeedAlert>)

  class StaffDashboard {
    /** The realtime service the channel is opened on. */
    const rt: Realtime

    var alerts: seq<FeedAlert>
    var filter: string
    var userName: string
    var loading: bool
    /** The channel the current run of the `[filter]` effect opened, if any. */
    var channel: Option<nat>

    /** At most one channel is live, and it is the one this dashboard holds. */
    ghost predicate Valid()
      reads this, rt
    {
      rt.Valid() &&
      (channel.Some? ==> channel.value < rt.nextHandle) &&
      rt.live == if channel.Some? then {channel.value} else {}
    }

    constructor (rt: Realtime)
      requires rt.Valid() && rt.live == {}
      ensures Valid() && this.rt == rt
      ensures alerts == [] && filter == AllTypes && userName == "" && loading && channel.None?
    {
      this.rt := rt;
      alerts := [];
      filter := AllTypes;
      userName := "";
      loading := true;
      channel := None;
    }

    /** The rendered view, with `freshAlerts` and `completedAlerts` computed from `alerts`. */
    function Render(): (v: StaffView)
      reads this
      ensures v.LoadingScreen? <==> loading
      ensures v.Lists? ==>
        multiset(v.pending) + multiset(v.solved) == multiset(alerts) &&
        (forall x :: x in v.pending ==> x.status == Pending) &&
        (forall x :: x in v.solved ==> x.status == Completed)
    {
      if loading then LoadingScreen
      else
        PartitionIsExact(alerts);
        Lists(FreshAlerts(alerts), CompletedAlerts(alerts))
    }

    /** `checkAuth`: the name is kept only when the gate admits. */
    method CheckAuth(session: Option<Session>, response: ProfileResponse) returns (outcome: GateOutcome)
      modifies this`userName
      ensures outcome == StaffGate(session, response)
      ensures userName == if outcome.Admit? then outcome.profile.fullName else old(userName)
    {
      if session.None? {
        return Redirect(false, StaffLoginRoute);
      }
      if response.data.None? || response.data.value.role != "staff" {
        return Redirect(true, StaffLoginRoute);
      }
      userName := response.data.value.fullName;
      outcome := Admit(response.data.value);
    }

    /** `loadAlerts` against the store as it is; a failed query empties the list. */
    method LoadAlerts(store: Store, queryFails: bool)
      modifies this`alerts, this`loading
      ensures alerts == LoadedView(store, filter, queryFails)
      ensures !loading
    {
      loading := true;
      if queryFails {
        alerts := [];
      } else {
        alerts := View(Select(store.alerts, filter), store.profiles);
      }
      loading := false;
    }

    /** One run of the `[filter]` effect: open a channel, then load the feed. */
    method RunEffect(store: Store, queryFails: bool)
      requires Valid() && channel.None?
      modifies this`channel, this`alerts, this`loading, rt
      ensures Valid() && channel == Some(old(rt.nextHandle))
      ensures alerts == LoadedView(store, filter, queryFails) && !loading
    {
      var handle := rt.Subscribe();
      channel := Some(handle);
      LoadAlerts(store, queryFails);
    }

    /** The effect's cleanup: remove the channel. */
    method Unmount()
      requires Valid() && channel.Some?
      modifies this`channel, rt
      ensures Valid() && channel.None? && rt.live == {}
      ensures rt.nextHandle == old(rt.nextHandle)
    {
      rt.RemoveChannel(channel.value);
      channel := None;
    }

    /** The first render's effect run. */
    method Mount(store: Store, queryFails: bool)
      requires Valid() && channel.None?
      modifies this`channel, this`alerts, this`loading, rt
      ensures Valid() && channel.Some?
      ensures alerts == LoadedView(store, filter, queryFails) && !loading
    {
      RunEffect(store, queryFails);
    }

    /**
     * A filter button. A new value re-runs the effect: the old channel is
     * removed, a new one opened, and the feed reloaded under the new
     * predicate. The same value changes nothing.
     */
    method SetFilter(f: string, store: Store, queryFails: bool)
      requires Valid() && channel.Some?
      modifies this`filter, this`channel, this`alerts, this`loading, rt
      ensures Valid() && channel.Some? && filter == f
      ensures f == old(filter) ==> channel == old(channel) && alerts == old(alerts) && loading == old(loading)
      ensures f != old(filter) ==>
        channel != old(channel) && alerts == LoadedView(store, f, queryFails) && !loading
    {
      if f != filter {
        Unmount();
        filter := f;
        RunEffect(store, queryFails);
      }
    }

    /** A change event on the alerts table: a live channel reloads the feed under the current filter. */
    method OnAlertsChanged(store: Store, queryFails: bool)
      modifies this`alerts, this`loading
      ensures channel.Some? ==> alerts == LoadedView(store, filter, queryFails) && !loading
      ensures channel.None? ==> alerts == old(alerts) && loading == old(loading)
    {
      if channel.Some? {
        LoadAlerts(store, queryFails);
      }
    }

    /**
     * `toggleCompleted`: writes the status for `completed` into the row
     * with this id and reloads; a failed write leaves store and list as
     * they were. Returns the store after the write.
     */
    method ToggleCompleted(store: Store, alertId: string, completed: bool, updateFails: bool, reloadFails: bool)
      returns (after: Store)
      modifies this`alerts, this`loading
      ensures after == if updateFails then store
        else store.(alerts := SetStatus(store.alerts, alertId, StatusFor(completed)))
      ensures updateFails ==> alerts == old(alerts) && loading == old(loading)
      ensures !updateFails ==> alerts == LoadedView(after, filter, reloadFails) && !loading
    {
      if updateFails {
        return store;
      }
      after := store.(alerts := SetStatus(store.alerts, alertId, if completed then Completed else Pending));
      LoadAlerts(after, reloadFails);
    }

    /** A click on an entry's checkbox, wired to `toggleCompleted(alert.id, e.target.checked)`. */
    method ClickCheckbox(section: Section, a: FeedAlert, store: Store, updateFails: bool, reloadFails: bool)
      returns (after: Store)
      modifies this`alerts, this`loading
      ensures after == if updateFails then store
        else store.(alerts := SetStatus(store.alerts, a.id, ClickWrites(section, a)))
      ensures !updateFails ==> alerts == LoadedView(after, filter, reloadFails) && !loading
      ensures updateFails ==> alerts == old(alerts) && loading == old(loading)
    {
      after := ToggleCompleted(store, a.id, !CheckboxChecked(section, a), updateFails, reloadFails);
    }
  }

  /** Changing the filter swaps the channel: the first is closed, exactly one other is live. */
  method FilterChangeReplacesChannel(store: Store, t: string) returns (first: nat, second: nat, live: set<nat>)
    requires t != AllTypes
    ensures first != second && live == {second}
  {
    var rt := new Realtime();
    var dash := new StaffDashboard(rt);
    dash.Mount(store, false);
    first := dash.channel.value;
    dash.SetFilter(t, store, false);
    second := dash.channel.value;
    live := rt.live;
  }
}
