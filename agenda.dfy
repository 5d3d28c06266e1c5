/**
 * The medical agenda (src/components/MedicalAgendaPage.tsx): a login by username, then a
 * dashboard over the appointments of the user's scope, bucketed into today, tomorrow or the
 * next seven days, with per-status statistics, grouping by date, status updates and the bulk
 * "send reminders for a day" transition.
 */
module MedicalAgenda {
  import opened Base
  import opened Strings
  import opened Lists
  import opened Types
  import opened LocalDates

  // ---------------------------------------------------------------------------
  // Login
  // ---------------------------------------------------------------------------

  const LOGIN_ERROR := "Usuario o contraseña incorrectos."

  predicate UsernameMatches(u: ScheduleUser, username: string)
  {
    ToLower(u.username) == ToLower(username)
  }

  function UsernameIs(username: string): ScheduleUser -> bool
  {
    (u: ScheduleUser) => UsernameMatches(u, username)
  }

  /** The user a login attempt finds: the first whose username equals the input ignoring case. */
  function FindUser(users: seq<ScheduleUser>, username: string): (r: Option<ScheduleUser>)
    ensures r.None? <==> forall i :: 0 <= i < |users| ==> !UsernameMatches(users[i], username)
    ensures r.Some? ==> exists i :: 0 <= i < |users| && users[i] == r.value && UsernameMatches(r.value, username)
                                 && forall j :: 0 <= j < i ==> !UsernameMatches(users[j], username)
  {
    Find(users, UsernameIs(username))
  }

  /** The login form together with the page's `loggedInUser`. */
  class LoginView {
    var username: string
    var password: string
    var error: string
    var loggedIn: Option<ScheduleUser>

    constructor ()
      ensures username == "" && password == "" && error == "" && loggedIn == None
    {
      username, password, error, loggedIn := "", "", "", None;
    }

    method EditUsername(value: string)
      modifies this
      ensures username == value
      ensures password == old(password) && error == old(error) && loggedIn == old(loggedIn)
    {
      username := value;
    }

    method EditPassword(value: string)
      modifies this
      ensures password == value
      ensures username == old(username) && error == old(error) && loggedIn == old(loggedIn)
    {
      password := value;
    }

    /** Submitting looks the username up; the password takes no part in the decision. */
    method Submit(users: seq<ScheduleUser>)
      modifies this
      ensures FindUser(users, username).Some? ==> loggedIn == FindUser(users, username) && error == old(error)
      ensures FindUser(users, username).None? ==> loggedIn == old(loggedIn) && error == LOGIN_ERROR
      ensures username == old(username) && password == old(password)
    {
      var user := FindUser(users, username);
      if user.Some? {
        loggedIn := user;
      } else {
        error := LOGIN_ERROR;
      }
    }

    /** The dashboard's logout button: the login view is mounted again, with its state fresh. */
    method Logout()
      modifies this
      ensures loggedIn == None
      ensures username == "" && password == "" && error == ""
    {
      username, password, error, loggedIn := "", "", "", None;
    }
  }

  // ---------------------------------------------------------------------------
  // Scope
  // ---------------------------------------------------------------------------

  function InCenter(centerId: string): Specialist -> bool
  {
    (s: Specialist) => s.medicalCenterId == centerId
  }

  /** `doctorsInCenter`: the specialists of one medical center, in order. */
  function DoctorsInCenter(specialists: seq<Specialist>, centerId: string): seq<Specialist>
  {
    Filter(specialists, InCenter(centerId))
  }

  /** `specialists.map(d => d.id)`. */
  function IdsOf(specialists: seq<Specialist>): (ids: seq<int>)
    ensures |ids| == |specialists|
    ensures forall id :: id in ids <==> exists i :: 0 <= i < |specialists| && specialists[i].id == id
  {
    if specialists == [] then []
    else
      var rest := IdsOf(specialists[1..]);
      assert forall i :: 1 <= i < |specialists| ==> specialists[i] == specialists[1..][i - 1];
      [specialists[0].id] + rest
  }

  /** Whether a scheduling user's own specialist takes precedence over the doctor filter. */
  predicate SeesOnlyOwn(user: ScheduleUser)
  {
    user.role == Doctor && TruthyNumber(user.specialistId)
  }

  /**
   * `specialistIdsToDisplay`. A non-numeric doctor filter parses to `NaN`, which no
   * appointment's specialist id equals; it is modelled as the empty list.
   */
  function ScopeIds(user: ScheduleUser, doctorFilter: string, specialists: seq<Specialist>): (ids: seq<int>)
    ensures SeesOnlyOwn(user) ==> ids == [user.specialistId.value]
    ensures !SeesOnlyOwn(user) && doctorFilter == "all" ==>
              forall id :: id in ids <==> exists s :: s in specialists && s.medicalCenterId == user.medicalCenterId && s.id == id
    ensures !SeesOnlyOwn(user) && doctorFilter != "all" ==>
              ids == match ParseInt(doctorFilter) case Some(n) => [n] case None => []
  {
    if SeesOnlyOwn(user) then [user.specialistId.value]
    else if doctorFilter == "all" then
      var doctors := DoctorsInCenter(specialists, user.medicalCenterId);
      FilterMembers(specialists, InCenter(user.medicalCenterId));
      assert forall s :: s in doctors <==> s in specialists && s.medicalCenterId == user.medicalCenterId;
      IdsOf(doctors)
    else
      match ParseInt(doctorFilter) case Some(n) => [n] case None => []
  }

  function SpecialistIn(ids: seq<int>): Appointment -> bool
  {
    (a: Appointment) => a.specialistId in ids
  }

  /** `baseFilteredAppointments`: the appointments of the specialists in scope, in order. */
  function Scoped(apps: seq<Appointment>, ids: seq<int>): (r: seq<Appointment>)
    ensures forall a :: a in r <==> a in apps && a.specialistId in ids
  {
    FilterMembers(apps, SpecialistIn(ids));
    Filter(apps, SpecialistIn(ids))
  }

  // ---------------------------------------------------------------------------
  // Buckets
  // ---------------------------------------------------------------------------

  datatype Bucket = Today | Tomorrow | Week

  /**
   * What the dashboard reads from the wall clock: the `toISOString` date keys of today's and
   * tomorrow's local midnight (UTC calendar dates), and the local dates of today and of today + 7.
   * The caller supplies all four; calendar arithmetic is not modelled, so nothing here ties
   * `tomorrowKey` or `weekEnd` to `today`.
   */
  datatype Clock = Clock(todayKey: string, tomorrowKey: string, today: LocalDate, weekEnd: LocalDate)

  /**
   * Whether an appointment falls in a bucket. The seven-day window compares local midnights;
   * for `YYYY-MM-DD` dates that is the string comparison of their keys (see `WeekWindow`).
   */
  predicate InBucket(a: Appointment, bucket: Bucket, clock: Clock)
  {
    match bucket
    case Today => a.date == clock.todayKey
    case Tomorrow => a.date == clock.tomorrowKey
    case Week => LexLe(ToLocalKey(clock.today), a.date) && LexLess(a.date, ToLocalKey(clock.weekEnd))
  }

  function InBucketTest(bucket: Bucket, clock: Clock): Appointment -> bool
  {
    a => InBucket(a, bucket, clock)
  }

  function TimeOf(a: Appointment): string
  {
    a.time
  }

  /** `filteredAppointments`: the scoped appointments of the bucket, sorted by time. */
  function Listed(scoped: seq<Appointment>, bucket: Bucket, clock: Clock): (r: seq<Appointment>)
    ensures multiset(r) == multiset(Filter(scoped, InBucketTest(bucket, clock)))
    ensures forall a :: a in r <==> a in scoped && InBucket(a, bucket, clock)
    ensures SortedBy(r, TimeOf, false)
  {
    var inBucket := Filter(scoped, InBucketTest(bucket, clock));
    var r := SortBy(inBucket, TimeOf, false);
    assert forall a :: a in r <==> a in inBucket by {
      forall a
        ensures a in r <==> a in inBucket
      {
        assert a in r <==> a in multiset(r);
      }
    }
    FilterMembers(scoped, InBucketTest(bucket, clock));
    r
  }

  /** For an appointment dated by a plausible local date, the week bucket is today <= date < today + 7. */
  lemma WeekWindow(a: Appointment, d: LocalDate, clock: Clock)
    requires a.date == ToLocalKey(d) && Plausible(d) && Plausible(clock.today) && Plausible(clock.weekEnd)
    ensures InBucket(a, Week, clock) <==> !Before(d, clock.today) && Before(d, clock.weekEnd)
  {
    KeyNotBefore(clock.today, d);
    KeyOrder(d, clock.weekEnd);
  }

  // ---------------------------------------------------------------------------
  // Statistics
  // ---------------------------------------------------------------------------

  datatype Stats = Stats(total: nat, agendada: nat, recordatorio: nat, confirmada: nat, cancelada: nat, reprogramar: nat)

  function HasStatus(s: AppointmentStatus): Appointment -> bool
  {
    (a: Appointment) => a.status == s
  }

  function CountStatus(apps: seq<Appointment>, s: AppointmentStatus): nat
  {
    Count(apps, HasStatus(s))
  }

  /** Every appointment has exactly one of the five statuses. */
  lemma {:induction false} StatusCountsSum(apps: seq<Appointment>)
    ensures |apps| == CountStatus(apps, Agendada) + CountStatus(apps, RecordatorioEnviado)
                      + CountStatus(apps, Confirmada) + CountStatus(apps, Cancelada) + CountStatus(apps, Reprogramar)
    decreases |apps|
  {
    if apps != [] {
      StatusCountsSum(apps[1..]);
    }
  }

  lemma CountStatusStep(prefix: seq<Appointment>, app: Appointment, s: AppointmentStatus)
    ensures CountStatus(prefix + [app], s) == CountStatus(prefix, s) + (if app.status == s then 1 else 0)
  {
    CountAppend(prefix, [app], HasStatus(s));
  }

  /** `st` holds the length of `apps` and the number of appointments of each status in it. */
  predicate Describes(st: Stats, apps: seq<Appointment>)
  {
    st.total == |apps| &&
    st.agendada == CountStatus(apps, Agendada) &&
    st.recordatorio == CountStatus(apps, RecordatorioEnviado) &&
    st.confirmada == CountStatus(apps, Confirmada) &&
    st.cancelada == CountStatus(apps, Cancelada) &&
    st.reprogramar == CountStatus(apps, Reprogramar)
  }

  /** `calculateStats`: one pass that counts every appointment and its status. */
  method CalculateStats(apps: seq<Appointment>) returns (st: Stats)
    ensures st.total == |apps|
    ensures st.agendada == CountStatus(apps, Agendada)
    ensures st.recordatorio == CountStatus(apps, RecordatorioEnviado)
    ensures st.confirmada == CountStatus(apps, Confirmada)
    ensures st.cancelada == CountStatus(apps, Cancelada)
    ensures st.reprogramar == CountStatus(apps, Reprogramar)
    ensures st.total == st.agendada + st.recordatorio + st.confirmada + st.cancelada + st.reprogramar
  {
    st := Stats(0, 0, 0, 0, 0, 0);
    var i := 0;
    while i < |apps|
      invariant 0 <= i <= |apps|
      invariant st.total == i
      invariant st.agendada == CountStatus(apps[..i], Agendada)
      invariant st.recordatorio == CountStatus(apps[..i], RecordatorioEnviado)
      invariant st.confirmada == CountStatus(apps[..i], Confirmada)
      invariant st.cancelada == CountStatus(apps[..i], Cancelada)
      invariant st.reprogramar == CountStatus(apps[..i], Reprogramar)
    {
      var app := apps[i];
      assert apps[..i + 1] == apps[..i] + [app];
      CountStatusStep(apps[..i], app, Agendada);
      CountStatusStep(apps[..i], app, RecordatorioEnviado);
      CountStatusStep(apps[..i], app, Confirmada);
      CountStatusStep(apps[..i], app, Cancelada);
      CountStatusStep(apps[..i], app, Reprogramar);
      st := st.(total := st.total + 1);
      match app.status {
        case Agendada => st := st.(agendada := st.agendada + 1);
        case RecordatorioEnviado => st := st.(recordatorio := st.recordatorio + 1);
        case Confirmada => st := st.(confirmada := st.confirmada + 1);
        case Cancelada => st := st.(cancelada := st.cancelada + 1);
        case Reprogramar => st := st.(reprogramar := st.reprogramar + 1);
      }
      i := i + 1;
    }
    assert apps[..|apps|] == apps;
    StatusCountsSum(apps);
  }

  // ---------------------------------------------------------------------------
  // Grouping by date
  // ---------------------------------------------------------------------------

  function OnDate(date: string): Appointment -> bool
  {
    (a: Appointment) => a.date == date
  }

  /** The dates that occur in `apps`. */
  ghost function DatesOf(apps: seq<Appointment>): set<string>
  {
    if apps == [] then {} else DatesOf(apps[..|apps| - 1]) + {apps[|apps| - 1].date}
  }

  lemma {:induction false} DatesOfMeans(apps: seq<Appointment>, d: string)
    ensures d in DatesOf(apps) <==> exists i :: 0 <= i < |apps| && apps[i].date == d
    decreases |apps|
  {
    if apps != [] {
      var init := apps[..|apps| - 1];
      DatesOfMeans(init, d);
      if d in DatesOf(init) {
        var i :| 0 <= i < |init| && init[i].date == d;
        assert apps[i] == init[i];
      }
      if exists i :: 0 <= i < |apps| && apps[i].date == d {
        var i :| 0 <= i < |apps| && apps[i].date == d;
        if i < |init| {
          assert init[i] == apps[i];
        }
      }
    }
  }

  /** `groups` and `keys` are the `reduce` accumulator after the appointments of `prefix`. */
  ghost predicate GroupsOf(groups: map<string, seq<Appointment>>, keys: seq<string>, prefix: seq<Appointment>)
  {
    (forall d :: d in groups <==> d in keys) &&
    NoDuplicates(keys) &&
    groups.Keys == DatesOf(prefix) &&
    (forall d :: d in groups ==> groups[d] == Filter(prefix, OnDate(d)))
  }

  /** Filtering `prefix + [app]` by a date adds `app` to the end exactly when it has that date. */
  lemma FilterSnoc(prefix: seq<Appointment>, app: Appointment, d: string)
    ensures Filter(prefix + [app], OnDate(d)) == Filter(prefix, OnDate(d)) + (if app.date == d then [app] else [])
  {
    FilterAppend(prefix, [app], OnDate(d));
    assert Filter([app], OnDate(d)) == (if app.date == d then [app] else []) + Filter([], OnDate(d));
  }

  /** Pushing `app` onto the list of a date already seen keeps the accumulator right. */
  lemma GroupStepSeen(groups: map<string, seq<Appointment>>, keys: seq<string>, prefix: seq<Appointment>, app: Appointment)
    requires GroupsOf(groups, keys, prefix) && app.date in groups
    ensures GroupsOf(groups[app.date := groups[app.date] + [app]], keys, prefix + [app])
  {
    var next := prefix + [app];
    assert next[..|next| - 1] == prefix;
    var groups' := groups[app.date := groups[app.date] + [app]];
    assert groups'.Keys == DatesOf(next);
    forall d | d in groups'
      ensures groups'[d] == Filter(next, OnDate(d))
    {
      FilterSnoc(prefix, app, d);
    }
  }

  /** Starting the list of the new date of `app` keeps the accumulator right and the keys distinct. */
  lemma GroupStepNew(groups: map<string, seq<Appointment>>, keys: seq<string>, prefix: seq<Appointment>, app: Appointment)
    requires GroupsOf(groups, keys, prefix) && app.date !in groups
    ensures GroupsOf(groups[app.date := [app]], keys + [app.date], prefix + [app])
  {
    var next := prefix + [app];
    assert next[..|next| - 1] == prefix;
    var groups' := groups[app.date := [app]];
    assert groups'.Keys == DatesOf(next);
    forall d | d in groups'
      ensures groups'[d] == Filter(next, OnDate(d))
    {
      FilterSnoc(prefix, app, d);
      if d == app.date {
        forall j | 0 <= j < |prefix|
          ensures !OnDate(d)(prefix[j])
        {
          DatesOfMeans(prefix, d);
        }
        FilterNone(prefix, OnDate(d));
      }
    }
    KeysStayDistinct(groups, keys, app.date);
  }

  lemma KeysStayDistinct(groups: map<string, seq<Appointment>>, keys: seq<string>, d: string)
    requires forall k :: k in groups <==> k in keys
    requires NoDuplicates(keys) && d !in groups
    ensures NoDuplicates(keys + [d])
  {
    var keys' := keys + [d];
    forall j, k | 0 <= j < k < |keys'|
      ensures keys'[j] != keys'[k]
    {
      if k == |keys| {
        assert keys'[j] == keys[j] && keys[j] in groups;
      } else {
        assert keys'[j] == keys[j] && keys'[k] == keys[k];
      }
    }
  }

  /** One step of the loop of `GroupByDate`, on the prefixes of `apps`. */
  lemma GroupStep(groups: map<string, seq<Appointment>>, keys: seq<string>, apps: seq<Appointment>, i: nat)
    requires i < |apps| && GroupsOf(groups, keys, apps[..i])
    ensures apps[i].date in groups ==>
      GroupsOf(groups[apps[i].date := groups[apps[i].date] + [apps[i]]], keys, apps[..i + 1])
    ensures apps[i].date !in groups ==>
      GroupsOf(groups[apps[i].date := [apps[i]]], keys + [apps[i].date], apps[..i + 1])
  {
    var prefix, app := apps[..i], apps[i];
    var next := apps[..i + 1];
    assert next == prefix + [app];
    if app.date in groups {
      GroupStepSeen(groups, keys, prefix, app);
    } else {
      GroupStepNew(groups, keys, prefix, app);
    }
  }

  /** The accumulator after all of `apps` is the grouping `GroupByDate` promises. */
  lemma GroupsOfAll(groups: map<string, seq<Appointment>>, keys: seq<string>, apps: seq<Appointment>)
    requires GroupsOf(groups, keys, apps[..|apps|])
    ensures forall d :: d in groups <==> d in keys
    ensures NoDuplicates(keys)
    ensures forall d :: d in groups <==> exists i :: 0 <= i < |apps| && apps[i].date == d
    ensures forall d :: d in groups ==> groups[d] == Filter(apps, OnDate(d))
    ensures SortedBy(apps, TimeOf, false) ==> forall d :: d in groups ==> SortedBy(groups[d], TimeOf, false)
  {
    assert apps[..|apps|] == apps;
    forall d
      ensures d in groups <==> exists i :: 0 <= i < |apps| && apps[i].date == d
    {
      DatesOfMeans(apps, d);
    }
    if SortedBy(apps, TimeOf, false) {
      forall d | d in groups
        ensures SortedBy(groups[d], TimeOf, false)
      {
        FilterSorted(apps, OnDate(d), TimeOf, false);
      }
    }
  }

  /**
   * `groupedAppointments`: a `reduce` that pushes each appointment onto the list of its date.
   * `keys` is `Object.keys` of the result: the dates in order of first appearance.
   */
  method GroupByDate(apps: seq<Appointment>) returns (groups: map<string, seq<Appointment>>, keys: seq<string>)
    ensures forall d :: d in groups <==> d in keys
    ensures NoDuplicates(keys)
    ensures forall d :: d in groups <==> exists i :: 0 <= i < |apps| && apps[i].date == d
    ensures forall d :: d in groups ==> groups[d] == Filter(apps, OnDate(d))
    ensures SortedBy(apps, TimeOf, false) ==> forall d :: d in groups ==> SortedBy(groups[d], TimeOf, false)
  {
    groups, keys := map[], [];
    var i := 0;
    while i < |apps|
      invariant 0 <= i <= |apps|
      invariant GroupsOf(groups, keys, apps[..i])
    {
      var app := apps[i];
      GroupStep(groups, keys, apps, i);
      if app.date !in groups {
        groups := groups[app.date := [app]];
        keys := keys + [app.date];
      } else {
        groups := groups[app.date := groups[app.date] + [app]];
      }
      i := i + 1;
    }
    GroupsOfAll(groups, keys, apps);
  }

  /** `sortedDates`: the group keys in ascending date order. */
  function SortedDates(keys: seq<string>): (r: seq<string>)
    ensures multiset(r) == multiset(keys)
    ensures SortedBy(r, Self, false)
  {
    SortBy(keys, Self, false)
  }

  /** Each listed appointment lies in exactly one group: the one of its own date. */
  lemma GroupOfEach(apps: seq<Appointment>, a: Appointment, d: string)
    ensures a in Filter(apps, OnDate(d)) <==> a in apps && a.date == d
  {
    if a in apps && a.date == d {
      var i :| 0 <= i < |apps| && apps[i] == a;
    }
  }

  // ---------------------------------------------------------------------------
  // Status updates
  // ---------------------------------------------------------------------------

  /** `map(app => app.id === id ? { ...app, status } : app)`. */
  function WithStatus(apps: seq<Appointment>, id: int, status: AppointmentStatus): (r: seq<Appointment>)
    ensures |r| == |apps|
    ensures forall i :: 0 <= i < |apps| ==> r[i] == if apps[i].id == id then apps[i].(status := status) else apps[i]
  {
    if apps == [] then []
    else [if apps[0].id == id then apps[0].(status := status) else apps[0]] + WithStatus(apps[1..], id, status)
  }

  /** The statuses the buttons of an appointment card lead to. */
  function ActionTargets(s: AppointmentStatus): set<AppointmentStatus>
  {
    if s == RecordatorioEnviado then {Confirmada, Cancelada, Reprogramar} else {}
  }

  /** One transition the dashboard offers: reminders from `agendada`, then one of three answers. */
  predicate Step(from: AppointmentStatus, to: AppointmentStatus)
  {
    (from == Agendada && to == RecordatorioEnviado) || to in ActionTargets(from)
  }

  /** Confirmed, cancelled and rescheduled appointments have no further transition. */
  lemma AnswersAreFinal(from: AppointmentStatus, to: AppointmentStatus)
    requires Step(from, to)
    ensures from in {Agendada, RecordatorioEnviado}
    ensures to != Agendada && to != from
  {
  }

  /**
   * An answer button of a listed card moves only appointments with the card's id, never back
   * to `agendada`, and moves the card itself along a `Step`. When no other appointment shares
   * the card's id, every appointment it changes was a reminded one.
   */
  lemma AnswerSteps(apps: seq<Appointment>, a: Appointment, s: AppointmentStatus)
    requires a in apps && s in ActionTargets(a.status)
    ensures forall i :: 0 <= i < |apps| && WithStatus(apps, a.id, s)[i] != apps[i] ==>
              apps[i].id == a.id && WithStatus(apps, a.id, s)[i].status != Agendada
    ensures forall i :: 0 <= i < |apps| && apps[i] == a ==> Step(a.status, WithStatus(apps, a.id, s)[i].status)
    ensures (forall j :: 0 <= j < |apps| && apps[j].id == a.id ==> apps[j] == a) ==>
              forall i :: 0 <= i < |apps| && WithStatus(apps, a.id, s)[i] != apps[i] ==>
                apps[i].status == RecordatorioEnviado && Step(apps[i].status, WithStatus(apps, a.id, s)[i].status)
  {
  }

  /** The bulk transition of `handleConfirmSendReminders`. */
  function SendReminders(apps: seq<Appointment>, date: string): (r: seq<Appointment>)
    ensures |r| == |apps|
    ensures forall i :: 0 <= i < |apps| ==>
              r[i] == if apps[i].date == date && apps[i].status == Agendada
                      then apps[i].(status := RecordatorioEnviado) else apps[i]
  {
    if apps == [] then []
    else
      var a := apps[0];
      [if a.date == date && a.status == Agendada then a.(status := RecordatorioEnviado) else a]
        + SendReminders(apps[1..], date)
  }

  function PendingOn(date: string): Appointment -> bool
  {
    (a: Appointment) => a.date == date && a.status == Agendada
  }

  /** After the bulk transition no `agendada` appointment is left on that date, and each became a reminder. */
  lemma {:induction false} RemindersCounts(apps: seq<Appointment>, date: string)
    ensures Count(SendReminders(apps, date), PendingOn(date)) == 0
    ensures CountStatus(SendReminders(apps, date), RecordatorioEnviado)
              == CountStatus(apps, RecordatorioEnviado) + Count(apps, PendingOn(date))
    ensures CountStatus(SendReminders(apps, date), Agendada)
              == CountStatus(apps, Agendada) - Count(apps, PendingOn(date))
    decreases |apps|
  {
    if apps != [] {
      RemindersCounts(apps[1..], date);
      assert SendReminders(apps, date)[1..] == SendReminders(apps[1..], date);
    }
  }

  /** The number of `agendada` appointments of a date's group: the button label and the modal count. */
  function PendingInGroup(listed: seq<Appointment>, date: string): nat
  {
    CountStatus(Filter(listed, OnDate(date)), Agendada)
  }

  lemma PendingInGroupIsPendingOn(listed: seq<Appointment>, date: string)
    ensures PendingInGroup(listed, date) == Count(listed, PendingOn(date))
  {
    FilterFilter(listed, OnDate(date), HasStatus(Agendada), PendingOn(date));
  }

  /**
   * The modal's count can only understate how many appointments the confirmation changes:
   * it counts the listed group of the date, while the transition covers every appointment.
   */
  lemma ReminderReach(apps: seq<Appointment>, ids: seq<int>, bucket: Bucket, clock: Clock, date: string)
    ensures PendingInGroup(Listed(Scoped(apps, ids), bucket, clock), date) <= Count(apps, PendingOn(date))
  {
    var scoped := Filter(apps, SpecialistIn(ids));
    var inBucket := Filter(scoped, InBucketTest(bucket, clock));
    var listed := Listed(scoped, bucket, clock);
    PendingInGroupIsPendingOn(listed, date);
    CountPermutation(listed, inBucket, PendingOn(date));
    CountFilter(scoped, InBucketTest(bucket, clock), PendingOn(date));
    CountFilter(apps, SpecialistIn(ids), PendingOn(date));
  }

  /** Some appointment of the list falls on the date. */
  predicate HasDate(apps: seq<Appointment>, d: string)
  {
    exists i :: 0 <= i < |apps| && apps[i].date == d
  }

  /** Keys that are a permutation of each other hold the same dates. */
  lemma SameDates(keys: seq<string>, dates: seq<string>)
    requires multiset(dates) == multiset(keys)
    ensures forall d :: d in dates <==> d in keys
  {
    forall d
      ensures d in dates <==> d in keys
    {
      assert d in dates <==> d in multiset(dates);
      assert d in keys <==> d in multiset(keys);
    }
  }

  /** The day sections of a time-sorted list: its groups by date and their dates in ascending order. */
  method DaySections(apps: seq<Appointment>) returns (groups: map<string, seq<Appointment>>, dates: seq<string>)
    requires SortedBy(apps, TimeOf, false)
    ensures forall d :: d in groups <==> d in dates
    ensures forall d :: d in groups <==> HasDate(apps, d)
    ensures SortedBy(dates, Self, false) && NoDuplicates(dates)
    ensures forall d :: d in groups ==> groups[d] == Filter(apps, OnDate(d))
    ensures forall d :: d in groups ==> SortedBy(groups[d], TimeOf, false)
  {
    var keys;
    groups, keys := GroupByDate(apps);
    dates := SortedDates(keys);
    NoDuplicatesPermutation(keys, dates);
    SameDates(keys, dates);
  }

  // ---------------------------------------------------------------------------
  // The dashboard
  // ---------------------------------------------------------------------------

  datatype Modal = Modal(isOpen: bool, date: Option<string>, count: nat)

  const CLOSED := Modal(false, None, 0)

  class Dashboard {
    const user: ScheduleUser
    const specialists: seq<Specialist>
    var filter: Bucket
    var doctorFilter: string
    var appointments: seq<Appointment>
    var modal: Modal

    constructor (user: ScheduleUser, specialists: seq<Specialist>, seed: seq<Appointment>)
      ensures this.user == user && this.specialists == specialists
      ensures filter == Today && doctorFilter == "all" && appointments == seed && modal == CLOSED
    {
      this.user := user;
      this.specialists := specialists;
      filter, doctorFilter, appointments, modal := Today, "all", seed, CLOSED;
    }

    /** `baseFilteredAppointments` of the current state. */
    function InScope(): seq<Appointment>
      reads this
    {
      Scoped(appointments, ScopeIds(user, doctorFilter, specialists))
    }

    /** `filteredAppointments` of the current state. */
    function Visible(clock: Clock): seq<Appointment>
      reads this
    {
      Listed(InScope(), filter, clock)
    }

    method SelectBucket(bucket: Bucket)
      modifies this
      ensures filter == bucket
      ensures doctorFilter == old(doctorFilter) && appointments == old(appointments) && modal == old(modal)
    {
      filter := bucket;
    }

    /** The doctor select, rendered only for an administrator. */
    method SelectDoctor(value: string)
      requires user.role == Admin
      modifies this
      ensures doctorFilter == value
      ensures filter == old(filter) && appointments == old(appointments) && modal == old(modal)
    {
      doctorFilter := value;
    }

    /** `handleUpdateStatus`. */
    method UpdateStatus(id: int, status: AppointmentStatus)
      modifies this
      ensures appointments == WithStatus(old(appointments), id, status)
      ensures filter == old(filter) && doctorFilter == old(doctorFilter) && modal == old(modal)
    {
      appointments := WithStatus(appointments, id, status);
    }

    /**
     * A click on `Confirmar`, `Cancelar` or `Reprogramar`: these buttons are rendered only on
     * the cards of `recordatorio-enviado` appointments, so the card's target is one of its
     * `ActionTargets`.
     */
    method Answer(card: Appointment, status: AppointmentStatus)
      requires card in appointments && status in ActionTargets(card.status)
      modifies this
      ensures appointments == WithStatus(old(appointments), card.id, status)
      ensures forall i :: 0 <= i < |appointments| && appointments[i] != old(appointments)[i] ==>
                old(appointments)[i].id == card.id && appointments[i].status != Agendada
      ensures forall i :: 0 <= i < |appointments| && old(appointments)[i] == card ==>
                Step(card.status, appointments[i].status)
      ensures filter == old(filter) && doctorFilter == old(doctorFilter) && modal == old(modal)
    {
      AnswerSteps(appointments, card, status);
      UpdateStatus(card.id, status);
    }

    /** The statistics cards: `calculateStats` of each bucket of the scoped appointments. */
    method Statistics(clock: Clock) returns (today: Stats, tomorrow: Stats, week: Stats)
      ensures Describes(today, Filter(InScope(), InBucketTest(Today, clock)))
      ensures Describes(tomorrow, Filter(InScope(), InBucketTest(Tomorrow, clock)))
      ensures Describes(week, Filter(InScope(), InBucketTest(Week, clock)))
    {
      var scoped := InScope();
      today := CalculateStats(Filter(scoped, InBucketTest(Today, clock)));
      tomorrow := CalculateStats(Filter(scoped, InBucketTest(Tomorrow, clock)));
      week := CalculateStats(Filter(scoped, InBucketTest(Week, clock)));
    }

    /** The list of day sections: the groups of the visible appointments and their sorted dates. */
    method Sections(clock: Clock) returns (groups: map<string, seq<Appointment>>, dates: seq<string>)
      ensures forall d :: d in groups <==> d in dates
      ensures forall d :: d in groups <==> HasDate(Visible(clock), d)
      ensures SortedBy(dates, Self, false) && NoDuplicates(dates)
      ensures forall d :: d in groups ==> groups[d] == Filter(Visible(clock), OnDate(d))
      ensures forall d :: d in groups ==> SortedBy(groups[d], TimeOf, false)
    {
      var visible := Visible(clock);
      groups, dates := DaySections(visible);
    }

    /** `handleOpenReminderModal`: opens the modal only when the day's group has pending appointments. */
    method OpenReminderModal(date: string, clock: Clock)
      modifies this
      ensures PendingInGroup(Visible(clock), date) > 0 ==> modal == Modal(true, Some(date), PendingInGroup(Visible(clock), date))
      ensures PendingInGroup(Visible(clock), date) == 0 ==> modal == old(modal)
      ensures filter == old(filter) && doctorFilter == old(doctorFilter) && appointments == old(appointments)
    {
      var visible := Visible(clock);
      var groups, _ := GroupByDate(visible);
      var onDate := if date in groups then groups[date] else [];
      if date !in groups {
        FilterNone(visible, OnDate(date));
      }
      var count := CountStatus(onDate, Agendada);
      if count > 0 {
        ShowModal(date, count);
      }
    }

    /** The state update of `handleOpenReminderModal`, once the count is known. */
    method ShowModal(date: string, count: nat)
      modifies this
      ensures modal == Modal(true, Some(date), count)
      ensures filter == old(filter) && doctorFilter == old(doctorFilter) && appointments == old(appointments)
    {
      modal := Modal(true, Some(date), count);
    }

    /** `handleConfirmSendReminders`: a missing (or empty) modal date does nothing. */
    method ConfirmSendReminders()
      modifies this
      ensures TruthyString(old(modal.date)) ==>
                appointments == SendReminders(old(appointments), old(modal.date).value) && modal == CLOSED
      ensures !TruthyString(old(modal.date)) ==> appointments == old(appointments) && modal == old(modal)
      ensures filter == old(filter) && doctorFilter == old(doctorFilter)
    {
      if !TruthyString(modal.date) {
        return;
      }
      appointments := SendReminders(appointments, modal.date.value);
      modal := CLOSED;
    }

    /** The modal's cancel button. */
    method CancelModal()
      modifies this
      ensures modal == CLOSED
      ensures filter == old(filter) && doctorFilter == old(doctorFilter) && appointments == old(appointments)
    {
      modal := CLOSED;
    }
  }
}
