/**
 * The weekly slot editor of ScheduleConfigPage.tsx: a doctor of the chosen medical center
 * has, per weekday, a list of times that add and remove keep ascending and free of repeats.
 */
module ScheduleConfig {
  import opened Base
  import opened Strings
  import opened Lists

  datatype DoctorRef = DoctorRef(id: int, name: string)

  /** Per weekday, the times of one doctor. */
  type Week = map<string, seq<string>>

  /** Per doctor id, that doctor's week. */
  type Schedules = map<int, Week>

  const DOCTORS_BY_CENTER: map<string, seq<DoctorRef>> := map[
    "kennedy" := [DoctorRef(1, "Dr. Juan Pérez"), DoctorRef(2, "Dra. Ana García")],
    "omni" := [DoctorRef(4, "Dra. María Fernández"), DoctorRef(5, "Dr. Luis Martinez")],
    "vernaza" := [DoctorRef(3, "Dr. Carlos Rodríguez"), DoctorRef(6, "Dra. Laura Torres")]
  ]

  const INITIAL_SCHEDULES: Schedules := map[
    1 := map["Lunes" := ["09:00", "10:00", "11:00"], "Miércoles" := ["14:00", "15:00"], "Viernes" := ["09:00"]],
    2 := map["Martes" := ["08:30", "09:30"], "Jueves" := ["10:30", "11:30", "12:30"]],
    4 := map["Lunes" := ["15:00", "16:00"], "Martes" := ["15:00", "16:00"], "Miércoles" := ["15:00"]]
  ]

  /** The id of the first entry of the medical center list, the initially selected center. */
  const FIRST_CENTER := "kennedy"

  // ---------------------------------------------------------------------------
  // Doctor selection
  // ---------------------------------------------------------------------------

  /** `doctorsByCenter[center] || []`. */
  function DoctorsOf(center: string): seq<DoctorRef>
  {
    if center in DOCTORS_BY_CENTER then DOCTORS_BY_CENTER[center] else []
  }

  /** The doctor the center-change effect selects: the first of the center, if any. */
  function FirstDoctor(center: string): (r: Option<int>)
    ensures r.None? <==> DoctorsOf(center) == []
    ensures r.Some? ==> r.value == DoctorsOf(center)[0].id
  {
    if DoctorsOf(center) != [] then Some(DoctorsOf(center)[0].id) else None
  }

  /** Every known center has doctors, all with non-zero ids, so its first doctor is a usable selection. */
  lemma KnownCenterSelectsDoctor(center: string)
    requires center in DOCTORS_BY_CENTER
    ensures TruthyNumber(FirstDoctor(center))
  {
  }

  lemma UnknownCenterSelectsNone(center: string)
    requires center !in DOCTORS_BY_CENTER
    ensures FirstDoctor(center) == None
  {
  }

  // ---------------------------------------------------------------------------
  // Reading a doctor's schedule
  // ---------------------------------------------------------------------------

  /** `schedules[doctor] || {}`. */
  function WeekOf(schedules: Schedules, doctor: int): Week
  {
    if doctor in schedules then schedules[doctor] else map[]
  }

  /** `doctorSchedule`: the selected doctor's week, `{}` without a selection or without an entry. */
  function DoctorSchedule(schedules: Schedules, doctor: Option<int>): (w: Week)
    ensures !TruthyNumber(doctor) || doctor.value !in schedules ==> w == map[]
    ensures TruthyNumber(doctor) && doctor.value in schedules ==> w == schedules[doctor.value]
  {
    if TruthyNumber(doctor) then WeekOf(schedules, doctor.value) else map[]
  }

  /** `week[day] || []`. */
  function DayTimes(week: Week, day: string): seq<string>
  {
    if day in week then week[day] else []
  }

  /** A day's times are ascending and hold no time twice. */
  predicate WellFormedDay(times: seq<string>)
  {
    SortedBy(times, Self, false) && NoDuplicates(times)
  }

  predicate WellFormed(schedules: Schedules)
  {
    forall d, day :: d in schedules && day in schedules[d] ==> WellFormedDay(schedules[d][day])
  }

  // ---------------------------------------------------------------------------
  // One day's list
  // ---------------------------------------------------------------------------

  /** The day list after adding `t`: unchanged if present, else pushed and sorted. */
  function WithTime(times: seq<string>, t: string): (r: seq<string>)
    ensures forall x :: x in r <==> x in times || x == t
    ensures t in times ==> r == times
    ensures t !in times ==> multiset(r) == multiset(times) + multiset{t} && SortedBy(r, Self, false)
    ensures WellFormedDay(times) ==> WellFormedDay(r)
  {
    if t in times then times
    else
      PushFresh(times, t);
      SortBy(times + [t], Self, false)
  }

  /** Pushing an absent time and sorting gives the old times and the new one, without repeats. */
  lemma PushFresh(times: seq<string>, t: string)
    requires t !in times
    ensures forall x :: x in SortBy(times + [t], Self, false) <==> x in times || x == t
    ensures NoDuplicates(times) ==> NoDuplicates(SortBy(times + [t], Self, false))
  {
    var r := SortBy(times + [t], Self, false);
    assert forall x :: x in r <==> x in multiset(times + [t]);
    if NoDuplicates(times) {
      var pushed := times + [t];
      forall i, j | 0 <= i < j < |pushed|
        ensures pushed[i] != pushed[j]
      {
        assert pushed[i] == times[i];
      }
      NoDuplicatesPermutation(pushed, r);
    }
  }

  /** The day list after removing `t`: every occurrence goes, the rest keep their order. */
  function WithoutTime(times: seq<string>, t: string): (r: seq<string>)
    ensures forall x :: x in r <==> x in times && x != t
    ensures WellFormedDay(times) ==> WellFormedDay(r)
  {
    FilterMembers(times, (x: string) => x != t);
    FilterWellFormed(times, (x: string) => x != t);
    Filter(times, (x: string) => x != t)
  }

  lemma FilterWellFormed(times: seq<string>, p: string -> bool)
    ensures WellFormedDay(times) ==> WellFormedDay(Filter(times, p))
  {
    if WellFormedDay(times) {
      FilterSorted(times, p, Self, false);
      FilterNoDuplicates(times, p);
    }
  }

  /** Removing a time that was just added restores the list. */
  lemma AddThenRemove(times: seq<string>, t: string)
    requires WellFormedDay(times) && t !in times
    ensures WithoutTime(WithTime(times, t), t) == times
  {
    var r := WithoutTime(WithTime(times, t), t);
    forall x
      ensures multiset(r)[x] == multiset(times)[x]
    {
      FilterMultiset(WithTime(times, t), (y: string) => y != t, x);
    }
    assert multiset(r) == multiset(times);
    SortedUnique(r, times);
  }

  /** Adding back a time that was just removed restores the list. */
  lemma RemoveThenAdd(times: seq<string>, t: string)
    requires WellFormedDay(times) && t in times
    ensures WithTime(WithoutTime(times, t), t) == times
  {
    var w := WithoutTime(times, t);
    var r := WithTime(w, t);
    NoDuplicatesMultiset(times);
    forall x
      ensures multiset(w)[x] == if x == t then 0 else multiset(times)[x]
    {
      FilterMultiset(times, (y: string) => y != t, x);
    }
    assert multiset(times)[t] == 1;
    assert multiset(r) == multiset(times);
    SortedUnique(r, times);
  }

  /** Adding the same time twice is adding it once. */
  lemma AddTwice(times: seq<string>, t: string)
    ensures WithTime(WithTime(times, t), t) == WithTime(times, t)
  {
  }

  // ---------------------------------------------------------------------------
  // The whole table
  // ---------------------------------------------------------------------------

  /**
   * The table written back by `handleAddTime`: the doctor's week, or `{}`, with the day
   * replaced by its list with `t` added.
   */
  function WithTimeAdded(schedules: Schedules, doctor: int, day: string, t: string): (r: Schedules)
    ensures r.Keys == schedules.Keys + {doctor}
    ensures forall d :: d in schedules && d != doctor ==> r[d] == schedules[d]
    ensures r[doctor].Keys == WeekOf(schedules, doctor).Keys + {day}
    ensures forall k :: k in WeekOf(schedules, doctor) && k != day ==> r[doctor][k] == WeekOf(schedules, doctor)[k]
    ensures forall x :: x in r[doctor][day] <==> x in DayTimes(WeekOf(schedules, doctor), day) || x == t
    ensures t in DayTimes(WeekOf(schedules, doctor), day) ==> r == schedules
    ensures WellFormed(schedules) ==> WellFormed(r)
  {
    var week := WeekOf(schedules, doctor);
    var times := WithTime(DayTimes(week, day), t);
    WellFormedDayOf(schedules, doctor, day);
    PutDayWellFormed(schedules, doctor, day, times);
    if t in DayTimes(week, day) then
      PutSameDay(schedules, doctor, day);
      schedules[doctor := week[day := times]]
    else
      schedules[doctor := week[day := times]]
  }

  lemma WellFormedDayOf(schedules: Schedules, doctor: int, day: string)
    ensures WellFormed(schedules) ==> WellFormedDay(DayTimes(WeekOf(schedules, doctor), day))
  {
  }

  /** Writing a well-formed list for one day keeps the table well-formed. */
  lemma PutDayWellFormed(schedules: Schedules, doctor: int, day: string, times: seq<string>)
    ensures WellFormed(schedules) && WellFormedDay(times) ==>
      WellFormed(schedules[doctor := WeekOf(schedules, doctor)[day := times]])
  {
  }

  /** Writing back a day's own list leaves the table as it was. */
  lemma PutSameDay(schedules: Schedules, doctor: int, day: string)
    requires day in WeekOf(schedules, doctor)
    ensures schedules[doctor := WeekOf(schedules, doctor)[day := WeekOf(schedules, doctor)[day]]] == schedules
  {
    var week := WeekOf(schedules, doctor);
    assert week[day := week[day]] == week;
  }

  /** The table written back by `handleRemoveTime`: the day's list without `t`. */
  function WithTimeRemoved(schedules: Schedules, doctor: int, day: string, t: string): (r: Schedules)
    requires day in WeekOf(schedules, doctor)
    ensures r.Keys == schedules.Keys
    ensures forall d :: d in schedules && d != doctor ==> r[d] == schedules[d]
    ensures r[doctor].Keys == WeekOf(schedules, doctor).Keys
    ensures forall k :: k in WeekOf(schedules, doctor) && k != day ==> r[doctor][k] == WeekOf(schedules, doctor)[k]
    ensures forall x :: x in r[doctor][day] <==> x in WeekOf(schedules, doctor)[day] && x != t
    ensures WellFormed(schedules) ==> WellFormed(r)
  {
    var week := WeekOf(schedules, doctor);
    schedules[doctor := week[day := WithoutTime(week[day], t)]]
  }

  /** Removing a time just added to a day restores the whole table, when the doctor had that day. */
  lemma TableAddThenRemove(schedules: Schedules, doctor: int, day: string, t: string)
    requires WellFormed(schedules) && day in WeekOf(schedules, doctor) && t !in WeekOf(schedules, doctor)[day]
    ensures WithTimeRemoved(WithTimeAdded(schedules, doctor, day, t), doctor, day, t) == schedules
  {
    var week := schedules[doctor];
    var grown := WithTime(week[day], t);
    AddedShape(schedules, doctor, day, t);
    var added := schedules[doctor := week[day := grown]];
    RemovedShape(added, doctor, day, t);
    AddThenRemove(week[day], t);
    UpdateTwice(week, day, grown, week[day]);
    UpdateTwice(schedules, doctor, week[day := grown], week);
  }

  lemma AddedShape(schedules: Schedules, doctor: int, day: string, t: string)
    requires day in WeekOf(schedules, doctor)
    ensures WithTimeAdded(schedules, doctor, day, t) ==
            schedules[doctor := schedules[doctor][day := WithTime(schedules[doctor][day], t)]]
  {
  }

  lemma RemovedShape(schedules: Schedules, doctor: int, day: string, t: string)
    requires day in WeekOf(schedules, doctor)
    ensures WithTimeRemoved(schedules, doctor, day, t) ==
            schedules[doctor := schedules[doctor][day := WithoutTime(schedules[doctor][day], t)]]
  {
  }

  /** Writing a key twice keeps the second value; writing back the old value changes nothing. */
  lemma UpdateTwice<K, V>(m: map<K, V>, k: K, a: V, b: V)
    requires k in m && b == m[k]
    ensures m[k := a][k := b] == m
  {
  }

  lemma Ascending2(a: string, b: string)
    requires LexLess(a, b)
    ensures WellFormedDay([a, b])
  {
    LexLessIrreflexive(a);
  }

  lemma Ascending3(a: string, b: string, c: string)
    requires LexLess(a, b) && LexLess(b, c)
    ensures WellFormedDay([a, b, c])
  {
    LexLessTransitive(a, b, c);
    LexLessIrreflexive(a);
    LexLessIrreflexive(b);
  }

  /** The initial table is well formed. */
  lemma InitialWellFormed()
    ensures WellFormed(INITIAL_SCHEDULES)
  {
    Ascending3("09:00", "10:00", "11:00");
    Ascending2("14:00", "15:00");
    Ascending2("08:30", "09:30");
    Ascending3("10:30", "11:30", "12:30");
    Ascending2("15:00", "16:00");
    forall d, day | d in INITIAL_SCHEDULES && day in INITIAL_SCHEDULES[d]
      ensures WellFormedDay(INITIAL_SCHEDULES[d][day])
    {
      if d == 1 {
        assert day == "Lunes" || day == "Miércoles" || day == "Viernes";
      } else if d == 2 {
        assert day == "Martes" || day == "Jueves";
      } else {
        assert d == 4 && (day == "Lunes" || day == "Martes" || day == "Miércoles");
      }
    }
  }

  // ---------------------------------------------------------------------------
  // The editor
  // ---------------------------------------------------------------------------

  /** The `ConfigView` component: its four state variables. */
  class ConfigView {
    var selectedCenter: string
    var selectedDoctor: Option<int>
    var schedules: Schedules
    var newTime: map<string, string>

    /** `availableDoctors`. */
    function AvailableDoctors(): seq<DoctorRef>
      reads this
    {
      DoctorsOf(selectedCenter)
    }

    function SelectedSchedule(): Week
      reads this
    {
      DoctorSchedule(schedules, selectedDoctor)
    }

    predicate Valid()
      reads this
    {
      WellFormed(schedules)
    }

    /** The initial state: the first center, its first doctor, the sample table, no typed times. */
    constructor ()
      ensures Valid()
      ensures selectedCenter == FIRST_CENTER && selectedDoctor == FirstDoctor(FIRST_CENTER) == Some(1)
      ensures schedules == INITIAL_SCHEDULES && newTime == map[]
    {
      InitialWellFormed();
      selectedCenter := FIRST_CENTER;
      selectedDoctor := FirstDoctor(FIRST_CENTER);
      schedules := INITIAL_SCHEDULES;
      newTime := map[];
    }

    /** The center select, followed by the effect that moves the doctor to the center's first. */
    method SelectCenter(center: string)
      requires Valid()
      modifies this
      ensures Valid()
      ensures selectedCenter == center && selectedDoctor == FirstDoctor(center)
      ensures schedules == old(schedules) && newTime == old(newTime)
    {
      selectedCenter := center;
      var doctors := DoctorsOf(center);
      if |doctors| > 0 {
        selectedDoctor := Some(doctors[0].id);
      } else {
        selectedDoctor := None;
      }
    }

    /** The doctor select: `Number(e.target.value)`. */
    method SelectDoctor(id: int)
      requires Valid()
      modifies this
      ensures Valid()
      ensures selectedDoctor == Some(id)
      ensures selectedCenter == old(selectedCenter) && schedules == old(schedules) && newTime == old(newTime)
    {
      selectedDoctor := Some(id);
    }

    /** The time input of one day. */
    method EditNewTime(day: string, value: string)
      requires Valid()
      modifies this
      ensures Valid()
      ensures newTime == old(newTime)[day := value]
      ensures selectedCenter == old(selectedCenter) && selectedDoctor == old(selectedDoctor)
      ensures schedules == old(schedules)
    {
      newTime := newTime[day := value];
    }

    /**
     * `handleAddTime`: with a typed time and a selected doctor, the time joins the day unless
     * already there, and the day's input is cleared either way; otherwise nothing happens.
     */
    method AddTime(day: string)
      requires Valid()
      modifies this
      ensures Valid()
      ensures var typed := if day in old(newTime) then Some(old(newTime)[day]) else None;
        if TruthyString(typed) && TruthyNumber(old(selectedDoctor)) then
          schedules == WithTimeAdded(old(schedules), old(selectedDoctor).value, day, typed.value) &&
          newTime == old(newTime)[day := ""]
        else
          schedules == old(schedules) && newTime == old(newTime)
      ensures selectedCenter == old(selectedCenter) && selectedDoctor == old(selectedDoctor)
    {
      var typed := if day in newTime then Some(newTime[day]) else None;
      if TruthyString(typed) && TruthyNumber(selectedDoctor) {
        var doctor := selectedDoctor.value;
        var week := SelectedSchedule();
        var times := DayTimes(week, day);
        if typed.value !in times {
          var updated := WithTimeAdded(schedules, doctor, day, typed.value);
          schedules := updated;
        }
        newTime := newTime[day := ""];
      }
    }

    /**
     * `handleRemoveTime`: the remove button of a listed time. The handler indexes the day's
     * list directly, so the day must be in the selected doctor's week.
     */
    method RemoveTime(day: string, time: string)
      requires Valid()
      requires TruthyNumber(selectedDoctor) ==> day in SelectedSchedule()
      modifies this
      ensures Valid()
      ensures schedules == if TruthyNumber(old(selectedDoctor))
                           then WithTimeRemoved(old(schedules), old(selectedDoctor).value, day, time)
                           else old(schedules)
      ensures selectedCenter == old(selectedCenter) && selectedDoctor == old(selectedDoctor)
      ensures newTime == old(newTime)
    {
      if TruthyNumber(selectedDoctor) {
        var updated := WithTimeRemoved(schedules, selectedDoctor.value, day, time);
        schedules := updated;
      }
    }
  }
}
