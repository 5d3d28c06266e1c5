/**
 * The booking wizard of src/components/SpecialistResultsPage.tsx: a search over visible
 * specialists of visible centers, then the views list, schedule, patient data and confirmation.
 * Picking a specialist preselects the first date key with free slots that is not before today.
 */
module SpecialistResults {
  import opened Base
  import opened Strings
  import opened Lists
  import opened Types
  import opened LocalDates

  // ---------------------------------------------------------------------------
  // Search
  // ---------------------------------------------------------------------------

  /** `ciudad`, `sector` and `especialidad` of the query string, `''` when absent. */
  datatype SearchParams = SearchParams(city: string, sector: string, specialty: string)

  predicate CenterMatches(c: MedicalCenter, params: SearchParams)
  {
    c.status == Visible && c.city == params.city && (params.sector == "" || c.sector == params.sector)
  }

  function CenterTest(params: SearchParams): MedicalCenter -> bool
  {
    (c: MedicalCenter) => CenterMatches(c, params)
  }

  function CenterIds(centers: seq<MedicalCenter>): (ids: seq<string>)
    ensures |ids| == |centers|
    ensures forall i :: 0 <= i < |centers| ==> ids[i] == centers[i].id
  {
    if centers == [] then [] else [centers[0].id] + CenterIds(centers[1..])
  }

  /** `matchingCenterIds`: the ids of the visible centers of the city (and sector, when given). */
  function MatchingCenterIds(centers: seq<MedicalCenter>, params: SearchParams): (ids: seq<string>)
    ensures forall id :: id in ids <==> exists c :: c in centers && CenterMatches(c, params) && c.id == id
  {
    var matching := Filter(centers, CenterTest(params));
    var ids := CenterIds(matching);
    assert forall id :: id in ids <==> exists c :: c in matching && c.id == id by {
      forall id | id in ids
        ensures exists c :: c in matching && c.id == id
      {
        var i :| 0 <= i < |ids| && ids[i] == id;
        assert matching[i] in matching;
      }
    }
    FilterMembers(centers, CenterTest(params));
    ids
  }

  predicate SpecialistMatches(s: Specialist, centerIds: seq<string>, params: SearchParams)
  {
    s.status == Visible && (params.specialty == "" || s.specialty == params.specialty) && s.medicalCenterId in centerIds
  }

  function SpecialistTest(centerIds: seq<string>, params: SearchParams): Specialist -> bool
  {
    (s: Specialist) => SpecialistMatches(s, centerIds, params)
  }

  /** The results of the search, in the order of the specialist list. */
  function Search(specialists: seq<Specialist>, centers: seq<MedicalCenter>, params: SearchParams): seq<Specialist>
  {
    Filter(specialists, SpecialistTest(MatchingCenterIds(centers, params), params))
  }

  /** A specialist is listed exactly when it and some center with its id pass every filter. */
  lemma SearchListed(specialists: seq<Specialist>, centers: seq<MedicalCenter>, params: SearchParams, s: Specialist)
    ensures s in Search(specialists, centers, params) <==>
              s in specialists && s.status == Visible && (params.specialty == "" || s.specialty == params.specialty) &&
              exists c :: c in centers && c.id == s.medicalCenterId && c.status == Visible && c.city == params.city &&
                          (params.sector == "" || c.sector == params.sector)
  {
    FilterMembers(specialists, SpecialistTest(MatchingCenterIds(centers, params), params));
  }

  /** The search keeps the order of the list and never shows a specialist twice more than it appears. */
  lemma SearchIsSublist(specialists: seq<Specialist>, centers: seq<MedicalCenter>, params: SearchParams, s: Specialist)
    ensures multiset(Search(specialists, centers, params))[s] <= multiset(specialists)[s]
  {
    FilterMultiset(specialists, SpecialistTest(MatchingCenterIds(centers, params), params), s);
  }

  // ---------------------------------------------------------------------------
  // First available date
  // ---------------------------------------------------------------------------

  function HasSlots(availability: seq<DaySlots>): string -> bool
  {
    (d: string) => |SlotsOn(availability, d)| > 0
  }

  function NotBefore(todayKey: string): string -> bool
  {
    (d: string) => LexLe(todayKey, d)
  }

  /** A date key the wizard may preselect: it has slots and is not before today. */
  predicate Candidate(availability: seq<DaySlots>, todayKey: string, d: string)
  {
    d in DateKeys(availability) && |SlotsOn(availability, d)| > 0 && LexLe(todayKey, d)
  }

  /** `Object.keys(availability).filter(d => availability[d]?.length > 0).sort()`. */
  function SlotDates(availability: seq<DaySlots>): seq<string>
  {
    SortBy(Filter(DateKeys(availability), HasSlots(availability)), Self, false)
  }

  /** `sortedAvailableDates.find(date => date >= todayStr) || ''`. */
  function FirstAvailableDate(availability: seq<DaySlots>, todayKey: string): string
  {
    match Find(SlotDates(availability), NotBefore(todayKey))
    case Some(d) => d
    case None => ""
  }

  lemma SlotDatesMembers(availability: seq<DaySlots>)
    ensures SortedBy(SlotDates(availability), Self, false)
    ensures forall d :: d in SlotDates(availability) <==> d in DateKeys(availability) && |SlotsOn(availability, d)| > 0
  {
    var withSlots := Filter(DateKeys(availability), HasSlots(availability));
    FilterMembers(DateKeys(availability), HasSlots(availability));
    forall d
      ensures d in SlotDates(availability) <==> d in withSlots
    {
      assert d in SlotDates(availability) <==> d in multiset(SlotDates(availability));
    }
  }

  /** In an ascending list, the first element not before `t` is below every other such element. */
  lemma FindInSorted(sorted: seq<string>, t: string)
    requires SortedBy(sorted, Self, false)
    ensures Find(sorted, NotBefore(t)).None? ==> forall d :: d in sorted ==> !LexLe(t, d)
    ensures Find(sorted, NotBefore(t)).Some? ==>
              forall d :: d in sorted && LexLe(t, d) ==> LexLe(Find(sorted, NotBefore(t)).value, d)
  {
    var found := Find(sorted, NotBefore(t));
    if found.None? {
      assert forall j :: 0 <= j < |sorted| ==> !NotBefore(t)(sorted[j]);
    } else {
      var first := found.value;
      var i :| 0 <= i < |sorted| && sorted[i] == first && forall j :: 0 <= j < i ==> !NotBefore(t)(sorted[j]);
      forall d | d in sorted && LexLe(t, d)
        ensures LexLe(first, d)
      {
        var j :| 0 <= j < |sorted| && sorted[j] == d;
        assert NotBefore(t)(sorted[j]);
        if i < j {
          assert InOrder(Self(sorted[i]), Self(sorted[j]), false);
        }
      }
    }
  }

  /** The preselected date is the least candidate, and `''` when there is none. */
  lemma FirstAvailableIsLeast(availability: seq<DaySlots>, todayKey: string)
    ensures (forall d :: !Candidate(availability, todayKey, d)) ==> FirstAvailableDate(availability, todayKey) == ""
    ensures forall d :: Candidate(availability, todayKey, d) ==>
              Candidate(availability, todayKey, FirstAvailableDate(availability, todayKey)) &&
              LexLe(FirstAvailableDate(availability, todayKey), d)
  {
    var sorted := SlotDates(availability);
    SlotDatesMembers(availability);
    FindInSorted(sorted, todayKey);
    var found := Find(sorted, NotBefore(todayKey));
    if found.Some? {
      var first := found.value;
      assert FirstAvailableDate(availability, todayKey) == first;
      assert first in sorted && NotBefore(todayKey)(first);
      assert Candidate(availability, todayKey, first);
      forall d | Candidate(availability, todayKey, d)
        ensures LexLe(first, d)
      {
        assert d in sorted;
      }
    } else {
      assert FirstAvailableDate(availability, todayKey) == "";
    }
  }

  /**
   * The earliest candidate among `keys`, in one scan: an independent formulation of the
   * sort-then-find that the wizard uses.
   */
  function Earliest(availability: seq<DaySlots>, todayKey: string, keys: seq<string>): (r: Option<string>)
    ensures r.Some? ==> r.value in keys && |SlotsOn(availability, r.value)| > 0 && LexLe(todayKey, r.value)
    ensures forall k :: k in keys && |SlotsOn(availability, k)| > 0 && LexLe(todayKey, k) ==>
                          r.Some? && LexLe(r.value, k)
  {
    if keys == [] then None
    else
      var rest := Earliest(availability, todayKey, keys[1..]);
      var k := keys[0];
      assert forall x :: x in keys <==> x == k || x in keys[1..] by {
        assert keys == [k] + keys[1..];
      }
      if |SlotsOn(availability, k)| > 0 && LexLe(todayKey, k) && (rest.None? || LexLess(k, rest.value)) then
        assert forall x :: x in keys[1..] && |SlotsOn(availability, x)| > 0 && LexLe(todayKey, x) ==> LexLe(k, x) by {
          forall x | x in keys[1..] && |SlotsOn(availability, x)| > 0 && LexLe(todayKey, x)
            ensures LexLe(k, x)
          {
            if rest.value != x {
              LexLessTransitive(k, rest.value, x);
            }
          }
        }
        LexLessIrreflexive(k);
        Some(k)
      else
        if rest.Some? then
          LexTotal(k, rest.value);
          LexLessIrreflexive(k);
          rest
        else
          rest
  }

  /** `Earliest` over every date key, `''` when there is no candidate. */
  function EarliestDate(availability: seq<DaySlots>, todayKey: string): string
  {
    match Earliest(availability, todayKey, DateKeys(availability))
    case Some(d) => d
    case None => ""
  }

  /** The one-scan formulation and the sort-then-find of the component agree on every input. */
  lemma FirstAvailableIsEarliest(availability: seq<DaySlots>, todayKey: string)
    ensures FirstAvailableDate(availability, todayKey) == EarliestDate(availability, todayKey)
  {
    FirstAvailableIsLeast(availability, todayKey);
    var e := Earliest(availability, todayKey, DateKeys(availability));
    if e.Some? {
      var f := FirstAvailableDate(availability, todayKey);
      assert Candidate(availability, todayKey, e.value);
      assert LexLe(f, e.value) && LexLe(e.value, f);
      if f != e.value {
        LexLessAsymmetric(f, e.value);
      }
    } else {
      assert forall d :: !Candidate(availability, todayKey, d);
    }
  }

  /** For an availability whose keys are local date keys, the preselected date is never in the past. */
  lemma FirstAvailableNotPast(availability: seq<DaySlots>, today: LocalDate, d: LocalDate)
    requires Plausible(today) && Plausible(d)
    requires FirstAvailableDate(availability, ToLocalKey(today)) == ToLocalKey(d)
    ensures !Before(d, today)
  {
    var todayKey := ToLocalKey(today);
    KeyLength(d);
    if forall c :: !Candidate(availability, todayKey, c) {
      FirstAvailableIsLeast(availability, todayKey);
    } else {
      var c :| Candidate(availability, todayKey, c);
      FirstAvailableIsLeast(availability, todayKey);
      assert Candidate(availability, todayKey, ToLocalKey(d));
    }
    KeyNotBefore(today, d);
  }

  /** A specialist with an empty availability (a newly created one) has nothing to preselect. */
  lemma NoAvailabilityNoDate(todayKey: string)
    ensures FirstAvailableDate([], todayKey) == ""
  {
  }

  /** The seed availability of the first specialist, as two date entries. */
  function SeedAvailability(): seq<DaySlots>
  {
    [DaySlots("2025-11-08", ["09:00", "10:00", "11:00"]), DaySlots("2025-11-09", ["14:00", "15:00"])]
  }

  /** The seed's candidates are its two dates that are not before today. */
  lemma SeedCandidates(todayKey: string, d: string)
    ensures Candidate(SeedAvailability(), todayKey, d) <==>
              (d == "2025-11-08" || d == "2025-11-09") && LexLe(todayKey, d)
  {
    var avail := SeedAvailability();
    assert DateKeys(avail) == ["2025-11-08", "2025-11-09"];
    assert |SlotsOn(avail, "2025-11-08")| == 3;
    assert |SlotsOn(avail, "2025-11-09")| == 2;
  }

  lemma SeedOrder()
    ensures LexLess("2025-11-01", "2025-11-08")
    ensures LexLess("2025-11-08", "2025-11-09")
    ensures LexLess("2025-11-09", "2025-11-10")
  {
    LexLessAppend("2025-11-0", "1", "2025-11-0", "8");
    LexLessAppend("2025-11-0", "8", "2025-11-0", "9");
    LexLessAppend("2025-11-", "09", "2025-11-", "10");
  }

  /** Before the seed dates, the first of them is preselected. */
  lemma SeedFirstBefore()
    ensures FirstAvailableDate(SeedAvailability(), "2025-11-01") == "2025-11-08"
  {
    var avail, t, a, b := SeedAvailability(), "2025-11-01", "2025-11-08", "2025-11-09";
    SeedOrder();
    LexLessTransitive(t, a, b);
    SeedCandidates(t, a);
    FirstAvailableIsLeast(avail, t);
    var f := FirstAvailableDate(avail, t);
    SeedCandidates(t, f);
    if f != a {
      LexLessAsymmetric(a, b);
    }
  }

  /** On the second seed date, that date is preselected. */
  lemma SeedFirstOn()
    ensures FirstAvailableDate(SeedAvailability(), "2025-11-09") == "2025-11-09"
  {
    var avail, a, b := SeedAvailability(), "2025-11-08", "2025-11-09";
    SeedOrder();
    SeedCandidates(b, b);
    FirstAvailableIsLeast(avail, b);
    var f := FirstAvailableDate(avail, b);
    SeedCandidates(b, f);
    if f == a {
      LexLessAsymmetric(a, b);
    }
  }

  /** After the seed dates nothing is preselected. */
  lemma SeedFirstAfter()
    ensures FirstAvailableDate(SeedAvailability(), "2025-11-10") == ""
  {
    var avail, t, a, b := SeedAvailability(), "2025-11-10", "2025-11-08", "2025-11-09";
    SeedOrder();
    LexLessTransitive(a, b, t);
    LexLessAsymmetric(a, t);
    LexLessAsymmetric(b, t);
    forall d
      ensures !Candidate(avail, t, d)
    {
      SeedCandidates(t, d);
    }
    FirstAvailableIsLeast(avail, t);
  }

  // ---------------------------------------------------------------------------
  // The wizard
  // ---------------------------------------------------------------------------

  datatype View = List | Schedule | PatientData | Confirmation

  datatype Patient = Patient(firstName: string, lastName: string, phone: string, email: string)

  datatype PatientField = FirstName | LastName | Phone | Email

  const NO_PATIENT := Patient("", "", "", "")

  /** `{ ...prev, [name]: value }` for one of the four inputs. */
  function WithField(p: Patient, field: PatientField, value: string): (r: Patient)
    ensures field == FirstName ==> r == p.(firstName := value)
    ensures field == LastName ==> r == p.(lastName := value)
    ensures field == Phone ==> r == p.(phone := value)
    ensures field == Email ==> r == p.(email := value)
  {
    match field
    case FirstName => p.(firstName := value)
    case LastName => p.(lastName := value)
    case Phone => p.(phone := value)
    case Email => p.(email := value)
  }

  /** The three inputs marked `required`; the browser does not submit the form without them. */
  predicate Complete(p: Patient)
  {
    p.firstName != "" && p.lastName != "" && p.phone != ""
  }

  class Wizard {
    var view: View
    var results: seq<Specialist>
    var searchParams: SearchParams
    var isLoading: bool
    var selected: Option<Specialist>
    var selectedDate: string
    var selectedTime: string
    var patient: Patient

    /** The times offered for the selected date: `availability[selectedDate] || []`. */
    function AvailableTimes(): seq<string>
      reads this
    {
      if selected.Some? then SlotsOn(selected.value.availability, selectedDate) else []
    }

    /** What the views can rely on at every step of the flow. */
    predicate Valid()
      reads this
    {
      (view != List ==> selected.Some?) &&
      (selectedTime != "" ==> selectedTime in AvailableTimes()) &&
      (view == PatientData || view == Confirmation ==> selectedTime != "") &&
      (view == Confirmation ==> Complete(patient))
    }

    constructor ()
      ensures Valid()
      ensures view == List && results == [] && searchParams == SearchParams("", "", "") && isLoading
      ensures selected == None && selectedDate == "" && selectedTime == "" && patient == NO_PATIENT
    {
      view, results, searchParams, isLoading := List, [], SearchParams("", "", ""), true;
      selected, selectedDate, selectedTime, patient := None, "", "", NO_PATIENT;
    }

    /** The mount effect: reads the query and, after the delay, stores the search results. */
    method LoadResults(params: SearchParams, specialists: seq<Specialist>, centers: seq<MedicalCenter>)
      requires Valid()
      modifies this
      ensures Valid()
      ensures searchParams == params && results == Search(specialists, centers, params) && !isLoading
      ensures view == old(view) && selected == old(selected) && selectedDate == old(selectedDate)
      ensures selectedTime == old(selectedTime) && patient == old(patient)
    {
      searchParams := params;
      results := Search(specialists, centers, params);
      isLoading := false;
    }

    /** `handleSelectSpecialist`: preselects the first available date, clears the time and shows the schedule. */
    method SelectSpecialist(s: Specialist, today: LocalDate)
      requires Valid()
      modifies this
      ensures Valid()
      ensures selected == Some(s) && selectedDate == FirstAvailableDate(s.availability, ToLocalKey(today))
      ensures selectedTime == "" && view == Schedule
      ensures results == old(results) && searchParams == old(searchParams) && isLoading == old(isLoading)
      ensures patient == old(patient)
    {
      var date := FirstAvailableDate(s.availability, ToLocalKey(today));
      ShowSchedule(s, date);
    }

    /** The state updates of `handleSelectSpecialist`, once the date is known. */
    method ShowSchedule(s: Specialist, date: string)
      requires Valid()
      modifies this
      ensures Valid()
      ensures selected == Some(s) && selectedDate == date && selectedTime == "" && view == Schedule
      ensures results == old(results) && searchParams == old(searchParams) && isLoading == old(isLoading)
      ensures patient == old(patient)
    {
      selected := Some(s);
      selectedDate := date;
      selectedTime := "";
      view := Schedule;
    }

    /** A quick-pick button or the date picker: either way the chosen time is cleared. */
    method PickDate(date: string)
      requires Valid() && view == Schedule
      modifies this
      ensures Valid()
      ensures selectedDate == date && selectedTime == ""
      ensures view == old(view) && selected == old(selected) && patient == old(patient)
      ensures results == old(results) && searchParams == old(searchParams) && isLoading == old(isLoading)
    {
      selectedDate := date;
      selectedTime := "";
    }

    /** A time button: only the times of the selected date are offered. */
    method PickTime(time: string)
      requires Valid() && view == Schedule && time in AvailableTimes()
      modifies this
      ensures Valid()
      ensures selectedTime == time
      ensures view == old(view) && selected == old(selected) && selectedDate == old(selectedDate)
      ensures patient == old(patient)
      ensures results == old(results) && searchParams == old(searchParams) && isLoading == old(isLoading)
    {
      selectedTime := time;
    }

    /** "Continuar": the button is disabled until a time is chosen. */
    method GoToPatientData()
      requires Valid() && view == Schedule
      modifies this
      ensures Valid()
      ensures view == if old(selectedTime) != "" then PatientData else Schedule
      ensures selected == old(selected) && selectedDate == old(selectedDate) && selectedTime == old(selectedTime)
      ensures patient == old(patient)
      ensures results == old(results) && searchParams == old(searchParams) && isLoading == old(isLoading)
    {
      if selectedTime != "" {
        view := PatientData;
      }
    }

    /** Back from the patient form: the selections are kept. */
    method BackToSchedule()
      requires Valid() && view == PatientData
      modifies this
      ensures Valid()
      ensures view == Schedule
      ensures selected == old(selected) && selectedDate == old(selectedDate) && selectedTime == old(selectedTime)
      ensures patient == old(patient)
      ensures results == old(results) && searchParams == old(searchParams) && isLoading == old(isLoading)
    {
      view := Schedule;
    }

    /** `handlePatientDataChange`. */
    method EditPatient(field: PatientField, value: string)
      requires Valid() && view == PatientData
      modifies this
      ensures Valid()
      ensures patient == WithField(old(patient), field, value)
      ensures view == old(view) && selected == old(selected) && selectedDate == old(selectedDate)
      ensures selectedTime == old(selectedTime)
      ensures results == old(results) && searchParams == old(searchParams) && isLoading == old(isLoading)
    {
      patient := WithField(patient, field, value);
    }

    /** Typing a whole patient into the form, one field after another. */
    method EnterPatient(p: Patient)
      requires Valid() && view == PatientData
      modifies this
      ensures Valid() && patient == p
      ensures view == old(view) && selected == old(selected) && selectedDate == old(selectedDate)
      ensures selectedTime == old(selectedTime)
    {
      EditPatient(FirstName, p.firstName);
      EditPatient(LastName, p.lastName);
      EditPatient(Phone, p.phone);
      EditPatient(Email, p.email);
    }

    /**
     * `handleConfirmAppointment`: only the view changes; no appointment is stored anywhere.
     * An incomplete form is not submitted.
     */
    method ConfirmAppointment()
      requires Valid() && view == PatientData
      modifies this
      ensures Valid()
      ensures view == if Complete(old(patient)) then Confirmation else PatientData
      ensures selected == old(selected) && selectedDate == old(selectedDate) && selectedTime == old(selectedTime)
      ensures patient == old(patient)
      ensures results == old(results) && searchParams == old(searchParams) && isLoading == old(isLoading)
    {
      if Complete(patient) {
        view := Confirmation;
      }
    }

    /** `handleResetFlow`: back to the list with every selection cleared; the results stay. */
    method ResetFlow()
      requires Valid()
      modifies this
      ensures Valid()
      ensures view == List && selected == None && selectedDate == "" && selectedTime == "" && patient == NO_PATIENT
      ensures results == old(results) && searchParams == old(searchParams) && isLoading == old(isLoading)
    {
      view := List;
      selected := None;
      selectedDate := "";
      selectedTime := "";
      patient := NO_PATIENT;
    }
  }

  /** From a fresh wizard to the patient form: select, keep the preselected date, pick a time, continue. */
  method StartBooking(s: Specialist, today: LocalDate, time: string) returns (w: Wizard)
    requires time != "" && time in SlotsOn(s.availability, FirstAvailableDate(s.availability, ToLocalKey(today)))
    ensures fresh(w) && w.Valid()
    ensures w.view == PatientData && w.selected == Some(s) && w.selectedTime == time && w.patient == NO_PATIENT
    ensures w.selectedDate == FirstAvailableDate(s.availability, ToLocalKey(today))
  {
    w := new Wizard();
    w.SelectSpecialist(s, today);
    w.PickTime(time);
    w.GoToPatientData();
  }

  /** One full run through the wizard ends in the confirmation with the chosen slot. */
  method BookingRun(s: Specialist, today: LocalDate, time: string, p: Patient) returns (w: Wizard)
    requires time != "" && time in SlotsOn(s.availability, FirstAvailableDate(s.availability, ToLocalKey(today)))
    requires Complete(p)
    ensures w.view == Confirmation && w.selected == Some(s) && w.selectedTime == time && w.patient == p
    ensures w.selectedDate == FirstAvailableDate(s.availability, ToLocalKey(today))
  {
    w := StartBooking(s, today, time);
    w.EnterPatient(p);
    w.ConfirmAppointment();
  }
}
