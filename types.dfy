/**
 * The records of the clinic portal (types.ts). Optional properties become `Option`,
 * string unions become datatypes, numbers become `int` (identifiers, `Date.now()` values)
 * or `real` (prices and fees). Object-shaped dictionaries whose key order is observable
 * (`Object.keys`) are ordered sequences of entries.
 */
module Types {
  import opened Base

  datatype Placement = Featured | Secondary

  datatype Offer = Offer(
    id: int, icon: string, highlight: string, category: string, title: string,
    provider: string, price: Option<real>, status: Visibility, placement: Placement)

  datatype Coupon = Coupon(
    id: int, brandName: string, brandLogoUrl: string, productImageUrl: string,
    discount: string, title: string, details: string, terms: string,
    expiryDate: string, status: Visibility, placement: Placement)

  datatype InstanceStatus = Redeemed | Active

  /** One generated coupon code: `redeemedAt` and `redeemedBy` are `null` until it is used. */
  datatype CouponInstance = CouponInstance(
    id: string, couponId: int, status: InstanceStatus, generatedAt: string,
    redeemedAt: Option<string>, redeemedBy: Option<string>)

  datatype ReportType = Lab | Imaging

  datatype Report = Report(id: int, kind: ReportType, title: string, date: string, provider: string, url: string)

  /**
   * One property of a specialist's availability object: a date key and its time slots.
   * A JavaScript object holds each key once; a `seq<DaySlots>` may repeat a date, and then
   * `SlotsOn` reads the first entry for it. No contract here relies on distinct keys.
   */
  datatype DaySlots = DaySlots(date: string, times: seq<string>)

  datatype Specialist = Specialist(
    id: int, name: string, specialty: string, address: string, phone: string,
    photoUrl: string, consultationFee: real, biography: string, medicalCenterId: string,
    availability: seq<DaySlots>, status: Visibility)

  datatype MedicalCenter = MedicalCenter(
    id: string, name: string, address: string, city: string, sector: string,
    logoUrl: string, status: Visibility, slogan: Option<string>)

  datatype Associate = Associate(id: int, name: string, logoUrl: string, website: string, status: Visibility)

  datatype Role = Admin | Doctor

  datatype ScheduleUser = ScheduleUser(
    id: int, firstName: string, lastName: string, username: string, email: string,
    password: Option<string>, medicalCenterId: string, status: Visibility, role: Role,
    specialistId: Option<int>)

  datatype Approval = Approved | Pending | Rejected

  datatype Activity = Active | Inactive

  datatype Referrer = Referrer(
    id: int, name: string, email: string, phone: string, status: Approval,
    referralCode: string, createdAt: string, activityStatus: Activity)

  datatype AppointmentStatus = Agendada | RecordatorioEnviado | Confirmada | Cancelada | Reprogramar

  datatype Appointment = Appointment(
    id: int, specialistId: int, patientName: string, patientPhone: string,
    date: string, time: string, status: AppointmentStatus)

  /** The marker a logo URL holds when the brand is shown as text. */
  const TEXT_ONLY := "TEXT_ONLY"

  /** `availability[date] || []`: the slots of the first entry for `date`. */
  function SlotsOn(availability: seq<DaySlots>, date: string): seq<string>
  {
    if availability == [] then []
    else if availability[0].date == date then availability[0].times
    else SlotsOn(availability[1..], date)
  }

  /** An absent date has no slots; a present one has the slots of its first entry. */
  lemma {:induction false} SlotsOnEntry(availability: seq<DaySlots>, date: string)
    ensures (forall i :: 0 <= i < |availability| ==> availability[i].date != date) ==> SlotsOn(availability, date) == []
    ensures forall i :: (0 <= i < |availability| && availability[i].date == date
                          && forall j :: 0 <= j < i ==> availability[j].date != date)
                         ==> SlotsOn(availability, date) == availability[i].times
  {
    if forall i :: 0 <= i < |availability| ==> availability[i].date != date {
      SlotsOnAbsent(availability, date);
    }
    forall i | 0 <= i < |availability| && availability[i].date == date
                && forall j :: 0 <= j < i ==> availability[j].date != date
      ensures SlotsOn(availability, date) == availability[i].times
    {
      SlotsOnFirst(availability, date, i);
    }
  }

  lemma {:induction false} SlotsOnAbsent(availability: seq<DaySlots>, date: string)
    requires forall i :: 0 <= i < |availability| ==> availability[i].date != date
    ensures SlotsOn(availability, date) == []
    decreases |availability|
  {
    if availability != [] {
      var rest := availability[1..];
      forall i | 0 <= i < |rest|
        ensures rest[i].date != date
      {
        assert rest[i] == availability[i + 1];
      }
      SlotsOnAbsent(rest, date);
    }
  }

  lemma {:induction false} SlotsOnFirst(availability: seq<DaySlots>, date: string, i: nat)
    requires i < |availability| && availability[i].date == date
    requires forall j :: 0 <= j < i ==> availability[j].date != date
    ensures SlotsOn(availability, date) == availability[i].times
    decreases i
  {
    if i > 0 {
      var rest := availability[1..];
      assert availability[0].date != date;
      forall j | 0 <= j < i - 1
        ensures rest[j].date != date
      {
        assert rest[j] == availability[j + 1];
      }
      assert rest[i - 1] == availability[i];
      SlotsOnFirst(rest, date, i - 1);
    }
  }

  /** `Object.keys(availability)`. */
  function DateKeys(availability: seq<DaySlots>): (r: seq<string>)
    ensures |r| == |availability|
    ensures forall i :: 0 <= i < |r| ==> r[i] == availability[i].date
  {
    if availability == [] then [] else [availability[0].date] + DateKeys(availability[1..])
  }
}
