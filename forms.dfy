/**
 * The admin forms that do more than copy fields: the schedule-user form (UserForm.tsx),
 * with its password checks; the associate form (AssociateForm.tsx), with its logo mode;
 * and the specialist form (SpecialistForm.tsx), which keeps the stored availability.
 * Each form edits a draft (the record without its id) and hands the assembled record to
 * its page's `onSave`.
 */
module Forms {
  import opened Base
  import opened Strings
  import opened Types
  import opened AdminLists
  import opened SpecialistResults

  /** `MEDICAL_CENTERS[0]?.id || ''` for the seed centers of constants.ts. */
  const FIRST_CENTER_ID := "kennedy"
  /** `SPECIALTIES[0] || ''`. */
  const FIRST_SPECIALTY := "Medicina General"

  /** `initialData?.id || 0`: the stored id, or 0 for a record being created. */
  function IdOf<R>(initial: Option<R>, idOf: R -> int): (id: int)
    ensures initial.None? ==> id == 0
    ensures initial.Some? ==> id == idOf(initial.value)
  {
    match initial
    case None => 0
    case Some(r) => idOf(r)
  }

  // ---------------------------------------------------------------------------
  // The schedule-user form
  // ---------------------------------------------------------------------------

  datatype UserDraft = UserDraft(
    firstName: string, lastName: string, username: string, email: string, password: string,
    medicalCenterId: string, status: Visibility, role: Role, specialistId: Option<int>)

  const MISMATCH := "Las contraseñas no coinciden."
  const PASSWORD_REQUIRED := "La contraseña es obligatoria para nuevos usuarios."

  /** The fields of `u` that the form shows; the password field starts empty. */
  predicate ShowsUser(d: UserDraft, u: ScheduleUser)
  {
    d.firstName == u.firstName && d.lastName == u.lastName && d.username == u.username &&
    d.email == u.email && d.medicalCenterId == u.medicalCenterId && d.status == u.status &&
    d.role == u.role && d.specialistId == u.specialistId
  }

  /** The form's initial state. */
  function UserDraftOf(initial: Option<ScheduleUser>): (d: UserDraft)
    ensures d.password == ""
    ensures initial.Some? ==> ShowsUser(d, initial.value)
    ensures initial.None? ==> d == UserDraft("", "", "", "", "", FIRST_CENTER_ID, Visible, Doctor, None)
  {
    match initial
    case None => UserDraft("", "", "", "", "", FIRST_CENTER_ID, Visible, Doctor, None)
    case Some(u) =>
      UserDraft(u.firstName, u.lastName, u.username, u.email, "", u.medicalCenterId, u.status, u.role, u.specialistId)
  }

  predicate DraftOfUser(d: UserDraft, u: ScheduleUser)
  {
    ShowsUser(d, u) && u.password == Some(d.password)
  }

  /** `{ id, ...formData }`. */
  function UserOf(d: UserDraft, id: int): (u: ScheduleUser)
    ensures u.id == id && DraftOfUser(d, u)
  {
    ScheduleUser(id, d.firstName, d.lastName, d.username, d.email, Some(d.password),
                 d.medicalCenterId, d.status, d.role, d.specialistId)
  }

  /** `e.target.value ? Number(e.target.value) : undefined` on the specialist select. */
  function SpecialistChoice(value: string): (choice: Option<int>)
    ensures value == "" ==> choice == None
  {
    if value == "" then None else ParseInt(value)
  }

  /** Each option of the select stands for its specialist's id; "Ninguno" for none. */
  lemma SpecialistOptionRoundTrip(id: int)
    ensures SpecialistChoice(IntToDecimal(id)) == Some(id)
    ensures SpecialistChoice("") == None
  {
    ParseIntOfDecimal(id);
  }

  datatype Outcome = Save(user: ScheduleUser) | Refuse(message: string)

  /** The checks of `handleSubmit`, in their order. */
  function CheckUser(d: UserDraft, confirm: string, initial: Option<ScheduleUser>): (o: Outcome)
    ensures o.Save? <==> d.password == confirm && (initial.Some? || d.password != "")
    ensures d.password != confirm ==> o == Refuse(MISMATCH)
    ensures d.password == confirm && initial.None? && d.password == "" ==> o == Refuse(PASSWORD_REQUIRED)
    ensures o.Save? ==> o.user.id == IdOf(initial, UserId) && DraftOfUser(d, o.user)
  {
    if d.password != confirm then Refuse(MISMATCH)
    else if initial.None? && d.password == "" then Refuse(PASSWORD_REQUIRED)
    else Save(UserOf(d, IdOf(initial, UserId)))
  }

  /** A new user typing a confirmation but no password is told they differ, not that one is missing. */
  lemma MismatchCheckedFirst(d: UserDraft, confirm: string)
    requires d.password == "" && confirm != ""
    ensures CheckUser(d, confirm, None) == Refuse(MISMATCH)
  {
  }

  /** Opening a user for editing and saving at once, through the page's merge, stores the user unchanged. */
  lemma UserEditRoundTrip(u: ScheduleUser)
    ensures CheckUser(UserDraftOf(Some(u)), "", Some(u)).Save?
    ensures MergeUser(CheckUser(UserDraftOf(Some(u)), "", Some(u)).user, u) == u
  {
  }

  datatype UserField = FirstName | LastName | Username | UserEmail | Password | UserCenter

  function WithUserField(d: UserDraft, field: UserField, value: string): UserDraft
  {
    match field
    case FirstName => d.(firstName := value)
    case LastName => d.(lastName := value)
    case Username => d.(username := value)
    case UserEmail => d.(email := value)
    case Password => d.(password := value)
    case UserCenter => d.(medicalCenterId := value)
  }

  class UserForm {
    const initial: Option<ScheduleUser>
    var formData: UserDraft
    var confirmPassword: string
    var error: string

    constructor (initialData: Option<ScheduleUser>)
      ensures initial == initialData && formData == UserDraftOf(initialData)
      ensures confirmPassword == "" && error == ""
    {
      initial := initialData;
      formData := UserDraftOf(initialData);
      confirmPassword := "";
      error := "";
    }

    /** `handleChange` on a text input. */
    method Edit(field: UserField, value: string)
      modifies this
      ensures formData == WithUserField(old(formData), field, value)
      ensures confirmPassword == old(confirmPassword) && error == old(error)
    {
      formData := WithUserField(formData, field, value);
    }

    method EditRole(role: Role)
      modifies this
      ensures formData == old(formData).(role := role)
      ensures confirmPassword == old(confirmPassword) && error == old(error)
    {
      formData := formData.(role := role);
    }

    /** `handleChange` on the specialist select. */
    method EditSpecialist(value: string)
      modifies this
      ensures formData == old(formData).(specialistId := SpecialistChoice(value))
      ensures confirmPassword == old(confirmPassword) && error == old(error)
    {
      formData := formData.(specialistId := SpecialistChoice(value));
    }

    method EditConfirm(value: string)
      modifies this
      ensures confirmPassword == value && formData == old(formData) && error == old(error)
    {
      confirmPassword := value;
    }

    /** `handleSubmit`: the error is cleared, then set by the first check that fails. */
    method Submit() returns (saved: Option<ScheduleUser>)
      modifies this
      ensures saved.Some? <==> CheckUser(formData, confirmPassword, initial).Save?
      ensures saved.Some? ==> saved.value == CheckUser(formData, confirmPassword, initial).user && error == ""
      ensures saved.None? ==> error == CheckUser(formData, confirmPassword, initial).message
      ensures formData == old(formData) && confirmPassword == old(confirmPassword)
    {
      error := "";
      if formData.password != confirmPassword {
        error := MISMATCH;
        return None;
      }
      if initial.None? && formData.password == "" {
        error := PASSWORD_REQUIRED;
        return None;
      }
      saved := Some(UserOf(formData, IdOf(initial, UserId)));
    }
  }

  // ---------------------------------------------------------------------------
  // The associate form
  // ---------------------------------------------------------------------------

  datatype AssociateDraft = AssociateDraft(name: string, logoUrl: string, website: string, status: Visibility)

  datatype LogoType = Image | Text

  function AssociateDraftOf(initial: Option<Associate>): (d: AssociateDraft)
    ensures initial.None? ==> d == AssociateDraft("", "", "", Visible)
    ensures initial.Some? ==>
      d.name == initial.value.name && d.logoUrl == initial.value.logoUrl &&
      d.website == initial.value.website && d.status == initial.value.status
  {
    match initial
    case None => AssociateDraft("", "", "", Visible)
    case Some(a) => AssociateDraft(a.name, a.logoUrl, a.website, a.status)
  }

  /** The logo mode starts as text exactly for a stored text-only associate. */
  function InitialLogoType(initial: Option<Associate>): (t: LogoType)
    ensures t == Text <==> initial.Some? && initial.value.logoUrl == TEXT_ONLY
  {
    if initial.Some? && initial.value.logoUrl == TEXT_ONLY then Text else Image
  }

  /** The submitted associate: in text mode the logo is the text-only marker. */
  function AssociateOf(d: AssociateDraft, t: LogoType, id: int): (a: Associate)
    ensures a.id == id && a.name == d.name && a.website == d.website && a.status == d.status
    ensures t == Text ==> a.logoUrl == TEXT_ONLY
    ensures t == Image ==> a.logoUrl == d.logoUrl
  {
    Associate(id, d.name, if t == Text then TEXT_ONLY else d.logoUrl, d.website, d.status)
  }

  /** Opening an associate for editing and saving at once gives back the stored associate. */
  lemma AssociateEditRoundTrip(a: Associate)
    ensures AssociateOf(AssociateDraftOf(Some(a)), InitialLogoType(Some(a)), IdOf(Some(a), AssociateId)) == a
  {
  }

  datatype AssociateField = AssociateName | LogoUrl | Website

  class AssociateForm {
    const initial: Option<Associate>
    var formData: AssociateDraft
    var logoType: LogoType

    constructor (initialData: Option<Associate>)
      ensures initial == initialData && formData == AssociateDraftOf(initialData)
      ensures logoType == InitialLogoType(initialData)
    {
      initial := initialData;
      formData := AssociateDraftOf(initialData);
      logoType := InitialLogoType(initialData);
    }

    method Edit(field: AssociateField, value: string)
      modifies this
      ensures formData == match field
                          case AssociateName => old(formData).(name := value)
                          case LogoUrl => old(formData).(logoUrl := value)
                          case Website => old(formData).(website := value)
      ensures logoType == old(logoType)
    {
      match field {
        case AssociateName => formData := formData.(name := value);
        case LogoUrl => formData := formData.(logoUrl := value);
        case Website => formData := formData.(website := value);
      }
    }

    method SetLogoType(t: LogoType)
      modifies this
      ensures logoType == t && formData == old(formData)
    {
      logoType := t;
    }

    method Submit() returns (a: Associate)
      ensures a == AssociateOf(formData, logoType, IdOf(initial, AssociateId))
      ensures logoType == Text ==> a.logoUrl == TEXT_ONLY
    {
      a := AssociateOf(formData, logoType, IdOf(initial, AssociateId));
    }
  }

  // ---------------------------------------------------------------------------
  // The specialist form
  // ---------------------------------------------------------------------------

  datatype SpecialistDraft = SpecialistDraft(
    name: string, specialty: string, address: string, phone: string, photoUrl: string,
    consultationFee: real, biography: string, medicalCenterId: string, status: Visibility)

  predicate ShowsSpecialist(d: SpecialistDraft, s: Specialist)
  {
    d.name == s.name && d.specialty == s.specialty && d.address == s.address &&
    d.phone == s.phone && d.photoUrl == s.photoUrl && d.consultationFee == s.consultationFee &&
    d.biography == s.biography && d.medicalCenterId == s.medicalCenterId && d.status == s.status
  }

  function SpecialistDraftOf(initial: Option<Specialist>): (d: SpecialistDraft)
    ensures initial.Some? ==> ShowsSpecialist(d, initial.value)
    ensures initial.None? ==> d == SpecialistDraft("", FIRST_SPECIALTY, "", "", "", 0.0, "", FIRST_CENTER_ID, Visible)
  {
    match initial
    case None => SpecialistDraft("", FIRST_SPECIALTY, "", "", "", 0.0, "", FIRST_CENTER_ID, Visible)
    case Some(s) =>
      SpecialistDraft(s.name, s.specialty, s.address, s.phone, s.photoUrl, s.consultationFee,
                      s.biography, s.medicalCenterId, s.status)
  }

  /** The stored availability, or none for a specialist being created. */
  function KeptAvailability(initial: Option<Specialist>): (a: seq<DaySlots>)
    ensures initial.None? ==> a == []
    ensures initial.Some? ==> a == initial.value.availability
  {
    match initial
    case None => []
    case Some(s) => s.availability
  }

  function SpecialistOf(d: SpecialistDraft, initial: Option<Specialist>): (s: Specialist)
    ensures ShowsSpecialist(d, s)
    ensures s.id == IdOf(initial, SpecialistId) && s.availability == KeptAvailability(initial)
  {
    Specialist(IdOf(initial, SpecialistId), d.name, d.specialty, d.address, d.phone, d.photoUrl,
               d.consultationFee, d.biography, d.medicalCenterId, KeptAvailability(initial), d.status)
  }

  /** Opening a specialist for editing and saving at once gives back the stored specialist. */
  lemma SpecialistEditRoundTrip(s: Specialist)
    ensures SpecialistOf(SpecialistDraftOf(Some(s)), Some(s)) == s
  {
  }

  /** A specialist saved from the create form has no date the booking wizard can preselect. */
  lemma NewSpecialistNotBookable(d: SpecialistDraft, todayKey: string)
    ensures FirstAvailableDate(SpecialistOf(d, None).availability, todayKey) == ""
  {
    NoAvailabilityNoDate(todayKey);
  }

  datatype SpecialistField = SpecialistName | Specialty | Address | Phone | PhotoUrl | Biography | SpecialistCenter

  class SpecialistForm {
    const initial: Option<Specialist>
    var formData: SpecialistDraft

    constructor (initialData: Option<Specialist>)
      ensures initial == initialData && formData == SpecialistDraftOf(initialData)
    {
      initial := initialData;
      formData := SpecialistDraftOf(initialData);
    }

    /** `handleChange` on a text field: the raw string is stored. */
    method Edit(field: SpecialistField, value: string)
      modifies this
      ensures formData == match field
                          case SpecialistName => old(formData).(name := value)
                          case Specialty => old(formData).(specialty := value)
                          case Address => old(formData).(address := value)
                          case Phone => old(formData).(phone := value)
                          case PhotoUrl => old(formData).(photoUrl := value)
                          case Biography => old(formData).(biography := value)
                          case SpecialistCenter => old(formData).(medicalCenterId := value)
    {
      match field {
        case SpecialistName => formData := formData.(name := value);
        case Specialty => formData := formData.(specialty := value);
        case Address => formData := formData.(address := value);
        case Phone => formData := formData.(phone := value);
        case PhotoUrl => formData := formData.(photoUrl := value);
        case Biography => formData := formData.(biography := value);
        case SpecialistCenter => formData := formData.(medicalCenterId := value);
      }
    }

    /** `handleChange` on the fee: the value `Number` read from the input. */
    method EditFee(fee: real)
      modifies this
      ensures formData == old(formData).(consultationFee := fee)
    {
      formData := formData.(consultationFee := fee);
    }

    method Submit() returns (s: Specialist)
      ensures s == SpecialistOf(formData, initial)
      ensures s.availability == KeptAvailability(initial)
    {
      s := SpecialistOf(formData, initial);
    }
  }
}
