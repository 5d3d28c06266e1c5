/**
 * The referral programme: sign-up (ReferralPage.tsx) appends a pending, active referrer to
 * the shared list; the admin approves or rejects it and switches it on and off
 * (ManageReferrers.tsx); the referral portal (ReferralDashboardPage.tsx) lets in an
 * approved, active referrer by code.
 */
module Referrers {
  import opened Base
  import opened Strings
  import opened Lists
  import opened Types
  import opened AdminLists

  // ---------------------------------------------------------------------------
  // The admin page
  // ---------------------------------------------------------------------------

  /** The row buttons: approve and reject for a pending referrer, the activity switch for an approved one. */
  datatype Action = Approve | Reject | SwitchActivity

  function Offered(r: Referrer): (actions: set<Action>)
    ensures Approve in actions <==> r.status == Pending
    ensures Reject in actions <==> r.status == Pending
    ensures SwitchActivity in actions <==> r.status == Approved
  {
    match r.status
    case Pending => {Approve, Reject}
    case Approved => {SwitchActivity}
    case Rejected => {}
  }

  function FlipActivity(a: Activity): (b: Activity)
    ensures b != a
  {
    if a == Activity.Active then Inactive else Activity.Active
  }

  /** What one button does to its referrer. */
  function ApplyOne(r: Referrer, action: Action): (q: Referrer)
    ensures q.id == r.id && q.referralCode == r.referralCode
    ensures action == Approve ==> q == r.(status := Approved)
    ensures action == Reject ==> q == r.(status := Rejected)
    ensures action == SwitchActivity ==> q == r.(activityStatus := FlipActivity(r.activityStatus))
  {
    match action
    case Approve => r.(status := Approved)
    case Reject => r.(status := Rejected)
    case SwitchActivity => r.(activityStatus := FlipActivity(r.activityStatus))
  }

  function ReferrerId(r: Referrer): int { r.id }

  /** `handleUpdateStatus` and `handleToggleActivityStatus`: the referrers with that id change. */
  function Apply(referrers: seq<Referrer>, id: int, action: Action): (r: seq<Referrer>)
    ensures |r| == |referrers|
    ensures forall i :: 0 <= i < |r| && referrers[i].id != id ==> r[i] == referrers[i]
    ensures forall i :: 0 <= i < |r| && referrers[i].id == id ==> r[i] == ApplyOne(referrers[i], action)
  {
    var hit := HasKey(ReferrerId, id);
    assert forall x: Referrer :: hit(x) == (x.id == id);
    MapWhere(referrers, hit, (x: Referrer) => ApplyOne(x, action))
  }

  /** An approval decision changes the approval status only; the activity switch changes the activity only. */
  lemma ActionsTouchOneField(r: Referrer, action: Action)
    ensures action != SwitchActivity ==> ApplyOne(r, action).activityStatus == r.activityStatus
    ensures action == SwitchActivity ==> ApplyOne(r, action).status == r.status
    ensures ApplyOne(r, action).name == r.name && ApplyOne(r, action).email == r.email
  {
  }

  /** Through the buttons on offer, a decided referrer stays decided. */
  lemma DecisionsAreFinal(r: Referrer, action: Action)
    requires r.status != Pending && action in Offered(r)
    ensures ApplyOne(r, action).status == r.status
  {
  }

  /** Switching a referrer's activity twice restores the list. */
  lemma SwitchTwice(referrers: seq<Referrer>, id: int)
    ensures Apply(Apply(referrers, id, SwitchActivity), id, SwitchActivity) == referrers
  {
    var once := Apply(referrers, id, SwitchActivity);
    var twice := Apply(once, id, SwitchActivity);
    forall i | 0 <= i < |referrers|
      ensures twice[i] == referrers[i]
    {
      if referrers[i].id == id {
        assert once[i] == ApplyOne(referrers[i], SwitchActivity) && once[i].id == id;
      }
    }
  }

  /** The `referrers` state of the admin page, a copy of the shared list taken on mount. */
  class ReferrersPage {
    var referrers: seq<Referrer>

    constructor (initial: seq<Referrer>)
      ensures referrers == initial
    {
      referrers := initial;
    }

    /** A click on one of the buttons the row of `target` shows. */
    method Click(target: Referrer, action: Action)
      requires action in Offered(target)
      modifies this
      ensures referrers == Apply(old(referrers), target.id, action)
    {
      referrers := Apply(referrers, target.id, action);
    }
  }

  // ---------------------------------------------------------------------------
  // Sign-up
  // ---------------------------------------------------------------------------

  /** `${name.split(' ')[0].toUpperCase()}${random.toUpperCase()}`. */
  function ReferralCode(name: string, random: string): (code: string)
    ensures IsUpperCase(code)
    ensures StartsWith(code, ToUpper(BeforeFirst(name, ' ')))
    ensures |code| == |BeforeFirst(name, ' ')| + |random|
  {
    var word := ToUpper(BeforeFirst(name, ' '));
    ToUpperIsUpper(BeforeFirst(name, ' '));
    ToUpperIsUpper(random);
    UpperCaseAppend(word, ToUpper(random));
    assert (word + ToUpper(random))[..|word|] == word;
    word + ToUpper(random)
  }

  /** The form of the sign-up page. */
  datatype SignUpForm = SignUpForm(name: string, email: string, phone: string)

  /** The referrer `handleSubmit` builds: pending, active, with the form's contact fields. */
  function NewReferrer(form: SignUpForm, now: int, random: string, createdAt: string): (r: Referrer)
    ensures r.status == Pending && r.activityStatus == Activity.Active
    ensures r.name == form.name && r.email == form.email && r.phone == form.phone
    ensures r.id == now && r.createdAt == createdAt
    ensures r.referralCode == ReferralCode(form.name, random)
  {
    Referrer(now, form.name, form.email, form.phone, Pending, ReferralCode(form.name, random), createdAt, Activity.Active)
  }

  /** `REFERRERS_DATA`: the module-level list the sign-up page appends to and the portal reads. */
  class ReferrerStore {
    var referrers: seq<Referrer>

    constructor (initial: seq<Referrer>)
      ensures referrers == initial
    {
      referrers := initial;
    }
  }

  datatype Field = Name | Email | Phone

  class SignUpPage {
    var form: SignUpForm
    var isSubmitted: bool

    constructor ()
      ensures form == SignUpForm("", "", "") && !isSubmitted
    {
      form := SignUpForm("", "", "");
      isSubmitted := false;
    }

    /** `handleChange`: the input's `name` picks the field. */
    method Edit(field: Field, value: string)
      modifies this
      ensures form == match field
                      case Name => old(form).(name := value)
                      case Email => old(form).(email := value)
                      case Phone => old(form).(phone := value)
      ensures isSubmitted == old(isSubmitted)
    {
      match field {
        case Name => form := form.(name := value);
        case Email => form := form.(email := value);
        case Phone => form := form.(phone := value);
      }
    }

    /** `handleSubmit`: appends exactly one referrer to the shared list. */
    method Submit(store: ReferrerStore, now: int, random: string, createdAt: string)
      modifies this, store
      ensures store.referrers == old(store.referrers) + [NewReferrer(form, now, random, createdAt)]
      ensures isSubmitted && form == old(form)
    {
      store.referrers := store.referrers + [NewReferrer(form, now, random, createdAt)];
      isSubmitted := true;
    }
  }

  // ---------------------------------------------------------------------------
  // The portal
  // ---------------------------------------------------------------------------

  const LOGIN_ERROR := "Código de referido inválido, no aprobado o inactivo."
  const LINK_PREFIX := "https://rclinic.ec/#/registro-cliente?ref="

  /** The portal's test: the exact code, after upper-casing the input, of an approved and active referrer. */
  function AdmitsTest(input: string): Referrer -> bool
  {
    (r: Referrer) => r.referralCode == ToUpper(input) && r.status == Approved && r.activityStatus == Activity.Active
  }

  predicate Admits(r: Referrer, input: string)
  {
    r.referralCode == ToUpper(input) && r.status == Approved && r.activityStatus == Activity.Active
  }

  /** `referralLink`. */
  function ReferralLink(r: Referrer): (link: string)
    ensures StartsWith(link, LINK_PREFIX) && link[|LINK_PREFIX|..] == r.referralCode
  {
    LINK_PREFIX + r.referralCode
  }

  /** A pending referrer is never let in, so nobody gets in with a code just signed up. */
  lemma PendingNotAdmitted(r: Referrer, input: string)
    requires r.status == Pending
    ensures !Admits(r, input)
  {
  }

  /** Generated codes are upper-case, so the referrer may type theirs in any case. */
  lemma GeneratedCodeAnyCase(r: Referrer, name: string, random: string, input: string)
    requires r.referralCode == ReferralCode(name, random) && r.status == Approved && r.activityStatus == Activity.Active
    requires ToUpper(input) == ToUpper(r.referralCode)
    ensures Admits(r, input)
  {
    ToUpperIsUpper(r.referralCode);
  }

  /** The `LoginView` state and the page's `loggedInReferrer`. */
  class Portal {
    var code: string
    var error: string
    var loggedIn: Option<Referrer>

    constructor ()
      ensures code == "" && error == "" && loggedIn == None
    {
      code, error, loggedIn := "", "", None;
    }

    /** The code input clears the error. */
    method EditCode(value: string)
      modifies this
      ensures code == value && error == "" && loggedIn == old(loggedIn)
    {
      code := value;
      error := "";
    }

    /** `handleLogin`: the first admitted referrer logs in; otherwise the error is shown. */
    method Login(store: ReferrerStore)
      requires loggedIn.None?
      modifies this
      ensures loggedIn.Some? <==> exists i :: 0 <= i < |store.referrers| && Admits(store.referrers[i], code)
      ensures loggedIn.Some? ==> loggedIn.value in store.referrers && Admits(loggedIn.value, code) && error == old(error)
      ensures loggedIn.Some? ==> loggedIn == Find(store.referrers, AdmitsTest(code))
      ensures loggedIn.None? ==> error == LOGIN_ERROR
      ensures code == old(code)
    {
      var found := Find(store.referrers, AdmitsTest(code));
      if found.Some? {
        loggedIn := found;
      } else {
        error := LOGIN_ERROR;
      }
    }

    /** The dashboard's log-out button: the login view is mounted again, with its state fresh. */
    method Logout()
      modifies this
      ensures loggedIn == None && code == "" && error == ""
    {
      code, error, loggedIn := "", "", None;
    }

    /** The link the dashboard shows to the logged-in referrer. */
    method Link() returns (link: string)
      requires loggedIn.Some?
      ensures link == ReferralLink(loggedIn.value)
      ensures link[|LINK_PREFIX|..] == loggedIn.value.referralCode
    {
      link := LINK_PREFIX + loggedIn.value.referralCode;
    }
  }

  /** A list of codes other than `code`, plus a pending referrer, lets nobody in with `code`. */
  lemma NewCodeRefused(before: seq<Referrer>, r: Referrer, code: string)
    requires IsUpperCase(code) && r.status == Pending
    requires forall i :: 0 <= i < |before| ==> before[i].referralCode != code
    ensures forall i :: 0 <= i < |before + [r]| ==> !Admits((before + [r])[i], code)
  {
    ToUpperIsUpper(code);
    forall i | 0 <= i < |before + [r]|
      ensures !Admits((before + [r])[i], code)
    {
      if i < |before| {
        assert (before + [r])[i] == before[i];
      } else {
        PendingNotAdmitted(r, code);
      }
    }
  }

  /** Signing up and then trying the new code at once is refused, whatever the list held. */
  method SignUpThenLogin(store: ReferrerStore, form: SignUpForm, now: int, random: string, createdAt: string)
      returns (portal: Portal)
    requires forall i :: 0 <= i < |store.referrers| ==> store.referrers[i].referralCode != ReferralCode(form.name, random)
    modifies store
    ensures fresh(portal) && portal.loggedIn == None && portal.error == LOGIN_ERROR
  {
    var page := new SignUpPage();
    page.Edit(Name, form.name);
    page.Edit(Email, form.email);
    page.Edit(Phone, form.phone);
    assert page.form == form;
    ghost var before := store.referrers;
    var code := ReferralCode(form.name, random);
    NewCodeRefused(before, NewReferrer(form, now, random, createdAt), code);
    page.Submit(store, now, random, createdAt);
    portal := new Portal();
    portal.EditCode(code);
    portal.Login(store);
  }
}
