/**
 * Coupon codes: the detail page generates a code for a coupon and stores it in the shared
 * instance list, the verifier looks a code up and classifies it, marks it as redeemed, and
 * the redemption history lists what has been redeemed (CouponDetailPage.tsx,
 * CouponVerifierPage.tsx, RedemptionHistory.tsx).
 *
 * Timestamps are the `toISOString()` strings the source stores (`YYYY-MM-DDTHH:mm:ss.sssZ`);
 * for strings of that one format, string order is time order, so instants are compared
 * with `LexLess`.
 */
module Coupons {
  import opened Base
  import opened Strings
  import opened Lists
  import opened Types

  // ---------------------------------------------------------------------------
  // Looking up a code
  // ---------------------------------------------------------------------------

  /** `inst.id.toUpperCase() === couponCode.toUpperCase()`. */
  function CodeTest(code: string): CouponInstance -> bool
  {
    (inst: CouponInstance) => ToUpper(inst.id) == ToUpper(code)
  }

  /** The first instance whose id equals the code up to case. */
  function Lookup(instances: seq<CouponInstance>, code: string): (r: Option<CouponInstance>)
    ensures r.None? <==> forall i :: 0 <= i < |instances| ==> ToUpper(instances[i].id) != ToUpper(code)
    ensures r.Some? ==> r.value in instances && ToUpper(r.value.id) == ToUpper(code)
  {
    Find(instances, CodeTest(code))
  }

  function TemplateTest(couponId: int): Coupon -> bool
  {
    (c: Coupon) => c.id == couponId
  }

  /** `COUPONS_DATA.find(c => c.id === instance.couponId)`. */
  function TemplateOf(coupons: seq<Coupon>, couponId: int): (r: Option<Coupon>)
    ensures r.None? <==> forall i :: 0 <= i < |coupons| ==> coupons[i].id != couponId
    ensures r.Some? ==> r.value in coupons && r.value.id == couponId
  {
    Find(coupons, TemplateTest(couponId))
  }

  // ---------------------------------------------------------------------------
  // Classification
  // ---------------------------------------------------------------------------

  /** The verifier's `VerificationStatus`. */
  datatype Verdict = Idle | Loading | CodeValid | CodeRedeemed | CodeExpired | CodeInvalid

  /** `new Date(expiryDate) < new Date()`. */
  predicate ExpiredAt(c: Coupon, now: string)
  {
    LexLess(c.expiryDate, now)
  }

  /**
   * The verdict of the verifier's timer: an unknown code or an instance without a template
   * is invalid; a redeemed instance is reported as such before its expiry is looked at.
   */
  function Classify(instances: seq<CouponInstance>, coupons: seq<Coupon>, code: string, now: string): (r: Verdict)
    ensures r == CodeInvalid <==>
              Lookup(instances, code).None? || TemplateOf(coupons, Lookup(instances, code).value.couponId).None?
    ensures r == CodeRedeemed <==>
              Lookup(instances, code).Some? && TemplateOf(coupons, Lookup(instances, code).value.couponId).Some? &&
              Lookup(instances, code).value.status == Redeemed
    ensures r == CodeExpired <==>
              Lookup(instances, code).Some? && Lookup(instances, code).value.status != Redeemed &&
              TemplateOf(coupons, Lookup(instances, code).value.couponId).Some? &&
              ExpiredAt(TemplateOf(coupons, Lookup(instances, code).value.couponId).value, now)
    ensures r == CodeValid <==>
              Lookup(instances, code).Some? && Lookup(instances, code).value.status != Redeemed &&
              TemplateOf(coupons, Lookup(instances, code).value.couponId).Some? &&
              !ExpiredAt(TemplateOf(coupons, Lookup(instances, code).value.couponId).value, now)
    ensures r != Idle && r != Loading
  {
    match Lookup(instances, code)
    case None => CodeInvalid
    case Some(inst) =>
      match TemplateOf(coupons, inst.couponId)
      case None => CodeInvalid
      case Some(c) =>
        if inst.status == Redeemed then CodeRedeemed
        else if ExpiredAt(c, now) then CodeExpired
        else CodeValid
  }

  /** Two codes that upper-case alike get the same verdict. */
  lemma CaseInsensitive(instances: seq<CouponInstance>, coupons: seq<Coupon>, a: string, b: string, now: string)
    requires ToUpper(a) == ToUpper(b)
    ensures Lookup(instances, a) == Lookup(instances, b)
    ensures Classify(instances, coupons, a, now) == Classify(instances, coupons, b, now)
  {
    FindSameTest(instances, CodeTest(a), CodeTest(b));
  }

  /** Typing a code in upper or lower case does not change its verdict. */
  lemma VerdictIgnoresCase(instances: seq<CouponInstance>, coupons: seq<Coupon>, code: string, now: string)
    ensures Classify(instances, coupons, ToUpper(code), now) == Classify(instances, coupons, code, now)
    ensures Classify(instances, coupons, ToLower(code), now) == Classify(instances, coupons, code, now)
  {
    ToUpperIsUpper(ToUpper(code));
    CaseInsensitive(instances, coupons, ToUpper(code), code, now);
    UpperOfLower(code);
    CaseInsensitive(instances, coupons, ToLower(code), code, now);
  }

  // ---------------------------------------------------------------------------
  // Redeeming
  // ---------------------------------------------------------------------------

  const REDEEMED_BY := "Portal de Aliados"

  /** The three fields `handleRedeem` writes. */
  function Stamped(inst: CouponInstance, now: string): (r: CouponInstance)
    ensures r.id == inst.id && r.couponId == inst.couponId && r.generatedAt == inst.generatedAt
    ensures r.status == Redeemed && r.redeemedAt == Some(now) && r.redeemedBy == Some(REDEEMED_BY)
  {
    inst.(status := Redeemed, redeemedAt := Some(now), redeemedBy := Some(REDEEMED_BY))
  }

  /** `inst.id === verifiedInstance.id`: an exact comparison, unlike the lookup. */
  function IdTest(id: string): CouponInstance -> bool
  {
    (inst: CouponInstance) => inst.id == id
  }

  /** The instance list after `handleRedeem`: the first instance with exactly that id is stamped. */
  function MarkRedeemed(instances: seq<CouponInstance>, id: string, now: string): (r: seq<CouponInstance>)
    ensures |r| == |instances|
    ensures forall i :: 0 <= i < |r| ==> r[i].id == instances[i].id && r[i].couponId == instances[i].couponId
    ensures forall i :: 0 <= i < |r| && r[i] != instances[i] ==>
              instances[i].id == id && r[i] == Stamped(instances[i], now) &&
              forall j :: 0 <= j < i ==> instances[j].id != id
    ensures forall i :: 0 <= i < |r| && instances[i].id == id && (forall j :: 0 <= j < i ==> instances[j].id != id) ==>
              r[i] == Stamped(instances[i], now)
    ensures (forall i :: 0 <= i < |instances| ==> instances[i].id != id) ==> r == instances
  {
    var index := FindIndex(instances, IdTest(id));
    if index == -1 then instances else instances[index := Stamped(instances[index], now)]
  }

  /** After redeeming the instance a code found, the same code verifies as already redeemed. */
  lemma RedeemThenVerify(instances: seq<CouponInstance>, coupons: seq<Coupon>, code: string, now: string, later: string)
    requires Lookup(instances, code).Some?
    requires TemplateOf(coupons, Lookup(instances, code).value.couponId).Some?
    ensures Classify(MarkRedeemed(instances, Lookup(instances, code).value.id, now), coupons, code, later) == CodeRedeemed
  {
    var k := FindIndex(instances, CodeTest(code));
    var inst := instances[k];
    assert forall j :: 0 <= j < k ==> instances[j].id != inst.id by {
      forall j | 0 <= j < k
        ensures instances[j].id != inst.id
      {
        assert !CodeTest(code)(instances[j]);
      }
    }
    assert FindIndex(instances, IdTest(inst.id)) == k;
    var after := MarkRedeemed(instances, inst.id, now);
    assert after == instances[k := Stamped(inst, now)];
    FindIndexUpdate(instances, k, Stamped(inst, now), CodeTest(code));
    assert Lookup(after, code) == Some(Stamped(inst, now));
  }

  // ---------------------------------------------------------------------------
  // Generating
  // ---------------------------------------------------------------------------

  const CODE_PREFIX := "RCLINIC-"

  /** `RCLINIC-` followed by the upper-cased random characters. */
  function GeneratedCode(random: string): (code: string)
    ensures IsUpperCase(code)
    ensures StartsWith(code, CODE_PREFIX) && |code| == |CODE_PREFIX| + |random|
  {
    ToUpperIsUpper(random);
    UpperCaseAppend(CODE_PREFIX, ToUpper(random));
    CODE_PREFIX + ToUpper(random)
  }

  /** The instance `handleRedeem` of the detail page creates: active and never used. */
  function NewInstance(coupon: Coupon, random: string, now: string): (inst: CouponInstance)
    ensures inst.id == GeneratedCode(random) && inst.couponId == coupon.id
    ensures inst.status == InstanceStatus.Active && inst.redeemedAt == None && inst.redeemedBy == None
  {
    CouponInstance(GeneratedCode(random), coupon.id, InstanceStatus.Active, now, None, None)
  }

  /**
   * A freshly generated code that collides with no stored code, for a coupon that has a
   * template and has not expired, verifies as valid. Nothing in the source rules the
   * collision out.
   */
  lemma FreshCodeVerifies(instances: seq<CouponInstance>, coupons: seq<Coupon>, coupon: Coupon,
                          random: string, generatedAt: string, now: string)
    requires Lookup(instances, GeneratedCode(random)).None?
    requires TemplateOf(coupons, coupon.id).Some? && !ExpiredAt(TemplateOf(coupons, coupon.id).value, now)
    ensures Classify(instances + [NewInstance(coupon, random, generatedAt)], coupons, GeneratedCode(random), now) == CodeValid
  {
    var inst := NewInstance(coupon, random, generatedAt);
    var code := GeneratedCode(random);
    FindAppendMissing(instances, [inst], CodeTest(code));
    assert CodeTest(code)(inst);
    assert Lookup(instances + [inst], code) == Some(inst);
  }

  // ---------------------------------------------------------------------------
  // Redemption history
  // ---------------------------------------------------------------------------

  /** An instance with the title and brand of its coupon. */
  datatype HistoryRow = HistoryRow(instance: CouponInstance, couponTitle: string, brandName: string)

  const UNKNOWN_TITLE := "Desconocido"
  const UNKNOWN_BRAND := "N/A"

  /** `couponTemplate?.title || 'Desconocido'`, and likewise for the brand. */
  function Join(inst: CouponInstance, coupons: seq<Coupon>): (row: HistoryRow)
    ensures row.instance == inst
    ensures TemplateOf(coupons, inst.couponId).None? ==> row.couponTitle == UNKNOWN_TITLE && row.brandName == UNKNOWN_BRAND
    ensures TemplateOf(coupons, inst.couponId).Some? ==>
              var c := TemplateOf(coupons, inst.couponId).value;
              (row.couponTitle == if c.title != "" then c.title else UNKNOWN_TITLE) &&
              (row.brandName == if c.brandName != "" then c.brandName else UNKNOWN_BRAND)
  {
    match TemplateOf(coupons, inst.couponId)
    case None => HistoryRow(inst, UNKNOWN_TITLE, UNKNOWN_BRAND)
    case Some(c) =>
      HistoryRow(inst, if c.title != "" then c.title else UNKNOWN_TITLE,
                 if c.brandName != "" then c.brandName else UNKNOWN_BRAND)
  }

  /** The `map` step: one row per instance, in order. */
  function JoinAll(instances: seq<CouponInstance>, coupons: seq<Coupon>): (rows: seq<HistoryRow>)
    ensures |rows| == |instances|
    ensures forall i :: 0 <= i < |rows| ==> rows[i] == Join(instances[i], coupons)
  {
    if instances == [] then [] else [Join(instances[0], coupons)] + JoinAll(instances[1..], coupons)
  }

  function IsRedeemed(inst: CouponInstance): bool
  {
    inst.status == Redeemed
  }

  function RedeemedAtKey(row: HistoryRow): string
  {
    if row.instance.redeemedAt.Some? then row.instance.redeemedAt.value else ""
  }

  /** `redeemedCoupons`: the redeemed instances with their coupon, most recent first. */
  function History(instances: seq<CouponInstance>, coupons: seq<Coupon>): (rows: seq<HistoryRow>)
    ensures multiset(rows) == multiset(JoinAll(Filter(instances, IsRedeemed), coupons))
    ensures |rows| == Count(instances, IsRedeemed)
    ensures SortedBy(rows, RedeemedAtKey, true)
  {
    var joined := JoinAll(Filter(instances, IsRedeemed), coupons);
    var rows := SortBy(joined, RedeemedAtKey, true);
    assert |rows| == |multiset(rows)| == |multiset(joined)| == |joined|;
    rows
  }

  /** A row is in the history exactly when it joins a redeemed instance. */
  lemma HistoryRows(instances: seq<CouponInstance>, coupons: seq<Coupon>)
    ensures forall row :: row in History(instances, coupons) <==>
              row.instance in instances && row.instance.status == Redeemed && row == Join(row.instance, coupons)
  {
    var redeemed := Filter(instances, IsRedeemed);
    var joined := JoinAll(redeemed, coupons);
    FilterMembers(instances, IsRedeemed);
    forall row
      ensures row in History(instances, coupons) <==> row in joined
    {
      assert row in History(instances, coupons) <==> row in multiset(History(instances, coupons));
    }
    forall row
      ensures row in joined <==> row.instance in redeemed && row == Join(row.instance, coupons)
    {
      if row.instance in redeemed && row == Join(row.instance, coupons) {
        var i :| 0 <= i < |redeemed| && redeemed[i] == row.instance;
        assert joined[i] == row;
      }
    }
  }

  /** Every redeemed instance appears in the history exactly once, each once per occurrence. */
  lemma HistoryCounts(instances: seq<CouponInstance>, coupons: seq<Coupon>, inst: CouponInstance)
    ensures multiset(History(instances, coupons))[Join(inst, coupons)] ==
            if inst.status == Redeemed then multiset(instances)[inst] else 0
  {
    var redeemed := Filter(instances, IsRedeemed);
    FilterMultiset(instances, IsRedeemed, inst);
    JoinAllCount(redeemed, coupons, inst);
  }

  lemma {:induction false} JoinAllCount(instances: seq<CouponInstance>, coupons: seq<Coupon>, inst: CouponInstance)
    ensures multiset(JoinAll(instances, coupons))[Join(inst, coupons)] == multiset(instances)[inst]
    decreases |instances|
  {
    if instances != [] {
      var rows := JoinAll(instances, coupons);
      JoinAllCount(instances[1..], coupons, inst);
      HeadTailMultiset(instances);
      HeadTailMultiset(rows);
      assert rows[1..] == JoinAll(instances[1..], coupons);
      JoinInjective(instances[0], inst, coupons);
    }
  }

  /** Distinct instances give distinct rows. */
  lemma JoinInjective(a: CouponInstance, b: CouponInstance, coupons: seq<Coupon>)
    ensures Join(a, coupons) == Join(b, coupons) <==> a == b
  {
    assert Join(a, coupons).instance == a && Join(b, coupons).instance == b;
  }

  // ---------------------------------------------------------------------------
  // The shared instance list and the two pages
  // ---------------------------------------------------------------------------

  /** `COUPON_INSTANCES_DATA`: a module-level list both pages read and change in place. */
  class InstanceStore {
    var instances: seq<CouponInstance>

    constructor (initial: seq<CouponInstance>)
      ensures instances == initial
    {
      instances := initial;
    }
  }

  /** The state of `CouponVerifierPage`. */
  class Verifier {
    var couponCode: string
    var status: Verdict
    var verifiedInstance: Option<CouponInstance>
    var verifiedCoupon: Option<Coupon>
    var wasRedeemed: bool

    /** A verdict about a found code comes with the instance and the coupon it found. */
    predicate Valid()
      reads this
    {
      (status == CodeValid || status == CodeRedeemed || status == CodeExpired ==>
         verifiedInstance.Some? && verifiedCoupon.Some?) &&
      (wasRedeemed ==> verifiedInstance.Some?)
    }

    /** The redeem button is shown for a valid code and disabled once used. */
    predicate CanRedeem()
      reads this
    {
      status == CodeValid && !wasRedeemed
    }

    constructor ()
      ensures Valid()
      ensures couponCode == "" && status == Idle && verifiedInstance == None && verifiedCoupon == None && !wasRedeemed
    {
      couponCode, status, verifiedInstance, verifiedCoupon, wasRedeemed := "", Idle, None, None, false;
    }

    /** `resetState`. */
    method Reset()
      requires Valid()
      modifies this
      ensures Valid()
      ensures status == Idle && verifiedInstance == None && verifiedCoupon == None && !wasRedeemed
      ensures couponCode == old(couponCode)
    {
      status, verifiedInstance, verifiedCoupon, wasRedeemed := Idle, None, None, false;
    }

    /** The code input: every keystroke resets the verdict. */
    method EditCode(code: string)
      requires Valid()
      modifies this
      ensures Valid()
      ensures couponCode == code
      ensures status == Idle && verifiedInstance == None && verifiedCoupon == None && !wasRedeemed
    {
      couponCode := code;
      Reset();
    }

    /**
     * `handleVerify` on submit: an empty code does nothing; otherwise the verdict is reset,
     * the page shows the loading state and the code is handed to the timer.
     */
    method Submit() returns (pending: Option<string>)
      requires Valid() && status != Loading
      modifies this
      ensures Valid()
      ensures couponCode == old(couponCode)
      ensures old(couponCode) == "" ==>
                pending == None && status == old(status) &&
                verifiedInstance == old(verifiedInstance) && verifiedCoupon == old(verifiedCoupon) &&
                wasRedeemed == old(wasRedeemed)
      ensures old(couponCode) != "" ==>
                pending == Some(old(couponCode)) && status == Loading &&
                verifiedInstance == None && verifiedCoupon == None && !wasRedeemed
    {
      if couponCode == "" {
        return None;
      }
      Reset();
      status := Loading;
      pending := Some(couponCode);
    }

    /** The timer of `handleVerify`: classifies the submitted code against the stored instances. */
    method Resolve(code: string, store: InstanceStore, coupons: seq<Coupon>, now: string)
      requires Valid()
      modifies this
      ensures Valid()
      ensures status == Classify(store.instances, coupons, code, now)
      ensures status != CodeInvalid ==>
                verifiedInstance == Lookup(store.instances, code) &&
                verifiedCoupon == TemplateOf(coupons, Lookup(store.instances, code).value.couponId)
      ensures status == CodeInvalid ==> verifiedInstance == old(verifiedInstance) && verifiedCoupon == old(verifiedCoupon)
      ensures couponCode == old(couponCode) && wasRedeemed == old(wasRedeemed)
    {
      var instance := Lookup(store.instances, code);
      if instance.None? {
        status := CodeInvalid;
        return;
      }
      var template := TemplateOf(coupons, instance.value.couponId);
      if template.None? {
        status := CodeInvalid;
        return;
      }
      verifiedInstance := instance;
      verifiedCoupon := template;
      if instance.value.status == Redeemed {
        status := CodeRedeemed;
      } else if ExpiredAt(template.value, now) {
        status := CodeExpired;
      } else {
        status := CodeValid;
      }
    }

    /**
     * `handleRedeem`: stamps the stored instance with the verified id and disables the button.
     * The button is rendered only for a valid code and is disabled once used (`CanRedeem`).
     */
    method Redeem(store: InstanceStore, now: string)
      requires Valid() && CanRedeem()
      modifies this, store
      ensures Valid()
      ensures old(verifiedInstance).Some? ==>
                store.instances == MarkRedeemed(old(store.instances), old(verifiedInstance).value.id, now) &&
                wasRedeemed && !CanRedeem()
      ensures old(verifiedInstance).None? ==> store.instances == old(store.instances) && wasRedeemed == old(wasRedeemed)
      ensures couponCode == old(couponCode) && status == old(status)
      ensures verifiedInstance == old(verifiedInstance) && verifiedCoupon == old(verifiedCoupon)
    {
      if verifiedInstance.Some? {
        var updated := MarkRedeemed(store.instances, verifiedInstance.value.id, now);
        store.instances := updated;
        wasRedeemed := true;
      }
    }
  }

  /** The state of `CouponDetailPage`. */
  class DetailView {
    var coupon: Option<Coupon>
    var isRedeemed: bool
    var couponCode: string

    constructor ()
      ensures coupon == None && !isRedeemed && couponCode == ""
    {
      coupon, isRedeemed, couponCode := None, false, "";
    }

    /**
     * The mount effect: a non-empty `id` parameter selects the coupon with the id
     * `parseInt` reads from it; `NaN` matches no coupon.
     */
    method Load(id: Option<string>, coupons: seq<Coupon>)
      modifies this
      ensures TruthyString(id) && ParseInt(id.value).Some? ==>
                coupon == TemplateOf(coupons, ParseInt(id.value).value)
      ensures TruthyString(id) && ParseInt(id.value).None? ==> coupon == None
      ensures !TruthyString(id) ==> coupon == old(coupon)
      ensures isRedeemed == old(isRedeemed) && couponCode == old(couponCode)
    {
      if TruthyString(id) {
        var n := ParseInt(id.value);
        if n.Some? {
          coupon := TemplateOf(coupons, n.value);
        } else {
          coupon := None;
        }
      }
    }

    /** `handleRedeem`: appends a new active instance for the loaded coupon and shows its code. */
    method Generate(store: InstanceStore, random: string, now: string)
      modifies this, store
      ensures old(coupon).None? ==>
                store.instances == old(store.instances) &&
                isRedeemed == old(isRedeemed) && couponCode == old(couponCode)
      ensures old(coupon).Some? ==>
                store.instances == old(store.instances) + [NewInstance(old(coupon).value, random, now)] &&
                isRedeemed && couponCode == GeneratedCode(random)
      ensures coupon == old(coupon)
    {
      if coupon.None? {
        return;
      }
      var instance := NewInstance(coupon.value, random, now);
      store.instances := store.instances + [instance];
      couponCode := instance.id;
      isRedeemed := true;
    }
  }

  /** The detail page, opened on `couponId`, hands out a code and stores its instance. */
  method GenerateOn(coupons: seq<Coupon>, couponId: string, random: string, now: string, store: InstanceStore)
      returns (code: string)
    requires ParseInt(couponId).Some? && TemplateOf(coupons, ParseInt(couponId).value).Some?
    modifies store
    ensures code == GeneratedCode(random)
    ensures store.instances == old(store.instances) + [NewInstance(TemplateOf(coupons, ParseInt(couponId).value).value, random, now)]
  {
    ParseIntEmpty();
    var page := new DetailView();
    page.Load(Some(couponId), coupons);
    page.Generate(store, random, now);
    code := page.couponCode;
  }

  /** The verifier page, given a non-empty code, comes to the verdict `Classify` gives. */
  method VerifyOn(code: string, store: InstanceStore, coupons: seq<Coupon>, now: string) returns (verdict: Verdict)
    requires code != ""
    ensures verdict == Classify(store.instances, coupons, code, now)
  {
    var verifier := new Verifier();
    verifier.EditCode(code);
    var pending := verifier.Submit();
    verifier.Resolve(pending.value, store, coupons, now);
    verdict := verifier.status;
  }

  /** A code obtained from the detail page verifies as valid when it collides with nothing stored. */
  method GenerateThenVerify(coupons: seq<Coupon>, couponId: string, random: string, now: string,
                            store: InstanceStore)
      returns (verdict: Verdict)
    requires ParseInt(couponId).Some? && TemplateOf(coupons, ParseInt(couponId).value).Some?
    requires !ExpiredAt(TemplateOf(coupons, ParseInt(couponId).value).value, now)
    requires Lookup(store.instances, GeneratedCode(random)).None?
    modifies store
    ensures verdict == CodeValid
  {
    var coupon := TemplateOf(coupons, ParseInt(couponId).value).value;
    FreshCodeVerifies(store.instances, coupons, coupon, random, now, now);
    var code := GenerateOn(coupons, couponId, random, now, store);
    verdict := VerifyOn(code, store, coupons, now);
  }
}
