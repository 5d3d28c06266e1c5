/**
 * The public listings and the two small public view machines: the featured carousels
 * (FeaturedOffers.tsx), the "more" pages (MoreOffersPage.tsx, MoreCouponsPage.tsx), the
 * associates strip (Associates.tsx), the patient results portal (ResultsPage.tsx) and the
 * specialist search form (SchedulingPage.tsx).
 */
module Listings {
  import opened Base
  import opened Strings
  import opened Lists
  import opened Types
  import opened Router
  import opened Forms
  import opened SpecialistResults

  // ---------------------------------------------------------------------------
  // Offers
  // ---------------------------------------------------------------------------

  predicate IsVisibleOffer(o: Offer) { o.status == Visible }

  predicate IsFeaturedPlacementOffer(o: Offer) { o.placement == Featured }

  predicate IsFeaturedOffer(o: Offer) { o.placement == Featured && o.status == Visible }

  /** The carousel's offers. */
  function FeaturedOffers(offers: seq<Offer>): (r: seq<Offer>)
    ensures forall o :: o in r <==> o in offers && o.placement == Featured && o.status == Visible
  {
    FilterMembers(offers, IsFeaturedOffer);
    Filter(offers, IsFeaturedOffer)
  }

  /** The "more offers" page: every visible offer, whatever its placement. */
  function VisibleOffers(offers: seq<Offer>): (r: seq<Offer>)
    ensures forall o :: o in r <==> o in offers && o.status == Visible
  {
    FilterMembers(offers, IsVisibleOffer);
    Filter(offers, IsVisibleOffer)
  }

  /** The carousel is the featured part of the "more" page, in the same order. */
  lemma FeaturedOffersWithinVisible(offers: seq<Offer>)
    ensures FeaturedOffers(offers) == Filter(VisibleOffers(offers), IsFeaturedPlacementOffer)
  {
    FilterFilter(offers, IsVisibleOffer, IsFeaturedPlacementOffer, IsFeaturedOffer);
  }

  /** Both offer lists keep the data's order: the offers of a longer list follow those of its prefix. */
  lemma OfferListsKeepOrder(a: seq<Offer>, b: seq<Offer>)
    ensures FeaturedOffers(a + b) == FeaturedOffers(a) + FeaturedOffers(b)
    ensures VisibleOffers(a + b) == VisibleOffers(a) + VisibleOffers(b)
  {
    FilterAppend(a, b, IsFeaturedOffer);
    FilterAppend(a, b, IsVisibleOffer);
  }

  /** The icon table of the offer card. */
  const ICON_NAMES: set<string> := {"HeartIcon", "EyeIcon", "BeakerIcon", "StethoscopeIcon"}

  predicate HasIcon(o: Offer) { o.icon in ICON_NAMES }

  /** The cards the carousel draws: a featured offer with an unknown icon renders nothing. */
  function OfferCards(offers: seq<Offer>): (r: seq<Offer>)
    ensures forall o :: o in r <==> o in FeaturedOffers(offers) && o.icon in ICON_NAMES
  {
    FilterMembers(FeaturedOffers(offers), HasIcon);
    Filter(FeaturedOffers(offers), HasIcon)
  }

  // ---------------------------------------------------------------------------
  // Coupons
  // ---------------------------------------------------------------------------

  predicate IsVisibleCoupon(c: Coupon) { c.status == Visible }

  predicate IsFeaturedPlacementCoupon(c: Coupon) { c.placement == Featured }

  predicate IsFeaturedCoupon(c: Coupon) { c.placement == Featured && c.status == Visible }

  function FeaturedCoupons(coupons: seq<Coupon>): (r: seq<Coupon>)
    ensures forall c :: c in r <==> c in coupons && c.placement == Featured && c.status == Visible
  {
    FilterMembers(coupons, IsFeaturedCoupon);
    Filter(coupons, IsFeaturedCoupon)
  }

  function VisibleCoupons(coupons: seq<Coupon>): (r: seq<Coupon>)
    ensures forall c :: c in r <==> c in coupons && c.status == Visible
  {
    FilterMembers(coupons, IsVisibleCoupon);
    Filter(coupons, IsVisibleCoupon)
  }

  lemma FeaturedCouponsWithinVisible(coupons: seq<Coupon>)
    ensures FeaturedCoupons(coupons) == Filter(VisibleCoupons(coupons), IsFeaturedPlacementCoupon)
  {
    FilterFilter(coupons, IsVisibleCoupon, IsFeaturedPlacementCoupon, IsFeaturedCoupon);
  }

  lemma CouponListsKeepOrder(a: seq<Coupon>, b: seq<Coupon>)
    ensures FeaturedCoupons(a + b) == FeaturedCoupons(a) + FeaturedCoupons(b)
    ensures VisibleCoupons(a + b) == VisibleCoupons(a) + VisibleCoupons(b)
  {
    FilterAppend(a, b, IsFeaturedCoupon);
    FilterAppend(a, b, IsVisibleCoupon);
  }

  const COUPON_LINK_PREFIX := "#/cupon-detalle?id="

  /** The card's target, `#/cupon-detalle?id=${coupon.id}`. */
  function CouponLink(c: Coupon): (link: string)
    ensures StartsWith(link, COUPON_LINK_PREFIX)
    ensures Render(link) == CouponDetail
    ensures ParseInt(link[|COUPON_LINK_PREFIX|..]) == Some(c.id)
  {
    CouponLinkRoutes(c.id);
    ParseIntOfDecimal(c.id);
    assert (COUPON_LINK_PREFIX + IntToDecimal(c.id))[|COUPON_LINK_PREFIX|..] == IntToDecimal(c.id);
    COUPON_LINK_PREFIX + IntToDecimal(c.id)
  }

  /** The brand is drawn as its name for the text-only marker, as a logo image otherwise. */
  predicate BrandAsText(c: Coupon) { c.brandLogoUrl == TEXT_ONLY }

  // ---------------------------------------------------------------------------
  // Associates
  // ---------------------------------------------------------------------------

  predicate IsVisibleAssociate(a: Associate) { a.status == Visible }

  function VisibleAssociates(associates: seq<Associate>): (r: seq<Associate>)
    ensures forall a :: a in r <==> a in associates && a.status == Visible
  {
    FilterMembers(associates, IsVisibleAssociate);
    Filter(associates, IsVisibleAssociate)
  }

  /** `associate.website || '#'`. */
  function AssociateHref(a: Associate): (href: string)
    ensures a.website != "" ==> href == a.website
    ensures a.website == "" ==> href == "#"
  {
    if TruthyString(Some(a.website)) then a.website else "#"
  }

  /** The name is drawn as text unless there is a real logo URL. */
  predicate NameAsText(a: Associate)
  {
    !(a.logoUrl != "" && a.logoUrl != TEXT_ONLY)
  }

  /** An associate saved from the form in text mode is drawn by name; in image mode, by its URL when one was typed. */
  lemma SavedAssociateRendering(d: AssociateDraft, id: int)
    ensures NameAsText(AssociateOf(d, Text, id))
    ensures NameAsText(AssociateOf(d, Image, id)) <==> d.logoUrl == "" || d.logoUrl == TEXT_ONLY
  {
  }

  // ---------------------------------------------------------------------------
  // The results portal
  // ---------------------------------------------------------------------------

  datatype ResultsView = SignIn | Selection | Listing(kind: ReportType)

  function KindTest(kind: ReportType): Report -> bool
  {
    (r: Report) => r.kind == kind
  }

  function ReportDate(r: Report): string { r.date }

  /** `renderReports`: the reports of one type, newest first. */
  function ReportsOf(reports: seq<Report>, kind: ReportType): (r: seq<Report>)
    ensures multiset(r) == multiset(Filter(reports, KindTest(kind)))
    ensures forall x :: x in r <==> x in reports && x.kind == kind
    ensures SortedBy(r, ReportDate, true)
  {
    var chosen := Filter(reports, KindTest(kind));
    FilterMembers(reports, KindTest(kind));
    var sorted := SortBy(chosen, ReportDate, true);
    SameMembers(sorted, chosen);
    sorted
  }

  /** Each report is listed under exactly one of the two types, as often as it occurs. */
  lemma ReportsSplitByKind(reports: seq<Report>, x: Report)
    ensures multiset(ReportsOf(reports, Lab))[x] + multiset(ReportsOf(reports, Imaging))[x] == multiset(reports)[x]
  {
    FilterMultiset(reports, KindTest(Lab), x);
    FilterMultiset(reports, KindTest(Imaging), x);
  }

  class ResultsPortal {
    var view: ResultsView

    constructor ()
      ensures view == SignIn
    {
      view := SignIn;
    }

    /** `handleLogin`: no credential is checked. */
    method Login()
      modifies this
      ensures view == Selection
    {
      view := Selection;
    }

    method Choose(kind: ReportType)
      modifies this
      ensures view == Listing(kind)
    {
      view := Listing(kind);
    }

    method Back()
      modifies this
      ensures view == Selection
    {
      view := Selection;
    }

    /** What the page shows: the reports of the chosen type, or nothing outside a listing. */
    method Shown(reports: seq<Report>) returns (r: seq<Report>)
      ensures view.Listing? ==> r == ReportsOf(reports, view.kind)
      ensures !view.Listing? ==> r == []
    {
      if view.Listing? {
        r := ReportsOf(reports, view.kind);
      } else {
        r := [];
      }
    }
  }

  // ---------------------------------------------------------------------------
  // The specialist search form
  // ---------------------------------------------------------------------------

  /** One property of the sectors-by-city object. */
  datatype CitySectors = CitySectors(city: string, sectors: seq<string>)

  /** `allSectors` of constants.ts. */
  const ALL_SECTORS: seq<CitySectors> := [
    CitySectors("Guayaquil", ["Norte", "Centro", "Sur", "Ceibos", "Kennedy", "Samborondón"]),
    CitySectors("Quito", ["Norte", "Centro", "Sur", "Cumbayá", "Tumbaco"]),
    CitySectors("Cuenca", ["Centro Histórico", "El Ejido", "Yanuncay"])
  ]

  const PREFERRED_CITY := "Guayaquil"
  const INITIAL_SPECIALTY := "Medicina General"

  /** `getCities()`: the object's keys in order. */
  function Cities(table: seq<CitySectors>): (r: seq<string>)
    ensures |r| == |table|
    ensures forall i :: 0 <= i < |r| ==> r[i] == table[i].city
  {
    if table == [] then [] else [table[0].city] + Cities(table[1..])
  }

  /** `SECTORS_BY_CITY[city] || []`. */
  function SectorsOf(table: seq<CitySectors>, city: string): seq<string>
  {
    if table == [] then []
    else if table[0].city == city then table[0].sectors
    else SectorsOf(table[1..], city)
  }

  /** A city missing from the table has no sectors; a present one has those of its entry. */
  lemma {:induction false} SectorsOfEntry(table: seq<CitySectors>, city: string)
    ensures city !in Cities(table) ==> SectorsOf(table, city) == []
    ensures forall i :: (0 <= i < |table| && table[i].city == city
                          && forall j :: 0 <= j < i ==> table[j].city != city)
                         ==> SectorsOf(table, city) == table[i].sectors
    decreases |table|
  {
    if table != [] {
      SectorsOfEntry(table[1..], city);
      assert forall i :: 1 <= i < |table| ==> table[1..][i - 1] == table[i];
      assert Cities(table) == [table[0].city] + Cities(table[1..]);
    }
  }

  /** `CITIES.includes('Guayaquil') ? 'Guayaquil' : CITIES[0] || ''`. */
  function InitialCity(cities: seq<string>): (city: string)
    ensures PREFERRED_CITY in cities ==> city == PREFERRED_CITY
    ensures PREFERRED_CITY !in cities && |cities| > 0 ==> city == cities[0]
    ensures cities == [] ==> city == ""
    ensures city == "" || city in cities
  {
    if PREFERRED_CITY in cities then PREFERRED_CITY
    else if |cities| > 0 then cities[0]
    else ""
  }

  lemma SeedInitialCity()
    ensures InitialCity(Cities(ALL_SECTORS)) == PREFERRED_CITY
    ensures SectorsOf(ALL_SECTORS, PREFERRED_CITY) == ALL_SECTORS[0].sectors
  {
    assert Cities(ALL_SECTORS)[0] == PREFERRED_CITY;
  }

  class SchedulingForm {
    const table: seq<CitySectors>
    var city: string
    var sector: string
    var specialty: string
    var availableSectors: seq<string>

    /** The sectors on offer are those of the chosen city, and the chosen sector is one of them or "all". */
    predicate Valid()
      reads this
    {
      availableSectors == SectorsOf(table, city) && (sector == "" || sector in availableSectors)
    }

    /** The sector select is disabled for a city without sectors. */
    predicate SectorEnabled()
      reads this
    {
      |availableSectors| > 0
    }

    constructor (sectorsByCity: seq<CitySectors>)
      ensures table == sectorsByCity && Valid()
      ensures city == InitialCity(Cities(sectorsByCity)) && sector == "" && specialty == INITIAL_SPECIALTY
    {
      table := sectorsByCity;
      city := InitialCity(Cities(sectorsByCity));
      sector := "";
      specialty := INITIAL_SPECIALTY;
      availableSectors := SectorsOf(sectorsByCity, InitialCity(Cities(sectorsByCity)));
    }

    /** A new city, and the effect that follows it: its sectors are listed and the sector resets. */
    method SelectCity(c: string)
      modifies this
      ensures Valid() && city == c && sector == "" && specialty == old(specialty)
    {
      city := c;
      availableSectors := SectorsOf(table, c);
      sector := "";
    }

    /** The sector select offers "all" and the city's sectors. */
    method SelectSector(s: string)
      requires Valid() && SectorEnabled() && (s == "" || s in availableSectors)
      modifies this
      ensures Valid() && sector == s && city == old(city) && specialty == old(specialty)
    {
      sector := s;
    }

    method SelectSpecialty(s: string)
      requires Valid()
      modifies this
      ensures Valid() && specialty == s && city == old(city) && sector == old(sector)
    {
      specialty := s;
    }

    /** `handleSearch`: the query the results page reads back. */
    method Search() returns (params: SearchParams)
      requires Valid()
      ensures params == SearchParams(city, sector, specialty)
      ensures params.sector == "" || params.sector in SectorsOf(table, params.city)
    {
      params := SearchParams(city, sector, specialty);
    }
  }
}
