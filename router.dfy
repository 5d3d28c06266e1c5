/**
 * The hash router of App.tsx: the part of `window.location.hash` before the first `?`
 * selects the page, and only page-level routes (starting with `#/`) scroll to the top.
 */
module Router {
  import opened Strings

  datatype Page =
    | Home | Scheduling | SpecialistSearch | Results | Configuration | ScheduleConfig
    | MoreOffers | MoreCoupons | CouponDetail | Admin | CouponVerifier | RClinicSoftware
    | Referral | ReferralDashboard | MedicalAgenda

  /** `route.split('?')[0]`. */
  function PathOf(route: string): (p: string)
    ensures '?' !in p && StartsWith(route, p)
  {
    BeforeFirst(route, '?')
  }

  /** The hash path of every page except the home page, which is the fallback. */
  function PathFor(page: Page): string
  {
    match page
    case Home => ""
    case Scheduling => "#/agendamiento"
    case SpecialistSearch => "#/busqueda-especialistas"
    case Results => "#/resultados"
    case Configuration => "#/configuracion"
    case ScheduleConfig => "#/configuracion-horarios"
    case MoreOffers => "#/mas-ofertas"
    case MoreCoupons => "#/mas-cupones"
    case CouponDetail => "#/cupon-detalle"
    case Admin => "#/admin"
    case CouponVerifier => "#/verificador-cupones"
    case RClinicSoftware => "#/rclinic-software"
    case Referral => "#/referidos"
    case ReferralDashboard => "#/portal-referidos"
    case MedicalAgenda => "#/agenda-medica"
  }

  /** The `switch (path)` of the app: fourteen literal paths, everything else is the home page. */
  function Dispatch(path: string): (page: Page)
    ensures page != Home ==> path == PathFor(page)
  {
    match path
    case "#/agendamiento" => Scheduling
    case "#/busqueda-especialistas" => SpecialistSearch
    case "#/resultados" => Results
    case "#/configuracion" => Configuration
    case "#/configuracion-horarios" => ScheduleConfig
    case "#/mas-ofertas" => MoreOffers
    case "#/mas-cupones" => MoreCoupons
    case "#/cupon-detalle" => CouponDetail
    case "#/admin" => Admin
    case "#/verificador-cupones" => CouponVerifier
    case "#/rclinic-software" => RClinicSoftware
    case "#/referidos" => Referral
    case "#/portal-referidos" => ReferralDashboard
    case "#/agenda-medica" => MedicalAgenda
    case _ => Home
  }

  /** The page rendered for a full hash. */
  function Render(route: string): Page
  {
    Dispatch(PathOf(route))
  }

  /** Whether the navigation effect scrolls the window to the top. */
  predicate ScrollsToTop(route: string)
  {
    StartsWith(PathOf(route), "#/")
  }

  /** Every page's path leads to it, and it is the only path that does. */
  lemma DispatchExact(page: Page, path: string)
    requires page != Home
    ensures Dispatch(PathFor(page)) == page
    ensures Dispatch(path) == page <==> path == PathFor(page)
  {
  }

  /** A query string never changes the page: only the path before `?` is looked at. */
  lemma QueryIgnored(path: string, query: string)
    requires '?' !in path
    ensures PathOf(path + "?" + query) == path
    ensures Render(path + "?" + query) == Render(path) == Dispatch(path)
  {
    BeforeFirstAppend(path, '?', query);
    BeforeFirstAbsent(path, '?');
  }

  /** Every route of a page scrolls to the top; in-page anchors such as `#nosotros` do not. */
  lemma ScrollIffPageRoute(route: string)
    ensures ScrollsToTop(route) <==> StartsWith(route, "#/")
  {
  }

  /** A page's path followed by any query opens that page. */
  lemma PageLinkRoutes(page: Page, query: string)
    requires page != Home
    ensures Render(PathFor(page) + "?" + query) == page
  {
    var path := PathFor(page);
    DispatchExact(page, path);
    assert '?' !in path;
    QueryIgnored(path, query);
  }

  /** The detail links of the offer and coupon cards open the coupon detail page. */
  lemma CouponLinkRoutes(id: int)
    ensures Render("#/cupon-detalle?id=" + IntToDecimal(id)) == CouponDetail
  {
    var query := "id=" + IntToDecimal(id);
    PageLinkRoutes(CouponDetail, query);
    assert "#/cupon-detalle?id=" + IntToDecimal(id) == PathFor(CouponDetail) + "?" + query;
  }

  /** The search form's navigation opens the specialist results page, whatever the query. */
  lemma SearchLinkRoutes(query: string)
    ensures Render("#/busqueda-especialistas?" + query) == SpecialistSearch
  {
    PageLinkRoutes(SpecialistSearch, query);
    assert "#/busqueda-especialistas?" + query == PathFor(SpecialistSearch) + "?" + query;
  }
}
