/**
 * The hash router: the current path taken from the location hash, and the page each path
 * renders, with or without the shared layout.
 */
module Routes {
  import opened Text

  /** `window.location.hash.slice(1) || '/'`: the hash without its `#`, or the root when that is empty. */
  function CurrentPath(hash: string): (p: string)
    ensures p != ""
    ensures |hash| >= 2 ==> p == hash[1..]
    ensures |hash| <= 1 ==> p == "/"
  {
    var rest := if |hash| == 0 then "" else hash[1..];
    if rest == "" then "/" else rest
  }

  /** The views the router can select; `MenuDetail` carries the item id taken from the path. */
  datatype Page =
    | Login | Register
    | Home | Menu | MenuDetail(itemId: string) | Cart | Checkout | Reservation | About | Orders
    | StaffOrders | StaffReservations
    | AdminDashboard | AdminMenu | AdminUsers
    | NotFound

  /** A rendered route: the page, and whether it sits inside the shared layout. */
  datatype Rendered = Rendered(page: Page, withLayout: bool)

  const MenuPrefix: string := "/menu/"

  /** The paths matched exactly. */
  const ExactPaths: set<string> := {
    "/login", "/register", "/", "/menu", "/cart", "/checkout", "/reservation", "/about", "/orders",
    "/staff/orders", "/staff/reservations", "/admin/dashboard", "/admin/menu", "/admin/users"
  }

  /**
   * `path.split('/menu/')[1]` on a path that starts with `/menu/`: what follows the prefix, up
   * to the next `/menu/` if there is one.
   */
  function MenuItemId(path: string): (id: string)
    requires StartsWith(path, MenuPrefix)
    ensures var rest := path[|MenuPrefix|..];
      && (FindSub(rest, MenuPrefix).None? ==> id == rest)
      && (FindSub(rest, MenuPrefix).Some? ==> id == rest[..FindSub(rest, MenuPrefix).value])
  {
    assert OccursAt(path, MenuPrefix, 0);
    var parts := Split(path, MenuPrefix);
    var rest := path[|MenuPrefix|..];
    assert parts == [path[..0]] + Split(rest, MenuPrefix);
    if FindSub(rest, MenuPrefix).None? then
      assert Join(Split(rest, MenuPrefix), MenuPrefix) == Split(rest, MenuPrefix)[0];
      parts[1]
    else
      parts[1]
  }

  /** `renderPage`: the exact paths in the order they are tested, then the `/menu/` prefix, then 404. */
  function RenderPage(path: string): (v: Rendered)
    ensures v.withLayout <==> path != "/login" && path != "/register"
    ensures v.page.MenuDetail? <==> path !in ExactPaths && StartsWith(path, MenuPrefix)
    ensures v.page.MenuDetail? ==> v.page.itemId == MenuItemId(path)
    ensures v.page.NotFound? <==> path !in ExactPaths && !StartsWith(path, MenuPrefix)
  {
    if path == "/login" then Rendered(Login, false)
    else if path == "/register" then Rendered(Register, false)
    else if path == "/" then Rendered(Home, true)
    else if path == "/menu" then Rendered(Menu, true)
    else if StartsWith(path, MenuPrefix) then
      PrefixedNotExact(path);
      Rendered(MenuDetail(MenuItemId(path)), true)
    else if path == "/cart" then Rendered(Cart, true)
    else if path == "/checkout" then Rendered(Checkout, true)
    else if path == "/reservation" then Rendered(Reservation, true)
    else if path == "/about" then Rendered(About, true)
    else if path == "/orders" then Rendered(Orders, true)
    else if path == "/staff/orders" then Rendered(StaffOrders, true)
    else if path == "/staff/reservations" then Rendered(StaffReservations, true)
    else if path == "/admin/dashboard" then Rendered(AdminDashboard, true)
    else if path == "/admin/menu" then Rendered(AdminMenu, true)
    else if path == "/admin/users" then Rendered(AdminUsers, true)
    else Rendered(NotFound, true)
  }

  /** No exactly matched path starts with `/menu/`, so the prefix test never shadows one. */
  lemma PrefixedNotExact(path: string)
    requires StartsWith(path, MenuPrefix)
    ensures path !in ExactPaths
  {
    assert path[..|MenuPrefix|] == MenuPrefix;
    assert |path| >= 6 && path[1] == 'm' && path[5] == '/';
  }

  /** The path that leads to a page: its exact path, or the prefix followed by the item id. */
  function PathOf(p: Page): (path: string)
    requires !p.NotFound?
    ensures !p.MenuDetail? ==> path in ExactPaths
    ensures p.MenuDetail? ==> StartsWith(path, MenuPrefix) && path[|MenuPrefix|..] == p.itemId
  {
    match p
    case Login => "/login"
    case Register => "/register"
    case Home => "/"
    case Menu => "/menu"
    case MenuDetail(id) => MenuPrefix + id
    case Cart => "/cart"
    case Checkout => "/checkout"
    case Reservation => "/reservation"
    case About => "/about"
    case Orders => "/orders"
    case StaffOrders => "/staff/orders"
    case StaffReservations => "/staff/reservations"
    case AdminDashboard => "/admin/dashboard"
    case AdminMenu => "/admin/menu"
    case AdminUsers => "/admin/users"
  }

  /** Every page other than 404 is reached from its own path (a detail id must not contain `/menu/`). */
  lemma RenderPathOf(p: Page)
    requires !p.NotFound?
    requires p.MenuDetail? ==> !Includes(p.itemId, MenuPrefix)
    ensures RenderPage(PathOf(p)).page == p
  {
    if p.MenuDetail? {
      var path := PathOf(p);
      assert path[..|MenuPrefix|] == MenuPrefix;
      assert path[|MenuPrefix|..] == p.itemId;
      PrefixedNotExact(path);
      IncludesIffOccurs(p.itemId, MenuPrefix);
    }
  }

  /** An exact page is reached only from its own path: the dispatch tells the listed paths apart. */
  lemma RenderExactOnly(path: string, p: Page)
    requires !p.NotFound? && !p.MenuDetail?
    requires RenderPage(path).page == p
    ensures path == PathOf(p)
  {
  }

  /** `/menu` is matched exactly and never reaches the detail view; `/menu/7` and `/menu/` do. */
  lemma MenuPaths()
    ensures RenderPage("/menu").page == Menu
    ensures RenderPage("/menu/7").page == MenuDetail("7")
    ensures RenderPage("/menu/").page == MenuDetail("")
  {
    assert StartsWith("/menu/7", MenuPrefix);
    assert FindSub("7", MenuPrefix).None?;
    assert StartsWith("/menu/", MenuPrefix);
    assert FindSub("", MenuPrefix).None?;
  }

  /** An empty hash, or a bare `#`, shows the home page inside the layout. */
  lemma EmptyHashIsHome(hash: string)
    requires |hash| <= 1
    ensures RenderPage(CurrentPath(hash)) == Rendered(Home, true)
  {
  }
}
