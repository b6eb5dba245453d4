/** The restaurant routes: creating a restaurant with its normalised categories,
    the country-scoped list and single view, the menu entry operations and the
    deletion of a restaurant. */
module Restaurants {
  import opened Js
  import opened Text
  import opened Schemas
  import opened Api
  import opened Store
  import opened Roles

  // ---------------------------------------------------------------------------
  // Categories (`normalizeCategories`)

  /** The `categories` field of a request: missing or falsy, an array of strings,
      or one comma-separated string. */
  datatype CategoryInput = NoCategories | CategoryList(values: seq<string>) | CategoryText(text: string)

  predicate IsCategory(c: string) {
    c != "" && IsTrimmed(c)
  }

  /** `.map(s => s.trim()).filter(Boolean)`: trimmed entries, empty ones dropped,
      in their original order. */
  function TrimAll(xs: seq<string>): (r: seq<string>)
    ensures |r| <= |xs|
    ensures forall i :: 0 <= i < |r| ==> IsCategory(r[i])
    ensures |xs| == 1 ==> r == (if Trim(xs[0]) == "" then [] else [Trim(xs[0])])
  {
    if xs == [] then []
    else
      var t := Trim(xs[0]);
      (if t == "" then [] else [t]) + TrimAll(xs[1..])
  }

  /** Entries are cleaned one by one: the result for a concatenation is the
      concatenation of the results, so order is kept. */
  lemma {:induction false} TrimAllAppend(a: seq<string>, b: seq<string>)
    ensures TrimAll(a + b) == TrimAll(a) + TrimAll(b)
  {
    if a != [] {
      var ab := a + b;
      var head := if Trim(a[0]) == "" then [] else [Trim(a[0])];
      assert ab[0] == a[0] && ab[1..] == a[1..] + b;
      assert TrimAll(ab) == head + TrimAll(a[1..] + b);
      assert TrimAll(a) == head + TrimAll(a[1..]);
      TrimAllAppend(a[1..], b);
    } else {
      assert a + b == b;
    }
  }

  /** Entries that are already trimmed and non-empty pass through unchanged. */
  lemma {:induction false} TrimAllKeepsCategories(xs: seq<string>)
    requires forall i :: 0 <= i < |xs| ==> IsCategory(xs[i])
    ensures TrimAll(xs) == xs
  {
    if xs != [] {
      var t := Trim(xs[0]);
      TrimFixesTrimmed(xs[0]);
      assert t == xs[0] && t != "";
      TrimAllKeepsCategories(xs[1..]);
      assert TrimAll(xs) == [t] + TrimAll(xs[1..]);
      assert [xs[0]] + xs[1..] == xs;
    }
  }

  /** The category list stored with a restaurant: no entry is empty or has white
      space at either end. */
  function NormalizeCategories(v: CategoryInput): (r: seq<string>)
    ensures forall i :: 0 <= i < |r| ==> IsCategory(r[i])
    ensures v.CategoryList? ==> |r| <= |v.values|
    ensures v.NoCategories? ==> r == []
    ensures v.CategoryList? ==> r == TrimAll(v.values)
    ensures v.CategoryText? ==> r == TrimAll(Split(v.text, ','))
  {
    match v
    case NoCategories => []
    case CategoryList(xs) => TrimAll(xs)
    case CategoryText(t) => if t == "" then [] else TrimAll(Split(t, ','))
  }

  /** Normalising a normalised list changes nothing. */
  lemma NormalizeCategoriesIdempotent(v: CategoryInput)
    ensures NormalizeCategories(CategoryList(NormalizeCategories(v))) == NormalizeCategories(v)
  {
    TrimAllKeepsCategories(NormalizeCategories(v));
  }

  /** A comma-separated string and the list of its pieces normalise alike. */
  lemma TextAndListAgree(pieces: seq<string>)
    requires |pieces| >= 1 && forall i :: 0 <= i < |pieces| ==> ',' !in pieces[i]
    ensures NormalizeCategories(CategoryText(Join(pieces, ','))) == NormalizeCategories(CategoryList(pieces))
  {
    var t := Join(pieces, ',');
    SplitJoin(pieces, ',');
    if t == "" {
      assert Split(t, ',') == [""];
      assert TrimAll([""]) == [] by {
        assert Trim("") == "";
      }
    }
  }

  /** Categories written as "a, b, c" are stored as the list they were joined from. */
  lemma CategoriesTextRoundTrip(cats: seq<string>)
    requires |cats| >= 1
    requires forall i :: 0 <= i < |cats| ==> IsCategory(cats[i]) && ',' !in cats[i]
    ensures NormalizeCategories(CategoryText(Join(cats, ','))) == cats
  {
    TextAndListAgree(cats);
    TrimAllKeepsCategories(cats);
  }

  // ---------------------------------------------------------------------------
  // Create

  datatype CreateRequest = CreateRequest(
    name: Option<string>,
    cuisine: Option<string>,
    city: Option<string>,
    country: Option<string>,
    coverImage: Option<string>,
    categories: CategoryInput)

  datatype Created = Created(id: string, restaurant: Restaurant)

  /** `POST /restaurants`, ADMIN only: a name and a country are required, and the
      country must be one the schema accepts (a rejected document is a 500). The
      new restaurant has an empty menu and normalised categories; `newId` is the
      id the store assigns. */
  function CreateSpec(s: DbState, actor: Actor, req: CreateRequest, newId: ObjectIdText)
    : (r: (Reply<Created>, DbState))
    ensures r.0.Err? ==> r.1 == s
    ensures actor.role != ADMIN ==> r.0 == Err(403, "Forbidden")
    ensures actor.role == ADMIN && (!Truthy(req.name) || !Truthy(req.country)) ==>
              r.0 == Err(400, "name & country required")
    ensures actor.role == ADMIN && Truthy(req.name) && Truthy(req.country)
            && (ParseCountry(req.country.value).None? || newId in s.restaurants) ==>
              r.0 == Err(500, "Create restaurant failed")
    ensures r.0.Ok? <==> && actor.role == ADMIN && Truthy(req.name) && Truthy(req.country)
                         && ParseCountry(req.country.value).Some? && newId !in s.restaurants
    ensures r.0.Ok? ==>
      && r.0.body.restaurant.cuisine == req.cuisine && r.0.body.restaurant.city == req.city
      && r.0.body.restaurant.coverImage == req.coverImage
    ensures r.0.Ok? ==>
      && actor.role == ADMIN && Truthy(req.name) && req.country.Some?
      && r.0.body.id == newId && newId !in s.restaurants
      && r.1 == s.(restaurants := s.restaurants[newId := r.0.body.restaurant])
      && r.0.body.restaurant.menu == [] && r.0.body.restaurant.name == req.name.value
      && r.0.body.restaurant.country.Some?
      && CountryName(r.0.body.restaurant.country.value) == req.country.value
      && r.0.body.restaurant.categories == NormalizeCategories(req.categories)
  {
    RequireAdminOnlyAdmin(actor.role);
    if RequireRole(Some(RoleName(actor.role)), ["ADMIN"]).Err? then (Err(403, "Forbidden"), s)
    else if !Truthy(req.name) || !Truthy(req.country) then (Err(400, "name & country required"), s)
    else match ParseCountry(req.country.value)
    case None => (Err(500, "Create restaurant failed"), s)
    case Some(c) =>
      if newId in s.restaurants then (Err(500, "Create restaurant failed"), s)
      else
        var doc := RestaurantDefaults(req.name.value).(
          cuisine := req.cuisine, city := req.city, country := Some(c), coverImage := req.coverImage,
          menu := [], categories := NormalizeCategories(req.categories));
        (Ok(Created(newId, doc)), s.(restaurants := s.restaurants[newId := doc]))
  }

  // ---------------------------------------------------------------------------
  // List and single view

  /** A menu entry as the read routes show it. `image` is present only in the
      single view. */
  datatype MenuView = MenuView(id: string, name: Option<string>, description: string, price: real, image: Option<string>)

  datatype RestaurantView = RestaurantView(
    id: string,
    name: string,
    cuisine: string,
    city: string,
    country: string,
    coverImage: string,
    categories: seq<string>,
    menu: seq<MenuView>)

  /** The id shown for the entry at position `idx`: its own id when it has one,
      otherwise "<restaurant id>-<idx>". */
  function ShownItemId(rid: string, idx: nat, m: MenuItem): (r: string)
    ensures Truthy(m.id) ==> r == m.id.value
    ensures !Truthy(m.id) ==> r == rid + "-" + DecimalString(idx)
  {
    if Truthy(m.id) then m.id.value else rid + "-" + DecimalString(idx)
  }

  /** Two entries without ids at different positions are shown with different ids. */
  lemma ShownDefaultIdsDistinct(rid: string, i: nat, j: nat, a: MenuItem, b: MenuItem)
    requires !Truthy(a.id) && !Truthy(b.id) && i != j
    ensures ShownItemId(rid, i, a) != ShownItemId(rid, j, b)
  {
    var p := rid + "-";
    if ShownItemId(rid, i, a) == ShownItemId(rid, j, b) {
      assert (p + DecimalString(i))[|p|..] == DecimalString(i);
      assert (p + DecimalString(j))[|p|..] == DecimalString(j);
      DecimalStringInjective(i, j);
    }
  }

  function MenuItemView(rid: string, idx: nat, m: MenuItem, withImage: bool): (v: MenuView)
    ensures v.id == ShownItemId(rid, idx, m) && v.name == m.name
    ensures v.price == if m.price.Some? then m.price.value else 0.0
    ensures v.description == OrElse(m.description, "")
    ensures withImage <==> v.image.Some?
    ensures withImage ==> v.image.value == OrElse(m.image, "")
  {
    MenuView(
      ShownItemId(rid, idx, m), m.name, OrElse(m.description, ""),
      if m.price.Some? then m.price.value else 0.0,
      if withImage then Some(OrElse(m.image, "")) else None)
  }

  /** The projection of a stored restaurant the read routes return: absent text
      fields become "", the menu keeps its order and length. */
  function View(id: string, r: Restaurant, withImage: bool): (v: RestaurantView)
    ensures v.id == id && v.name == r.name && v.categories == r.categories
    ensures v.country == if r.country.Some? then CountryName(r.country.value) else ""
    ensures v.cuisine == OrElse(r.cuisine, "") && v.city == OrElse(r.city, "")
    ensures v.coverImage == OrElse(r.coverImage, "")
    ensures |v.menu| == |r.menu|
    ensures forall i :: 0 <= i < |r.menu| ==> v.menu[i] == MenuItemView(id, i, r.menu[i], withImage)
  {
    RestaurantView(
      id, r.name, OrElse(r.cuisine, ""), OrElse(r.city, ""),
      if r.country.Some? then CountryName(r.country.value) else "",
      OrElse(r.coverImage, ""), r.categories,
      seq(|r.menu|, i requires 0 <= i < |r.menu| => MenuItemView(id, i, r.menu[i], withImage)))
  }

  /** Whether `actor` may see restaurant `r`: an ADMIN sees all, anyone else only
      the restaurants of their own country. */
  predicate Visible(actor: Actor, r: Restaurant) {
    actor.role == ADMIN || r.country == Some(actor.country)
  }

  /** `GET /restaurants`. */
  function ListRestaurants(s: DbState, actor: Actor): (r: map<string, RestaurantView>)
    ensures actor.role == ADMIN ==> r.Keys == s.restaurants.Keys
    ensures actor.role != ADMIN ==>
      forall id :: id in r <==> id in s.restaurants && s.restaurants[id].country == Some(actor.country)
    ensures forall id :: id in r ==> id in s.restaurants && r[id] == View(id, s.restaurants[id], false)
  {
    map id | id in s.restaurants && (actor.role == ADMIN || s.restaurants[id].country == Some(actor.country))
      :: View(id, s.restaurants[id], false)
  }

  /** `GET /restaurants/:id`: a restaurant hidden from the caller is reported as
      not found, exactly like a missing one; an id that is not an ObjectId fails
      the cast. */
  function GetRestaurant(s: DbState, actor: Actor, id: string): (r: Reply<RestaurantView>)
    ensures !IsObjectId(id) ==> r == Err(500, "Failed to fetch restaurant")
    ensures IsObjectId(id) && r.Err? ==> r == Err(404, "Not found")
    ensures r.Ok? <==> IsObjectId(id) && IdKey(id) in s.restaurants && Visible(actor, s.restaurants[IdKey(id)])
    ensures r.Ok? ==> r.body == View(IdKey(id), s.restaurants[IdKey(id)], true)
  {
    match FindById(s.restaurants, id)
    case CastError => Err(500, "Failed to fetch restaurant")
    case Missing => Err(404, "Not found")
    case Found(rest) =>
      if actor.role != ADMIN && rest.country != Some(actor.country) then Err(404, "Not found")
      else Ok(View(IdKey(id), rest, true))
  }

  /** The single view finds exactly the restaurants the list shows, and shows
      them the same way, plus the images of the menu entries. */
  lemma GetAgreesWithList(s: DbState, actor: Actor, id: string)
    requires IsObjectId(id)
    ensures GetRestaurant(s, actor, id).Ok? <==> IdKey(id) in ListRestaurants(s, actor)
    ensures GetRestaurant(s, actor, id).Ok? ==>
      var one := GetRestaurant(s, actor, id).body;
      var listed := ListRestaurants(s, actor)[IdKey(id)];
      && one.(menu := []) == listed.(menu := [])
      && |one.menu| == |listed.menu|
      && forall i :: 0 <= i < |one.menu| ==> one.menu[i].(image := None) == listed.menu[i]
  {
  }

  // ---------------------------------------------------------------------------
  // Menu entries

  /** The menu fields of a request; `price` is a number or absent. */
  datatype MenuItemRequest = MenuItemRequest(
    itemId: Option<string>,
    name: Option<string>,
    description: Option<string>,
    price: Option<real>,
    image: Option<string>)

  predicate HasItemId(menu: seq<MenuItem>, id: string) {
    exists i :: 0 <= i < |menu| && menu[i].id == Some(id)
  }

  /** No two entries of the menu carry the same id. */
  predicate UniqueItemIds(menu: seq<MenuItem>) {
    forall i, j :: 0 <= i < j < |menu| && menu[i].id.Some? ==> menu[i].id != menu[j].id
  }

  /** `requireRole("ADMIN", "MANAGER", "MEMBER")` on the menu routes; it admits
      every stored user (`RequireAnyRoleAdmitsEveryUser`). */
  predicate MenuRole(actor: Actor) {
    RequireRole(Some(RoleName(actor.role)), ["ADMIN", "MANAGER", "MEMBER"]).Ok?
  }

  /** A restaurant as the non-lean `Restaurant.findById` of the menu routes loads
      it: a document stored without a `country` gets the schema default India,
      which the route's `save` then writes back. Lean reads see no default. */
  function Loaded(r: Restaurant): (h: Restaurant)
    ensures h.country == Some(if r.country.Some? then r.country.value else RestaurantDefaults(r.name).country.value)
    ensures h.(country := r.country) == r
  {
    if r.country.Some? then r else r.(country := Some(India))
  }

  /** The guard shared by the menu routes once the restaurant is loaded: a
      non-admin may only touch restaurants of their own country. */
  function MenuAccess(s: DbState, actor: Actor, rid: string, failure: string): (r: Reply<Restaurant>)
    ensures r.Ok? <==> IsObjectId(rid) && IdKey(rid) in s.restaurants && Visible(actor, Loaded(s.restaurants[IdKey(rid)]))
    ensures r.Ok? ==> r.body == Loaded(s.restaurants[IdKey(rid)])
    ensures !IsObjectId(rid) ==> r == Err(500, failure)
    ensures IsObjectId(rid) && IdKey(rid) !in s.restaurants ==> r == Err(404, "Restaurant not found")
    ensures IsObjectId(rid) && IdKey(rid) in s.restaurants && !Visible(actor, Loaded(s.restaurants[IdKey(rid)])) ==>
              r == Err(403, "Forbidden (cross-country)")
  {
    match FindById(s.restaurants, rid)
    case CastError => Err(500, failure)
    case Missing => Err(404, "Restaurant not found")
    case Found(stored) =>
      var rest := Loaded(stored);
      if actor.role != ADMIN && rest.country != Some(actor.country) then Err(403, "Forbidden (cross-country)")
      else Ok(rest)
  }

  /** A restaurant stored without a country is reached through the menu routes by
      non-admins of India, whom its default admits, and by no one else but ADMIN. */
  lemma MenuAccessUsesDefaultCountry(s: DbState, actor: Actor, rid: string, failure: string)
    requires IsObjectId(rid) && IdKey(rid) in s.restaurants && s.restaurants[IdKey(rid)].country.None?
    ensures MenuAccess(s, actor, rid, failure).Ok? <==> actor.role == ADMIN || actor.country == India
    ensures MenuAccess(s, actor, rid, failure).Ok? ==> MenuAccess(s, actor, rid, failure).body.country == Some(India)
  {
  }

  /** `POST /restaurants/:id/menu`: appends an entry under the requested id, or
      under `freshId` (a new ObjectId) when none is given; an id already on the
      menu is a conflict. */
  function AddMenuItemSpec(s: DbState, actor: Actor, rid: string, req: MenuItemRequest, freshId: ObjectIdText)
    : (r: (Reply<Restaurant>, DbState))
    ensures r.0.Err? ==> r.1 == s
    ensures !MenuRole(actor) ==> r.0 == Err(403, "Forbidden")
    ensures MenuRole(actor) && (!Truthy(req.name) || req.price.None?) ==> r.0 == Err(400, "name, price required")
    ensures MenuRole(actor) && Truthy(req.name) && req.price.Some? && MenuAccess(s, actor, rid, "Add menu item failed").Err? ==>
              r.0 == MenuAccess(s, actor, rid, "Add menu item failed")
    ensures MenuAccess(s, actor, rid, "Add menu item failed").Ok? ==>
      var id := if Truthy(req.itemId) then req.itemId.value else freshId;
      MenuRole(actor) && HasItemId(s.restaurants[IdKey(rid)].menu, id) && Truthy(req.name) && req.price.Some? ==>
        r.0 == Err(409, "Menu item with same id exists")
    ensures r.0.Ok? <==>
      && MenuRole(actor) && Truthy(req.name) && req.price.Some?
      && MenuAccess(s, actor, rid, "Add menu item failed").Ok?
      && !HasItemId(s.restaurants[IdKey(rid)].menu, if Truthy(req.itemId) then req.itemId.value else freshId)
    ensures r.0.Ok? ==> IdKey(rid) in s.restaurants && Visible(actor, Loaded(s.restaurants[IdKey(rid)]))
    ensures r.0.Ok? ==>
      var before := Loaded(s.restaurants[IdKey(rid)]);
      var id := if Truthy(req.itemId) then req.itemId.value else freshId;
      && r.0.body == before.(menu := before.menu + [
           MenuItem(Some(id), req.name, Some(OrElse(req.description, "")), req.price, Some(OrElse(req.image, "")))])
      && r.1 == s.(restaurants := s.restaurants[IdKey(rid) := r.0.body])
  {
    if !MenuRole(actor) then (Err(403, "Forbidden"), s)
    else if !Truthy(req.name) || req.price.None? then (Err(400, "name, price required"), s)
    else match MenuAccess(s, actor, rid, "Add menu item failed")
    case Err(code, msg) => (Err(code, msg), s)
    case Ok(rest) =>
      var id := if Truthy(req.itemId) then req.itemId.value else freshId;
      if HasItemId(rest.menu, id) then (Err(409, "Menu item with same id exists"), s)
      else
        var item := MenuItem(Some(id), req.name, Some(OrElse(req.description, "")), req.price, Some(OrElse(req.image, "")));
        var rest' := rest.(menu := rest.menu + [item]);
        (Ok(rest'), s.(restaurants := s.restaurants[IdKey(rid) := rest']))
  }

  /** Adding entries keeps the ids on a menu unique. */
  lemma AddMenuItemKeepsIdsUnique(s: DbState, actor: Actor, rid: string, req: MenuItemRequest, freshId: ObjectIdText)
    requires IdKey(rid) in s.restaurants && UniqueItemIds(s.restaurants[IdKey(rid)].menu)
    ensures var r := AddMenuItemSpec(s, actor, rid, req, freshId);
      IdKey(rid) in r.1.restaurants && UniqueItemIds(r.1.restaurants[IdKey(rid)].menu)
  {
    var r := AddMenuItemSpec(s, actor, rid, req, freshId);
    if r.0.Ok? {
      var menu := s.restaurants[IdKey(rid)].menu;
      var menu' := r.1.restaurants[IdKey(rid)].menu;
      forall i, j | 0 <= i < j < |menu'| && menu'[i].id.Some? ensures menu'[i].id != menu'[j].id {
        if j == |menu| {
          assert menu'[i] == menu[i];
        } else {
          assert menu'[i] == menu[i] && menu'[j] == menu[j];
        }
      }
    }
  }

  /** The lookup key of the update and delete routes matches an entry's id or name. */
  predicate MatchesKey(m: MenuItem, key: string) {
    m.id == Some(key) || m.name == Some(key)
  }

  /** `menu.find(...)`: the position of the first entry the key matches. */
  function FirstMatch(menu: seq<MenuItem>, key: string): (r: Option<nat>)
    ensures r.Some? ==>
      && r.value < |menu| && MatchesKey(menu[r.value], key)
      && forall j :: 0 <= j < r.value ==> !MatchesKey(menu[j], key)
    ensures r.None? ==> forall j :: 0 <= j < |menu| ==> !MatchesKey(menu[j], key)
  {
    if menu == [] then None
    else if MatchesKey(menu[0], key) then Some(0)
    else
      var rest := FirstMatch(menu[1..], key);
      if rest.Some? then Some(rest.value + 1) else None
  }

  /** The fields of an update; an absent field is left as it is. */
  datatype MenuPatch = MenuPatch(name: Option<string>, description: Option<string>, price: Option<real>, image: Option<string>)

  function Patch(m: MenuItem, p: MenuPatch): (r: MenuItem)
    ensures r.id == m.id
    ensures r.name == (if p.name.Some? then p.name else m.name)
    ensures r.description == (if p.description.Some? then p.description else m.description)
    ensures r.price == (if p.price.Some? then p.price else m.price)
    ensures r.image == (if p.image.Some? then p.image else m.image)
  {
    MenuItem(
      m.id,
      if p.name.Some? then p.name else m.name,
      if p.description.Some? then p.description else m.description,
      if p.price.Some? then p.price else m.price,
      if p.image.Some? then p.image else m.image)
  }

  /** An empty patch changes nothing; patching twice with the same fields is the
      same as patching once. */
  lemma PatchLaws(m: MenuItem, p: MenuPatch)
    ensures Patch(m, MenuPatch(None, None, None, None)) == m
    ensures Patch(Patch(m, p), p) == Patch(m, p)
  {
  }

  /** `PUT /restaurants/:id/menu/:itemId`: patches the first entry whose id or name
      is the key; every other entry stays as it was. */
  function UpdateMenuItemSpec(s: DbState, actor: Actor, rid: string, key: string, patch: MenuPatch)
    : (r: (Reply<Restaurant>, DbState))
    ensures r.0.Err? ==> r.1 == s
    ensures !MenuRole(actor) ==> r.0 == Err(403, "Forbidden")
    ensures MenuRole(actor) && MenuAccess(s, actor, rid, "Update menu item failed").Err? ==>
              r.0 == MenuAccess(s, actor, rid, "Update menu item failed")
    ensures MenuRole(actor) && MenuAccess(s, actor, rid, "Update menu item failed").Ok? ==>
              FirstMatch(s.restaurants[IdKey(rid)].menu, key).None? ==> r.0 == Err(404, "Menu item not found")
    ensures r.0.Ok? <==> && MenuRole(actor) && MenuAccess(s, actor, rid, "Update menu item failed").Ok?
                         && FirstMatch(s.restaurants[IdKey(rid)].menu, key).Some?
    ensures r.0.Ok? ==>
      var before := Loaded(s.restaurants[IdKey(rid)]);
      var i := FirstMatch(before.menu, key).value;
      && r.0.body == before.(menu := before.menu[i := Patch(before.menu[i], patch)])
      && r.1 == s.(restaurants := s.restaurants[IdKey(rid) := r.0.body])
  {
    if !MenuRole(actor) then (Err(403, "Forbidden"), s)
    else match MenuAccess(s, actor, rid, "Update menu item failed")
    case Err(code, msg) => (Err(code, msg), s)
    case Ok(rest) =>
      match FirstMatch(rest.menu, key)
      case None => (Err(404, "Menu item not found"), s)
      case Some(i) =>
        var rest' := rest.(menu := rest.menu[i := Patch(rest.menu[i], patch)]);
        (Ok(rest'), s.(restaurants := s.restaurants[IdKey(rid) := rest']))
  }

  /** `menu.filter(m => !(m.id === key || m.name === key))`. */
  function WithoutKey(menu: seq<MenuItem>, key: string): (r: seq<MenuItem>)
    ensures |r| <= |menu|
    ensures forall i :: 0 <= i < |r| ==> !MatchesKey(r[i], key) && r[i] in menu
    ensures forall i :: 0 <= i < |menu| && !MatchesKey(menu[i], key) ==> menu[i] in r
    ensures |menu| == 1 ==> r == (if MatchesKey(menu[0], key) then [] else menu)
  {
    if menu == [] then []
    else (if MatchesKey(menu[0], key) then [] else [menu[0]]) + WithoutKey(menu[1..], key)
  }

  /** The filter works entry by entry, so the entries it keeps stay in order. */
  lemma {:induction false} WithoutKeyAppend(a: seq<MenuItem>, b: seq<MenuItem>, key: string)
    ensures WithoutKey(a + b, key) == WithoutKey(a, key) + WithoutKey(b, key)
  {
    if a != [] {
      assert (a + b)[1..] == a[1..] + b;
      WithoutKeyAppend(a[1..], b, key);
    } else {
      assert a + b == b;
    }
  }

  /** Removing by a key twice removes nothing more. */
  lemma {:induction false} WithoutKeyIdempotent(menu: seq<MenuItem>, key: string)
    ensures WithoutKey(WithoutKey(menu, key), key) == WithoutKey(menu, key)
  {
    KeepsKeyless(WithoutKey(menu, key), key);
  }

  lemma {:induction false} KeepsKeyless(menu: seq<MenuItem>, key: string)
    requires forall i :: 0 <= i < |menu| ==> !MatchesKey(menu[i], key)
    ensures WithoutKey(menu, key) == menu
  {
    if menu != [] {
      KeepsKeyless(menu[1..], key);
    }
  }

  /** `DELETE /restaurants/:id/menu/:itemId`: drops every entry whose id or name is
      the key; a key that matches nothing still succeeds. */
  function DeleteMenuItemSpec(s: DbState, actor: Actor, rid: string, key: string)
    : (r: (Reply<Restaurant>, DbState))
    ensures r.0.Err? ==> r.1 == s
    ensures !MenuRole(actor) ==> r.0 == Err(403, "Forbidden")
    ensures r.0.Ok? <==> MenuRole(actor) && MenuAccess(s, actor, rid, "Delete menu item failed").Ok?
    ensures MenuRole(actor) && r.0.Err? ==> r.0 == MenuAccess(s, actor, rid, "Delete menu item failed")
    ensures r.0.Ok? ==> IdKey(rid) in s.restaurants && Visible(actor, Loaded(s.restaurants[IdKey(rid)]))
    ensures r.0.Ok? ==>
      var before := Loaded(s.restaurants[IdKey(rid)]);
      && r.0.body == before.(menu := WithoutKey(before.menu, key))
      && r.1 == s.(restaurants := s.restaurants[IdKey(rid) := r.0.body])
  {
    if !MenuRole(actor) then (Err(403, "Forbidden"), s)
    else match MenuAccess(s, actor, rid, "Delete menu item failed")
    case Err(code, msg) => (Err(code, msg), s)
    case Ok(rest) =>
      var rest' := rest.(menu := WithoutKey(rest.menu, key));
      (Ok(rest'), s.(restaurants := s.restaurants[IdKey(rid) := rest']))
  }

  /** After a delete no entry matches the key, so updating by it is not found. */
  lemma DeleteThenUpdateNotFound(s: DbState, actor: Actor, rid: string, key: string, patch: MenuPatch)
    requires DeleteMenuItemSpec(s, actor, rid, key).0.Ok?
    ensures var s' := DeleteMenuItemSpec(s, actor, rid, key).1;
      UpdateMenuItemSpec(s', actor, rid, key, patch) == (Err(404, "Menu item not found"), s')
  {
    RequireAnyRoleAdmitsEveryUser(actor.role);
  }

  // ---------------------------------------------------------------------------
  // Delete restaurant

  /** `DELETE /restaurants/:id`, ADMIN only. Orders that name the restaurant are
      left as they are. */
  function DeleteRestaurantSpec(s: DbState, actor: Actor, id: string): (r: (Reply<()>, DbState))
    ensures r.0.Err? ==> r.1 == s
    ensures actor.role != ADMIN ==> r.0 == Err(403, "Forbidden")
    ensures actor.role == ADMIN && !IsObjectId(id) ==> r.0 == Err(500, "Delete failed")
    ensures actor.role == ADMIN && IsObjectId(id) && IdKey(id) !in s.restaurants ==>
              r.0 == Err(404, "Restaurant not found")
    ensures r.0.Ok? <==> actor.role == ADMIN && IsObjectId(id) && IdKey(id) in s.restaurants
    ensures r.0.Ok? ==> r.1 == s.(restaurants := s.restaurants - {IdKey(id)})
  {
    RequireAdminOnlyAdmin(actor.role);
    if RequireRole(Some(RoleName(actor.role)), ["ADMIN"]).Err? then (Err(403, "Forbidden"), s)
    else match FindById(s.restaurants, id)
    case CastError => (Err(500, "Delete failed"), s)
    case Missing => (Err(404, "Restaurant not found"), s)
    case Found(_) => (Ok(()), s.(restaurants := s.restaurants - {IdKey(id)}))
  }

  /** A deleted restaurant is gone from every later view. */
  lemma DeletedRestaurantNotFound(s: DbState, admin: Actor, viewer: Actor, id: string)
    requires DeleteRestaurantSpec(s, admin, id).0.Ok?
    ensures var s' := DeleteRestaurantSpec(s, admin, id).1;
      GetRestaurant(s', viewer, id) == Err(404, "Not found") && IdKey(id) !in ListRestaurants(s', viewer)
  {
  }

  // ---------------------------------------------------------------------------
  // The handlers on the shared store

  method Create(db: Db, actor: Actor, req: CreateRequest, newId: ObjectIdText) returns (reply: Reply<Created>)
    modifies db
    ensures (reply, db.State()) == CreateSpec(old(db.State()), actor, req, newId)
    ensures old(db.Valid()) ==> db.Valid()
  {
    if RequireRole(Some(RoleName(actor.role)), ["ADMIN"]).Err? {
      return Err(403, "Forbidden");
    }
    if !Truthy(req.name) || !Truthy(req.country) {
      return Err(400, "name & country required");
    }
    var c := ParseCountry(req.country.value);
    if c.None? || newId in db.restaurants {
      return Err(500, "Create restaurant failed");
    }
    var doc := RestaurantDefaults(req.name.value).(
      cuisine := req.cuisine, city := req.city, country := c, coverImage := req.coverImage,
      menu := [], categories := NormalizeCategories(req.categories));
    db.restaurants := db.restaurants[newId := doc];
    return Ok(Created(newId, doc));
  }

  method AddMenuItem(db: Db, actor: Actor, rid: string, req: MenuItemRequest, freshId: ObjectIdText)
    returns (reply: Reply<Restaurant>)
    modifies db
    ensures (reply, db.State()) == AddMenuItemSpec(old(db.State()), actor, rid, req, freshId)
    ensures old(db.Valid()) ==> db.Valid()
  {
    if !MenuRole(actor) {
      return Err(403, "Forbidden");
    }
    if !Truthy(req.name) || req.price.None? {
      return Err(400, "name, price required");
    }
    var access := MenuAccess(db.State(), actor, rid, "Add menu item failed");
    if access.Err? {
      return Err(access.code, access.error);
    }
    var rest := access.body;
    var id := if Truthy(req.itemId) then req.itemId.value else freshId;
    if HasItemId(rest.menu, id) {
      return Err(409, "Menu item with same id exists");
    }
    rest := rest.(menu := rest.menu + [MenuItem(Some(id), req.name, Some(OrElse(req.description, "")), req.price,
                                                Some(OrElse(req.image, "")))]);
    db.restaurants := db.restaurants[IdKey(rid) := rest];
    return Ok(rest);
  }

  method UpdateMenuItem(db: Db, actor: Actor, rid: string, key: string, patch: MenuPatch)
    returns (reply: Reply<Restaurant>)
    modifies db
    ensures (reply, db.State()) == UpdateMenuItemSpec(old(db.State()), actor, rid, key, patch)
    ensures old(db.Valid()) ==> db.Valid()
  {
    if !MenuRole(actor) {
      return Err(403, "Forbidden");
    }
    var access := MenuAccess(db.State(), actor, rid, "Update menu item failed");
    if access.Err? {
      return Err(access.code, access.error);
    }
    var rest := access.body;
    var found := FirstMatch(rest.menu, key);
    if found.None? {
      return Err(404, "Menu item not found");
    }
    var i := found.value;
    rest := rest.(menu := rest.menu[i := Patch(rest.menu[i], patch)]);
    db.restaurants := db.restaurants[IdKey(rid) := rest];
    return Ok(rest);
  }

  method DeleteMenuItem(db: Db, actor: Actor, rid: string, key: string) returns (reply: Reply<Restaurant>)
    modifies db
    ensures (reply, db.State()) == DeleteMenuItemSpec(old(db.State()), actor, rid, key)
    ensures old(db.Valid()) ==> db.Valid()
  {
    if !MenuRole(actor) {
      return Err(403, "Forbidden");
    }
    var access := MenuAccess(db.State(), actor, rid, "Delete menu item failed");
    if access.Err? {
      return Err(access.code, access.error);
    }
    var rest := access.body.(menu := WithoutKey(access.body.menu, key));
    db.restaurants := db.restaurants[IdKey(rid) := rest];
    return Ok(rest);
  }

  method DeleteRestaurant(db: Db, actor: Actor, id: string) returns (reply: Reply<()>)
    modifies db
    ensures (reply, db.State()) == DeleteRestaurantSpec(old(db.State()), actor, id)
    ensures old(db.Valid()) ==> db.Valid()
  {
    if RequireRole(Some(RoleName(actor.role)), ["ADMIN"]).Err? {
      return Err(403, "Forbidden");
    }
    var found := FindById(db.restaurants, id);
    if found.CastError? {
      return Err(500, "Delete failed");
    }
    if found.Missing? {
      return Err(404, "Restaurant not found");
    }
    db.restaurants := db.restaurants - {IdKey(id)};
    return Ok(());
  }
}
