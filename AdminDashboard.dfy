/**
 * The admin panel: a token gate, a restaurants tab and a menu-items tab for
 * the selected restaurant, each with an add/edit form. One `editMode` flag
 * and one `currentItemId` serve both forms.
 */
module AdminDashboard {

  import opened Support
  import opened Catalog

  /** The restaurant form's state `restaurantForm`. */
  datatype RestaurantForm = RestaurantForm(name: string, address: string, cuisine: string, imageUrl: string)

  const EmptyRestaurantForm := RestaurantForm("", "", "", "")

  /**
   * The value of a menu-item form input: the text typed into it, or, for the
   * price after an edit filled the form, the record's own number.
   */
  datatype InputValue = Typed(text: string) | Copied(number: int)

  /** The menu-item form's state `menuItemForm`. */
  datatype MenuItemForm = MenuItemForm(name: string, description: string, price: InputValue, imageUrl: string)

  const EmptyMenuItemForm := MenuItemForm("", "", Typed(""), "")

  datatype RestaurantField = RNameField | RAddressField | RCuisineField | RImageUrlField
  datatype MenuItemField = MNameField | MDescriptionField | MPriceField | MImageUrlField

  function RestaurantFieldValue(f: RestaurantForm, field: RestaurantField): string {
    match field
    case RNameField => f.name
    case RAddressField => f.address
    case RCuisineField => f.cuisine
    case RImageUrlField => f.imageUrl
  }

  /** `handleRestaurantFormChange`: the named field takes the typed text, the others keep theirs. */
  function SetRestaurantField(f: RestaurantForm, field: RestaurantField, value: string): (r: RestaurantForm)
    ensures RestaurantFieldValue(r, field) == value
    ensures forall g :: g != field ==> RestaurantFieldValue(r, g) == RestaurantFieldValue(f, g)
  {
    match field
    case RNameField => f.(name := value)
    case RAddressField => f.(address := value)
    case RCuisineField => f.(cuisine := value)
    case RImageUrlField => f.(imageUrl := value)
  }

  function MenuItemFieldValue(f: MenuItemForm, field: MenuItemField): InputValue {
    match field
    case MNameField => Typed(f.name)
    case MDescriptionField => Typed(f.description)
    case MPriceField => f.price
    case MImageUrlField => Typed(f.imageUrl)
  }

  /** `handleMenuItemFormChange`: the named field takes the typed text (the price as text), the others keep theirs. */
  function SetMenuItemField(f: MenuItemForm, field: MenuItemField, value: string): (r: MenuItemForm)
    ensures MenuItemFieldValue(r, field) == Typed(value)
    ensures forall g :: g != field ==> MenuItemFieldValue(r, g) == MenuItemFieldValue(f, g)
  {
    match field
    case MNameField => f.(name := value)
    case MDescriptionField => f.(description := value)
    case MPriceField => f.(price := Typed(value))
    case MImageUrlField => f.(imageUrl := value)
  }

  /** The form an edit fills in: exactly the four displayed fields of the record. */
  function RestaurantFormOf(r: Restaurant): (f: RestaurantForm)
    ensures f.name == r.name && f.address == r.address && f.cuisine == r.cuisine && f.imageUrl == r.imageUrl
  {
    RestaurantForm(r.name, r.address, r.cuisine, r.imageUrl)
  }

  function MenuItemFormOf(m: MenuItem): (f: MenuItemForm)
    ensures f.name == m.name && f.description == m.description && f.imageUrl == m.imageUrl
    ensures f.price == Copied(m.price)
  {
    MenuItemForm(m.name, m.description, Copied(m.price), m.imageUrl)
  }

  datatype Tab = RestaurantsTab | MenuItemsTab

  /** `window.confirm` of a delete. */
  datatype Confirmation = Confirmed | Declined

  const AdminLoginPath := "/admin/login"
  const FetchRestaurantsFailed := "Failed to fetch restaurants"
  const FetchMenuItemsFailed := "Failed to fetch menu items"
  const SaveRestaurantFailed := "Failed to save restaurant"
  const SaveMenuItemFailed := "Failed to save menu item"
  const DeleteRestaurantFailed := "Failed to delete restaurant"
  const DeleteMenuItemFailed := "Failed to delete menu item"

  /** The requests of the panel; an id that is null reads "null" in a path. */
  datatype Request =
    | FetchRestaurants                                           // GET restaurants
    | FetchMenuItems(restaurant: string)                         // GET restaurants/{id}/menuitems
    | CreateRestaurant(form: RestaurantForm)                     // POST admin/restaurants
    | UpdateRestaurant(id: string, form: RestaurantForm)         // PUT admin/restaurants/{id}
    | CreateMenuItem(restaurant: string, item: MenuItemForm)     // POST admin/restaurants/{id}/menuitems
    | UpdateMenuItem(id: string, item: MenuItemForm)             // PUT admin/menuitems/{id}
    | DeleteRestaurant(id: string)                               // DELETE admin/restaurants/{id}
    | DeleteMenuItem(id: string)                                 // DELETE admin/menuitems/{id}

  function IdSegment(id: Option<string>): string {
    if id.Some? then id.value else "null"
  }

  /** `handleLogout`: the token and the user name leave the store; everything else, `adminId` included, stays. */
  function LogoutStore(store: Store): (s: Store)
    ensures s.Keys == store.Keys - {"adminToken", "adminUsername"}
    ensures forall k :: k in s ==> s[k] == store[k]
  {
    map k | k in store && k != "adminToken" && k != "adminUsername" :: store[k]
  }

  /** Logging out ends the admin session, so the next mount of the panel is turned away; `adminId` survives. */
  lemma LogoutClosesGate(store: Store)
    ensures !Truthy(Lookup(LogoutStore(store), "adminToken"))
    ensures Lookup(LogoutStore(store), "adminId") == Lookup(store, "adminId")
  {
  }

  datatype AdminState = AdminState(
    restaurants: seq<Restaurant>, menuItems: seq<MenuItem>, selectedRestaurant: Option<Restaurant>,
    activeTab: Tab, isLoading: bool, error: string,
    restaurantForm: RestaurantForm, menuItemForm: MenuItemForm,
    showRestaurantForm: bool, showMenuItemForm: bool, editMode: bool, currentItemId: Option<string>)

  /** The menu-items section is rendered when its tab is active and a restaurant is selected. */
  predicate MenuSectionShown(s: AdminState) {
    s.activeTab == MenuItemsTab && s.selectedRestaurant.Some?
  }

  /** The tab button of the menu items exists only while a restaurant is selected. */
  predicate MenuTabShown(s: AdminState) {
    s.selectedRestaurant.Some?
  }

  class Dashboard {
    var restaurants: seq<Restaurant>
    var menuItems: seq<MenuItem>
    var selectedRestaurant: Option<Restaurant>
    var activeTab: Tab
    var isLoading: bool
    var error: string
    var restaurantForm: RestaurantForm
    var menuItemForm: MenuItemForm
    var showRestaurantForm: bool
    var showMenuItemForm: bool
    var editMode: bool
    var currentItemId: Option<string>

    function State(): AdminState
      reads this
    {
      AdminState(restaurants, menuItems, selectedRestaurant, activeTab, isLoading, error,
                 restaurantForm, menuItemForm, showRestaurantForm, showMenuItemForm, editMode, currentItemId)
    }

    /**
     * Every handler keeps these: an edit always names the record it edits,
     * and the menu-items tab is only active with a restaurant selected.
     */
    predicate Valid()
      reads this
    {
      && (editMode ==> currentItemId.Some?)
      && (activeTab == MenuItemsTab ==> selectedRestaurant.Some?)
    }

    constructor ()
      ensures Valid()
      ensures State() == AdminState([], [], None, RestaurantsTab, true, "", EmptyRestaurantForm, EmptyMenuItemForm,
                                    false, false, false, None)
    {
      restaurants, menuItems, selectedRestaurant, activeTab := [], [], None, RestaurantsTab;
      isLoading, error := true, "";
      restaurantForm, menuItemForm := EmptyRestaurantForm, EmptyMenuItemForm;
      showRestaurantForm, showMenuItemForm, editMode, currentItemId := false, false, false, None;
    }

    /** The mount effect: without a token, leave for the login page and fetch nothing. */
    method Mount(store: Store) returns (effects: seq<Effect<Request>>)
      requires Valid()
      modifies this
      ensures Valid()
      ensures !Truthy(Lookup(store, "adminToken")) ==>
        effects == [Navigate(AdminLoginPath)] && State() == old(State())
      ensures Truthy(Lookup(store, "adminToken")) ==>
        effects == [Send(FetchRestaurants)] && State() == old(State()).(isLoading := true)
    {
      if !Truthy(Lookup(store, "adminToken")) {
        return [Navigate(AdminLoginPath)];
      }
      isLoading := true;
      effects := [Send(FetchRestaurants)];
    }

    /**
     * `handleLogout`: the session keys leave the store and the browser goes
     * to the admin login page; the panel's own state is untouched.
     */
    method Logout(store: Store) returns (after: Store, effects: seq<Effect<Request>>)
      requires Valid()
      ensures Valid()
      ensures after == LogoutStore(store)
      ensures effects == [Navigate(AdminLoginPath)]
    {
      after := LogoutStore(store);
      effects := [Navigate(AdminLoginPath)];
    }

    /** The settled `fetchRestaurants`. */
    method RestaurantsArrived(reply: Reply<seq<Restaurant>>)
      requires Valid()
      modifies this
      ensures Valid()
      ensures reply.Ok? ==> State() == old(State()).(restaurants := reply.data, isLoading := false)
      ensures reply.Fail? ==> State() == old(State()).(error := FetchRestaurantsFailed, isLoading := false)
    {
      if reply.Ok? {
        restaurants := reply.data;
      } else {
        error := FetchRestaurantsFailed;
      }
      isLoading := false;
    }

    /** The settled `fetchMenuItems`. */
    method MenuItemsArrived(reply: Reply<seq<MenuItem>>)
      requires Valid()
      modifies this
      ensures Valid()
      ensures reply.Ok? ==> State() == old(State()).(menuItems := reply.data, isLoading := false)
      ensures reply.Fail? ==> State() == old(State()).(error := FetchMenuItemsFailed, isLoading := false)
    {
      if reply.Ok? {
        menuItems := reply.data;
      } else {
        error := FetchMenuItemsFailed;
      }
      isLoading := false;
    }

    /** `handleRestaurantSelect`: select it, fetch its menu, switch to its tab. */
    method SelectRestaurant(r: Restaurant) returns (effects: seq<Effect<Request>>)
      requires Valid()
      modifies this
      ensures Valid()
      ensures effects == [Send(FetchMenuItems(r.id))]
      ensures State() == old(State()).(selectedRestaurant := Some(r), activeTab := MenuItemsTab, isLoading := true)
    {
      selectedRestaurant := Some(r);
      isLoading := true;
      effects := [Send(FetchMenuItems(r.id))];
      activeTab := MenuItemsTab;
    }

    /** A tab button; the menu-items button is rendered only while a restaurant is selected. */
    method SelectTab(tab: Tab)
      requires Valid()
      requires tab == MenuItemsTab ==> MenuTabShown(State())
      modifies this
      ensures Valid()
      ensures State() == old(State()).(activeTab := tab)
    {
      activeTab := tab;
    }

    method RestaurantFormChange(field: RestaurantField, value: string)
      requires Valid()
      modifies this
      ensures Valid()
      ensures State() == old(State()).(restaurantForm := SetRestaurantField(old(restaurantForm), field, value))
    {
      restaurantForm := SetRestaurantField(restaurantForm, field, value);
    }

    method MenuItemFormChange(field: MenuItemField, value: string)
      requires Valid()
      modifies this
      ensures Valid()
      ensures State() == old(State()).(menuItemForm := SetMenuItemField(old(menuItemForm), field, value))
    {
      menuItemForm := SetMenuItemField(menuItemForm, field, value);
    }

    /** `handleEditRestaurant`: fill the form from the record and open it in edit mode for that id. */
    method EditRestaurant(r: Restaurant)
      requires Valid()
      modifies this
      ensures Valid()
      ensures State() == old(State()).(restaurantForm := RestaurantFormOf(r), editMode := true,
                                       currentItemId := Some(r.id), showRestaurantForm := true)
    {
      restaurantForm := RestaurantFormOf(r);
      editMode := true;
      currentItemId := Some(r.id);
      showRestaurantForm := true;
    }

    /** `handleEditMenuItem` */
    method EditMenuItem(m: MenuItem)
      requires Valid()
      modifies this
      ensures Valid()
      ensures State() == old(State()).(menuItemForm := MenuItemFormOf(m), editMode := true,
                                       currentItemId := Some(m.id), showMenuItemForm := true)
    {
      menuItemForm := MenuItemFormOf(m);
      editMode := true;
      currentItemId := Some(m.id);
      showMenuItemForm := true;
    }

    /** "Add Restaurant": an empty form in add mode; `currentItemId` keeps its value. */
    method AddRestaurant()
      requires Valid()
      modifies this
      ensures Valid()
      ensures State() == old(State()).(showRestaurantForm := true, editMode := false, restaurantForm := EmptyRestaurantForm)
    {
      showRestaurantForm := true;
      editMode := false;
      restaurantForm := EmptyRestaurantForm;
    }

    /** "Add Menu Item" */
    method AddMenuItem()
      requires Valid()
      modifies this
      ensures Valid()
      ensures State() == old(State()).(showMenuItemForm := true, editMode := false, menuItemForm := EmptyMenuItemForm)
    {
      showMenuItemForm := true;
      editMode := false;
      menuItemForm := EmptyMenuItemForm;
    }

    /** "Cancel" of the restaurant form: hide it, nothing else. */
    method CancelRestaurant()
      requires Valid()
      modifies this
      ensures Valid()
      ensures State() == old(State()).(showRestaurantForm := false)
    {
      showRestaurantForm := false;
    }

    /** "Cancel" of the menu-item form */
    method CancelMenuItem()
      requires Valid()
      modifies this
      ensures Valid()
      ensures State() == old(State()).(showMenuItemForm := false)
    {
      showMenuItemForm := false;
    }

    /**
     * `handleRestaurantSubmit`: a PUT to the record being edited in edit
     * mode, a POST otherwise. Success closes and empties the form, leaves
     * edit mode and re-fetches the list; failure only sets the error.
     */
    method SubmitRestaurant(reply: Reply<()>) returns (effects: seq<Effect<Request>>)
      requires Valid()
      modifies this
      ensures Valid()
      ensures
        var save := Send(if old(editMode) then UpdateRestaurant(old(currentItemId).value, old(restaurantForm))
                         else CreateRestaurant(old(restaurantForm)));
        && (reply.Ok? ==>
              && effects == [save, Send(FetchRestaurants)]
              && State() == old(State()).(showRestaurantForm := false, restaurantForm := EmptyRestaurantForm,
                                          editMode := false, currentItemId := None, isLoading := true))
        && (reply.Fail? ==> effects == [save] && State() == old(State()).(error := SaveRestaurantFailed))
    {
      if editMode {
        effects := [Send(UpdateRestaurant(IdSegment(currentItemId), restaurantForm))];
      } else {
        effects := [Send(CreateRestaurant(restaurantForm))];
      }
      if reply.Fail? {
        error := SaveRestaurantFailed;
        return;
      }
      showRestaurantForm := false;
      restaurantForm := EmptyRestaurantForm;
      editMode := false;
      currentItemId := None;
      isLoading := true;
      effects := effects + [Send(FetchRestaurants)];
    }

    /**
     * `handleMenuItemSubmit`: a PUT to `currentItemId` in edit mode, else a
     * POST under the selected restaurant. Success resets the form and
     * re-fetches the selected restaurant's menu; failure only sets the error.
     * With no restaurant selected, reading its id throws: before the POST,
     * or after a successful PUT and the reset, and either way the error is set.
     */
    method SubmitMenuItem(reply: Reply<()>) returns (effects: seq<Effect<Request>>)
      requires Valid()
      modifies this
      ensures Valid()
      ensures !old(editMode) && old(selectedRestaurant).None? ==>
        effects == [] && State() == old(State()).(error := SaveMenuItemFailed)
      ensures old(editMode) || old(selectedRestaurant).Some? ==>
        var save := Send(if old(editMode) then UpdateMenuItem(old(currentItemId).value, old(menuItemForm))
                         else CreateMenuItem(old(selectedRestaurant).value.id, old(menuItemForm)));
        var reset := old(State()).(showMenuItemForm := false, menuItemForm := EmptyMenuItemForm,
                                   editMode := false, currentItemId := None);
        && (reply.Fail? ==> effects == [save] && State() == old(State()).(error := SaveMenuItemFailed))
        && (reply.Ok? && old(selectedRestaurant).Some? ==>
              effects == [save, Send(FetchMenuItems(old(selectedRestaurant).value.id))] &&
              State() == reset.(isLoading := true))
        && (reply.Ok? && old(selectedRestaurant).None? ==> effects == [save] && State() == reset.(error := SaveMenuItemFailed))
    {
      if editMode {
        effects := [Send(UpdateMenuItem(IdSegment(currentItemId), menuItemForm))];
      } else if selectedRestaurant.None? {
        error := SaveMenuItemFailed;
        return [];
      } else {
        effects := [Send(CreateMenuItem(selectedRestaurant.value.id, menuItemForm))];
      }
      if reply.Fail? {
        error := SaveMenuItemFailed;
        return;
      }
      showMenuItemForm := false;
      menuItemForm := EmptyMenuItemForm;
      editMode := false;
      currentItemId := None;
      if selectedRestaurant.None? {
        error := SaveMenuItemFailed;
        return;
      }
      isLoading := true;
      effects := effects + [Send(FetchMenuItems(selectedRestaurant.value.id))];
    }

    /** `handleDeleteRestaurant`: only after confirmation; success re-fetches the list. */
    method DeleteRestaurantAt(id: string, answer: Confirmation, reply: Reply<()>) returns (effects: seq<Effect<Request>>)
      requires Valid()
      modifies this
      ensures Valid()
      ensures answer == Declined ==> effects == [] && State() == old(State())
      ensures answer == Confirmed && reply.Ok? ==>
        effects == [Send(DeleteRestaurant(id)), Send(FetchRestaurants)] && State() == old(State()).(isLoading := true)
      ensures answer == Confirmed && reply.Fail? ==>
        effects == [Send(DeleteRestaurant(id))] && State() == old(State()).(error := DeleteRestaurantFailed)
    {
      if answer == Declined {
        return [];
      }
      effects := [Send(DeleteRestaurant(id))];
      if reply.Ok? {
        isLoading := true;
        effects := effects + [Send(FetchRestaurants)];
      } else {
        error := DeleteRestaurantFailed;
      }
    }

    /** `handleDeleteMenuItem`: as above, re-fetching the selected restaurant's menu. */
    method DeleteMenuItemAt(id: string, answer: Confirmation, reply: Reply<()>) returns (effects: seq<Effect<Request>>)
      requires Valid()
      modifies this
      ensures Valid()
      ensures answer == Declined ==> effects == [] && State() == old(State())
      ensures answer == Confirmed && reply.Ok? && old(selectedRestaurant).Some? ==>
        && effects == [Send(DeleteMenuItem(id)), Send(FetchMenuItems(old(selectedRestaurant).value.id))]
        && State() == old(State()).(isLoading := true)
      ensures answer == Confirmed && (reply.Fail? || old(selectedRestaurant).None?) ==>
        effects == [Send(DeleteMenuItem(id))] && State() == old(State()).(error := DeleteMenuItemFailed)
    {
      if answer == Declined {
        return [];
      }
      effects := [Send(DeleteMenuItem(id))];
      if reply.Ok? && selectedRestaurant.Some? {
        isLoading := true;
        effects := effects + [Send(FetchMenuItems(selectedRestaurant.value.id))];
      } else {
        error := DeleteMenuItemFailed;
      }
    }
  }

  /** On a valid panel the menu section is on screen exactly when its tab is active. */
  lemma MenuSectionFollowsTab(d: Dashboard)
    requires d.Valid()
    ensures MenuSectionShown(d.State()) <==> d.activeTab == MenuItemsTab
  {
  }

  /** After logging out, the panel leaves for the login page and the next mount turns the browser away again. */
  method LogoutScenario(store: Store) returns (leave: seq<Effect<Request>>, remount: seq<Effect<Request>>)
    ensures leave == [Navigate(AdminLoginPath)] && remount == [Navigate(AdminLoginPath)]
  {
    var panel := new Dashboard();
    var after;
    after, leave := panel.Logout(store);
    LogoutClosesGate(store);
    remount := panel.Mount(after);
  }

  /**
   * The shared edit flag: with the menu-item form left open, editing a
   * restaurant and returning to the menu tab turns the next menu-item save
   * into a PUT of the menu-item endpoint with the restaurant's id.
   */
  method SharedEditModeScenario(store: Store, r: Restaurant, s: Restaurant)
    returns (request: Request)
    requires Truthy(Lookup(store, "adminToken"))
    ensures request == UpdateMenuItem(r.id, EmptyMenuItemForm)
  {
    var panel := new Dashboard();
    var _ := panel.Mount(store);
    var _ := panel.SelectRestaurant(s);
    panel.AddMenuItem();
    panel.SelectTab(RestaurantsTab);
    panel.EditRestaurant(r);
    panel.SelectTab(MenuItemsTab);
    var effects := panel.SubmitMenuItem(Ok(()));
    request := effects[0].request;
  }
}
