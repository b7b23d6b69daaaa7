/** The account page of `app/profile/page.jsx`: the sign-in gate, the profile form
    that starts from the signed-in user's fields, its save and cancel buttons, the
    initial preference switches and the order status badge colours. The user comes
    from the authentication store (`Auth`). */
module Profile {
  import opened Wrappers
  import Auth

  /** The eight text fields of the form. */
  datatype ProfileForm = ProfileForm(firstName: string, lastName: string, email: string,
                                     phone: string, address: string, city: string,
                                     zipCode: string, country: string)

  datatype Preferences = Preferences(newsletter: bool, notifications: bool, marketing: bool)

  /** The form fields that have an input with an `onChange`; address, city, zip code
      and country are held in the form but have no input on the page. */
  datatype FormField = FirstName | LastName | EmailField | Phone

  /** The three switches of the preferences tab. */
  datatype PreferenceKey = Newsletter | NotificationsSwitch | Marketing

  /** What the page renders. */
  datatype View = SignInPrompt | Account

  const Gray := "bg-gray-100 text-gray-800"

  /** `user?.<key> || ""` for a text field: the stored text, or "" when there is no
      user, no such field, or the field is not text. */
  function TextField(user: Option<Auth.User>, key: string): string {
    if user.Some? && key in user.value && user.value[key].Str? then user.value[key].s else ""
  }

  /** The form as the page fills it from the user, at first render and on cancel. */
  function FormFrom(user: Option<Auth.User>): ProfileForm {
    ProfileForm(TextField(user, "firstName"), TextField(user, "lastName"),
                TextField(user, "email"), TextField(user, "phone"),
                TextField(user, "address"), TextField(user, "city"),
                TextField(user, "zipCode"), TextField(user, "country"))
  }

  /** `user?.preferences?.<key>` when it is a stored flag. */
  function StoredFlag(user: Option<Auth.User>, key: string): Option<bool> {
    if user.Some? && "preferences" in user.value && user.value["preferences"].Record?
       && key in user.value["preferences"].fields
       && user.value["preferences"].fields[key].Flag?
    then Some(user.value["preferences"].fields[key].b)
    else None
  }

  /** `notifications: user?.preferences?.notifications || true`, as written: the
      stored flag is ignored. */
  function NotificationsAsWritten(user: Option<Auth.User>): bool {
    var stored := StoredFlag(user, "notifications");
    (stored.Some? && stored.value) || true
  }

  /** The evident intent: the stored flag, switched on when none is stored. */
  function Notifications(user: Option<Auth.User>): (r: bool)
    ensures StoredFlag(user, "notifications").Some? ==> r == StoredFlag(user, "notifications").value
    ensures StoredFlag(user, "notifications").None? ==> r
  {
    StoredFlag(user, "notifications").GetOr(true)
  }

  /** The initial switches: newsletter and marketing are the stored flags, off when
      absent (`|| false`); notifications as intended. */
  function InitialPreferences(user: Option<Auth.User>): (p: Preferences)
    ensures p.newsletter <==> StoredFlag(user, "newsletter") == Some(true)
    ensures p.marketing <==> StoredFlag(user, "marketing") == Some(true)
    ensures p.notifications == Notifications(user)
  {
    Preferences(StoredFlag(user, "newsletter").GetOr(false), Notifications(user),
                StoredFlag(user, "marketing").GetOr(false))
  }

  /** The payload of `handleSave`: `{ ...formData, preferences }`. */
  function SaveUpdates(form: ProfileForm, prefs: Preferences): Auth.User {
    map[
      "firstName" := Auth.Str(form.firstName),
      "lastName" := Auth.Str(form.lastName),
      "email" := Auth.Str(form.email),
      "phone" := Auth.Str(form.phone),
      "address" := Auth.Str(form.address),
      "city" := Auth.Str(form.city),
      "zipCode" := Auth.Str(form.zipCode),
      "country" := Auth.Str(form.country),
      "preferences" := PreferencesValue(prefs)
    ]
  }

  /** The `preferences` object as it is stored on the user. */
  function PreferencesValue(prefs: Preferences): Auth.Value {
    Auth.Record(map["newsletter" := Auth.Flag(prefs.newsletter),
                    "notifications" := Auth.Flag(prefs.notifications),
                    "marketing" := Auth.Flag(prefs.marketing)])
  }

  /** `setPreferences({ ...preferences, <key>: checked })`. */
  function WithPreference(prefs: Preferences, key: PreferenceKey, checked: bool): (r: Preferences)
    ensures Switch(r, key) == checked
    ensures forall k :: k != key ==> Switch(r, k) == Switch(prefs, k)
  {
    match key
    case Newsletter => prefs.(newsletter := checked)
    case NotificationsSwitch => prefs.(notifications := checked)
    case Marketing => prefs.(marketing := checked)
  }

  function Switch(prefs: Preferences, key: PreferenceKey): bool {
    match key
    case Newsletter => prefs.newsletter
    case NotificationsSwitch => prefs.notifications
    case Marketing => prefs.marketing
  }

  /** `setFormData({ ...formData, <field>: value })`. */
  function WithField(form: ProfileForm, field: FormField, value: string): (r: ProfileForm)
    ensures Field(r, field) == value
    ensures forall g :: g != field ==> Field(r, g) == Field(form, g)
  {
    match field
    case FirstName => form.(firstName := value)
    case LastName => form.(lastName := value)
    case EmailField => form.(email := value)
    case Phone => form.(phone := value)
  }

  function Field(form: ProfileForm, field: FormField): string {
    match field
    case FirstName => form.firstName
    case LastName => form.lastName
    case EmailField => form.email
    case Phone => form.phone
  }

  /** Signed-out visitors see only the sign-in prompt. */
  function ViewFor(isAuthenticated: bool): (v: View)
    ensures v == Account <==> isAuthenticated
  {
    if isAuthenticated then Account else SignInPrompt
  }

  /** `getStatusColor` of the order history. */
  function StatusColor(status: string): (r: string)
    ensures status == "delivered" ==> r == "bg-green-100 text-green-800"
    ensures status == "shipped" ==> r == "bg-blue-100 text-blue-800"
    ensures status == "processing" ==> r == "bg-yellow-100 text-yellow-800"
    ensures status == "cancelled" ==> r == "bg-red-100 text-red-800"
    ensures r == Gray <==> status !in {"delivered", "shipped", "processing", "cancelled"}
  {
    match status
    case "delivered" => "bg-green-100 text-green-800"
    case "shipped" => "bg-blue-100 text-blue-800"
    case "processing" => "bg-yellow-100 text-yellow-800"
    case "cancelled" => "bg-red-100 text-red-800"
    case _ => Gray
  }

  class ProfilePage {
    var isEditing: bool
    var formData: ProfileForm
    var preferences: Preferences

    /** The page's first render with the user of the moment. */
    constructor (user: Option<Auth.User>)
      ensures !isEditing && formData == FormFrom(user) && preferences == InitialPreferences(user)
    {
      isEditing := false;
      formData := FormFrom(user);
      preferences := InitialPreferences(user);
    }

    /** A keystroke in one of the inputs. The inputs are disabled outside editing,
        so a keystroke then changes nothing. */
    method Edit(field: FormField, value: string)
      modifies this
      ensures old(isEditing) ==> formData == WithField(old(formData), field, value)
      ensures !old(isEditing) ==> formData == old(formData)
      ensures isEditing == old(isEditing) && preferences == old(preferences)
    {
      if isEditing {
        formData := WithField(formData, field, value);
      }
    }

    /** A switch of the preferences tab. */
    method SetPreference(key: PreferenceKey, checked: bool)
      modifies this
      ensures preferences == WithPreference(old(preferences), key, checked)
      ensures isEditing == old(isEditing) && formData == old(formData)
    {
      preferences := WithPreference(preferences, key, checked);
    }

    /** "Save Preferences": only the preferences go to `updateProfile`. */
    method SavePreferences(store: Auth.AuthStore)
      modifies store
      ensures store.State() == Auth.Reduce(old(store.State()),
                Auth.AuthAction.UpdateProfile(map["preferences" := PreferencesValue(preferences)]))
    {
      store.UpdateProfile(map["preferences" := PreferencesValue(preferences)]);
    }

    /** "Edit Profile" opens editing; the same button then reads "Save Changes". */
    method StartEditing()
      requires !isEditing
      modifies this
      ensures isEditing && formData == old(formData) && preferences == old(preferences)
    {
      isEditing := true;
    }

    /** `handleSave`: the form and the preferences go to `updateProfile`, and editing
        ends. */
    method HandleSave(store: Auth.AuthStore)
      modifies this, store
      ensures store.State() == Auth.Reduce(old(store.State()),
                Auth.AuthAction.UpdateProfile(SaveUpdates(old(formData), old(preferences))))
      ensures !isEditing && formData == old(formData) && preferences == old(preferences)
    {
      store.UpdateProfile(SaveUpdates(formData, preferences));
      isEditing := false;
    }

    /** The header button: "Save Changes" while editing, "Edit Profile" otherwise. */
    method PressProfileButton(store: Auth.AuthStore)
      modifies this, store
      ensures old(isEditing) ==> store.State() == Auth.Reduce(old(store.State()),
                Auth.AuthAction.UpdateProfile(SaveUpdates(old(formData), old(preferences))))
      ensures !old(isEditing) ==> store.State() == old(store.State())
      ensures isEditing == !old(isEditing)
      ensures formData == old(formData) && preferences == old(preferences)
    {
      if isEditing {
        HandleSave(store);
      } else {
        StartEditing();
      }
    }

    /** `handleCancel`: the form goes back to the stored user's fields, and editing
        ends; the preferences are left as they are. */
    method HandleCancel(store: Auth.AuthStore)
      modifies this
      ensures formData == FormFrom(store.user)
      ensures !isEditing && preferences == old(preferences)
    {
      formData := FormFrom(store.user);
      isEditing := false;
    }
  }

  // ---------------------------------------------------------------- lemmas

  /** The as-written switch is on for every user, even one who stored `false`. */
  lemma NotificationsIgnoreStoredFalse(user: Option<Auth.User>)
    ensures NotificationsAsWritten(user)
    ensures StoredFlag(user, "notifications") == Some(false) ==> !Notifications(user)
  {
  }

  /** Saving and reloading: after `handleSave`, a cancel refills the form with
      exactly what was saved. */
  lemma SaveThenCancel(before: Option<Auth.User>, form: ProfileForm, prefs: Preferences)
    ensures FormFrom(Some(before.GetOr(map[]) + SaveUpdates(form, prefs))) == form
  {
  }

  /** Saving and reloading the preferences gives back what was saved, the
      notifications switch included. */
  lemma SavedPreferencesRoundTrip(before: Option<Auth.User>, form: ProfileForm, prefs: Preferences)
    ensures InitialPreferences(Some(before.GetOr(map[]) + SaveUpdates(form, prefs))) == prefs
  {
  }

  /** Saving the preferences tab alone: the switches come back as saved and the form
      fields keep what was stored. */
  lemma SavedSwitchesRoundTrip(before: Option<Auth.User>, prefs: Preferences)
    ensures var after := Some(before.GetOr(map[]) + map["preferences" := PreferencesValue(prefs)]);
            InitialPreferences(after) == prefs && FormFrom(after) == FormFrom(Some(before.GetOr(map[])))
  {
    var u := before.GetOr(map[]);
    var after := Some(u + map["preferences" := PreferencesValue(prefs)]);
    forall key | key != "preferences"
      ensures TextField(after, key) == TextField(Some(u), key)
    {
    }
    assert after.value["preferences"] == PreferencesValue(prefs);
  }

  /** As written, a saved "notifications off" comes back on. */
  lemma SavedNotificationsOffComeBackOn(before: Option<Auth.User>, form: ProfileForm)
    ensures var after := Some(before.GetOr(map[]) + SaveUpdates(form, Preferences(false, false, false)));
            NotificationsAsWritten(after) && !Notifications(after)
  {
    SavedPreferencesRoundTrip(before, form, Preferences(false, false, false));
  }

  /** With nothing stored, the form is blank, newsletter and marketing are off and
      notifications are on. */
  lemma Defaults()
    ensures FormFrom(None) == ProfileForm("", "", "", "", "", "", "", "")
    ensures InitialPreferences(None) == Preferences(false, true, false)
  {
  }
}
