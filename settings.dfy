/**
 * The settings page of app/dashboard/settings/page.tsx: the stored theme,
 * accent and notification preferences with their defaults, the password
 * change checks, the notification toggle, the profile save, and the light/dark
 * class the theme puts on the document root.
 *
 * Browser storage is read through parameters of `LoadPreferences`; the
 * system colour preference is a parameter of `ApplyTheme`.
 */
module Settings {
  import opened Wrappers
  import opened Toasts

  /** The five notification preferences. */
  datatype NotificationKey = Transactions | Weekly | Goals | Budget | Marketing

  datatype Notifications = Notifications(transactions: bool, weekly: bool, goals: bool, budget: bool, marketing: bool)
  {
    function Get(k: NotificationKey): bool {
      match k
      case Transactions => transactions
      case Weekly => weekly
      case Goals => goals
      case Budget => budget
      case Marketing => marketing
    }

    /** `{ ...notifications, [key]: !notifications[key] }`. */
    function Toggled(k: NotificationKey): (r: Notifications)
      ensures r.Get(k) == !Get(k)
      ensures forall j :: j != k ==> r.Get(j) == Get(j)
    {
      match k
      case Transactions => this.(transactions := !transactions)
      case Weekly => this.(weekly := !weekly)
      case Goals => this.(goals := !goals)
      case Budget => this.(budget := !budget)
      case Marketing => this.(marketing := !marketing)
    }
  }

  /** Transaction alerts, the weekly summary and budget warnings start on; the rest off. */
  const DefaultNotifications := Notifications(true, true, false, true, false)

  /** Toggling the same preference twice restores every preference. */
  lemma ToggleTwice(n: Notifications, k: NotificationKey)
    ensures n.Toggled(k).Toggled(k) == n
  {
  }

  /** Preferences agreeing on every key are the same preferences. */
  lemma NotificationsExtensional(a: Notifications, b: Notifications)
    requires forall k :: a.Get(k) == b.Get(k)
    ensures a == b
  {
    assert a.Get(Transactions) == b.Get(Transactions) && a.Get(Weekly) == b.Get(Weekly);
    assert a.Get(Goals) == b.Get(Goals) && a.Get(Budget) == b.Get(Budget);
    assert a.Get(Marketing) == b.Get(Marketing);
  }

  /** Which preferences are on by default. */
  lemma DefaultsOn(k: NotificationKey)
    ensures DefaultNotifications.Get(k) <==> k == Transactions || k == Weekly || k == Budget
  {
  }

  /** `localStorage.getItem(key) || fallback`: a missing or empty entry gives the fallback. */
  function StoredOr(stored: Option<string>, fallback: string): (r: string)
    ensures stored.None? || stored == Some("") ==> r == fallback
    ensures stored.Some? && stored.value != "" ==> r == stored.value
  {
    if stored.Some? && stored.value != "" then stored.value else fallback
  }

  const DefaultTheme := "system"
  const DefaultAccent := "indigo"

  /** The theme the root element shows: `system` follows the colour-scheme preference. */
  function ResolvedTheme(theme: string, prefersDark: bool): (r: string)
    ensures theme == DefaultTheme ==> r == (if prefersDark then "dark" else "light")
    ensures theme != DefaultTheme ==> r == theme
  {
    if theme == DefaultTheme then (if prefersDark then "dark" else "light") else theme
  }

  /** `classList.remove(token)`. */
  function RemoveClass(cs: seq<string>, token: string): (r: seq<string>)
    ensures forall c :: c in r <==> c in cs && c != token
    ensures |r| <= |cs|
  {
    if cs == [] then []
    else if cs[0] == token then RemoveClass(cs[1..], token)
    else [cs[0]] + RemoveClass(cs[1..], token)
  }

  /** `classList.add(token)`: appended unless already present. */
  function AddClass(cs: seq<string>, token: string): (r: seq<string>)
    ensures forall c :: c in r <==> c in cs || c == token
  {
    if token in cs then cs else cs + [token]
  }

  /** `applyTheme`: remove `light` and `dark`, then add the resolved theme. */
  function ThemedClasses(cs: seq<string>, theme: string, prefersDark: bool): (r: seq<string>)
    ensures ResolvedTheme(theme, prefersDark) in r
  {
    AddClass(RemoveClass(RemoveClass(cs, "light"), "dark"), ResolvedTheme(theme, prefersDark))
  }

  /**
   * After `applyTheme` the resolved theme is on the root, the other of
   * `light`/`dark` is not, and every other class is as it was.
   */
  lemma ThemedClassesShape(cs: seq<string>, theme: string, prefersDark: bool)
    ensures var r := ThemedClasses(cs, theme, prefersDark);
      && ResolvedTheme(theme, prefersDark) in r
      && (forall c :: (c == "light" || c == "dark") && c != ResolvedTheme(theme, prefersDark) ==> c !in r)
      && (forall c :: c != "light" && c != "dark" && c != ResolvedTheme(theme, prefersDark) ==> (c in r <==> c in cs))
  {
  }

  /** For the three offered themes, exactly one of `light` and `dark` ends up on the root. */
  lemma OfferedThemeSetsOneMode(cs: seq<string>, theme: string, prefersDark: bool)
    requires theme == "light" || theme == "dark" || theme == DefaultTheme
    ensures var r := ThemedClasses(cs, theme, prefersDark);
      ("light" in r) != ("dark" in r)
    ensures theme == DefaultTheme ==> ("dark" in ThemedClasses(cs, theme, prefersDark) <==> prefersDark)
  {
    ThemedClassesShape(cs, theme, prefersDark);
  }

  /** The document root's class list. */
  class DocumentRoot {
    var classes: seq<string>

    constructor (initial: seq<string>)
      ensures classes == initial
    {
      classes := initial;
    }
  }

  const MismatchMessage := "Passwords don't match!"
  const TooShortMessage := "Password must be at least 6 characters"
  const ResetSentMessage := "Password reset email sent to your email! \U{1F4E7}"
  const ProfileSavedMessage := "Profile updated successfully! \U{2728}"
  const ProfileFailedMessage := "Failed to update profile"
  const PreferenceSavedMessage := "Notification preference saved"
  const SignedOutMessage := "Signed out successfully"
  const LoginPath := "/auth/login"
  const MinPasswordLength := 6

  /**
   * The password checks in order: a mismatch is reported first, then a
   * password under six characters; `None` when the change goes ahead.
   */
  function PasswordProblem(newPassword: string, confirmPassword: string): (r: Option<string>)
    ensures r.None? <==> newPassword == confirmPassword && |newPassword| >= MinPasswordLength
    ensures newPassword != confirmPassword ==> r == Some(MismatchMessage)
    ensures newPassword == confirmPassword && |newPassword| < MinPasswordLength ==> r == Some(TooShortMessage)
  {
    if newPassword != confirmPassword then Some(MismatchMessage)
    else if |newPassword| < MinPasswordLength then Some(TooShortMessage)
    else None
  }

  /** A short password that is also mistyped is reported as a mismatch, not as too short. */
  lemma MismatchBeforeLength(newPassword: string, confirmPassword: string)
    requires newPassword != confirmPassword && |newPassword| < MinPasswordLength
    ensures PasswordProblem(newPassword, confirmPassword) == Some(MismatchMessage)
    ensures PasswordProblem(newPassword, confirmPassword) != Some(TooShortMessage)
  {
  }

  /** The signed-in user as the page keeps it: `user?.id` may be missing. */
  datatype PageUser = PageUser(id: Option<string>, email: Option<string>)

  /** The columns of the `users` row the page reads. */
  datatype ProfileRow = ProfileRow(fullName: Option<string>, phone: Option<string>)

  /** The `update` the profile save issues against `users`. */
  datatype ProfileUpdate = ProfileUpdate(id: string, fullName: string, phone: string, updatedAt: string)

  /** A theme button: its value and its label. */
  datatype ThemeChoice = Light | Dark | System
  {
    function Value(): (v: string)
      ensures v == "light" || v == "dark" || v == DefaultTheme
    {
      match this
      case Light => "light"
      case Dark => "dark"
      case System => "system"
    }

    function Label(): string {
      match this
      case Light => "Light"
      case Dark => "Dark"
      case System => "System"
    }
  }

  /** Every field of the page's state at one moment. */
  datatype PageState = PageState(
    loading: bool, saving: bool, user: Option<PageUser>, fullName: string, phone: string,
    currentPassword: string, newPassword: string, confirmPassword: string,
    theme: string, accent: string, notifications: Notifications,
    toasts: seq<Toast>, updates: seq<ProfileUpdate>, signedOut: bool, redirectedTo: Option<string>)

  /**
   * How the mount effect's `getUser` ends. Neither awaited call is guarded,
   * so a rejected `getUser` or profile query leaves `loading` on.
   */
  datatype UserLoad =
    | GetUserThrew
    | NoSignedInUser
    | ProfileThrew(signedIn: PageUser)
    | ProfileRead(signedIn: PageUser, profile: Option<ProfileRow>)

  /** The settings page component's state. */
  class SettingsPage {
    var loading: bool
    var saving: bool
    var user: Option<PageUser>
    var fullName: string
    var phone: string
    var currentPassword: string
    var newPassword: string
    var confirmPassword: string
    var theme: string
    var accent: string
    var notifications: Notifications
    var toasts: seq<Toast>
    /** Every profile update issued, in order. */
    var updates: seq<ProfileUpdate>
    /** Whether the session was ended, and where the page sent the browser. */
    var signedOut: bool
    var redirectedTo: Option<string>

    function State(): PageState
      reads this
    {
      PageState(loading, saving, user, fullName, phone, currentPassword, newPassword, confirmPassword,
                theme, accent, notifications, toasts, updates, signedOut, redirectedTo)
    }

    constructor ()
      ensures State() == PageState(true, false, None, "", "", "", "", "", DefaultTheme, DefaultAccent,
                                   DefaultNotifications, [], [], false, None)
    {
      loading := true;
      saving := false;
      user := None;
      fullName := "";
      phone := "";
      currentPassword := "";
      newPassword := "";
      confirmPassword := "";
      theme := DefaultTheme;
      accent := DefaultAccent;
      notifications := DefaultNotifications;
      toasts := [];
      updates := [];
      signedOut := false;
      redirectedTo := None;
    }

    /**
     * The mount effect's storage reads: theme and accent come from storage or
     * their defaults, stored notifications replace the current ones, and
     * nothing else changes.
     */
    method LoadPreferences(storedTheme: Option<string>, storedAccent: Option<string>,
                           storedNotifications: Option<Notifications>)
      modifies this
      ensures theme == StoredOr(storedTheme, DefaultTheme) && accent == StoredOr(storedAccent, DefaultAccent)
      ensures notifications == storedNotifications.GetOr(old(notifications))
      ensures State() == old(State()).(theme := theme, accent := accent, notifications := notifications)
    {
      theme := StoredOr(storedTheme, DefaultTheme);
      accent := StoredOr(storedAccent, DefaultAccent);
      notifications := storedNotifications.GetOr(notifications);
    }

    /**
     * The mount effect's `getUser`: the user is kept, the signed-in user's
     * profile fills the name and phone (missing values as empty strings), and
     * loading ends, unless one of the two calls is rejected first.
     */
    method LoadUser(outcome: UserLoad)
      modifies this
      ensures outcome.GetUserThrew? ==> State() == old(State())
      ensures outcome.NoSignedInUser? ==> State() == old(State()).(user := None, loading := false)
      ensures outcome.ProfileThrew? ==> State() == old(State()).(user := Some(outcome.signedIn))
      ensures outcome.ProfileRead? && outcome.profile.None? ==>
        State() == old(State()).(user := Some(outcome.signedIn), loading := false)
      ensures outcome.ProfileRead? && outcome.profile.Some? ==>
        State() == old(State()).(user := Some(outcome.signedIn), loading := false,
                                 fullName := outcome.profile.value.fullName.GetOr(""),
                                 phone := outcome.profile.value.phone.GetOr(""))
    {
      match outcome
      case GetUserThrew =>
      case NoSignedInUser =>
        user := None;
        loading := false;
      case ProfileThrew(u) =>
        user := Some(u);
      case ProfileRead(u, profile) =>
        user := Some(u);
        if profile.Some? {
          var row := profile.value;
          fullName, phone := row.fullName.GetOr(""), row.phone.GetOr("");
        }
        loading := false;
    }

    /** The theme effect: only the root's classes change. */
    method ApplyTheme(root: DocumentRoot, prefersDark: bool)
      modifies root
      ensures root.classes == ThemedClasses(old(root.classes), theme, prefersDark)
    {
      root.classes := RemoveClass(RemoveClass(root.classes, "light"), "dark");
      root.classes := AddClass(root.classes, ResolvedTheme(theme, prefersDark));
    }

    /** A theme button: the theme becomes its value and a toast names it. */
    method SelectTheme(choice: ThemeChoice)
      modifies this
      ensures State() == old(State()).(theme := choice.Value(),
                                       toasts := old(toasts) + [Success(choice.Label() + " theme applied!")])
    {
      theme := choice.Value();
      toasts := toasts + [Success(choice.Label() + " theme applied!")];
    }

    /** An accent swatch: the accent becomes its value and a toast names it. */
    method SelectAccent(value: string, name: string)
      modifies this
      ensures State() == old(State()).(accent := value, toasts := old(toasts) + [Success(name + " color applied!")])
    {
      accent := value;
      toasts := toasts + [Success(name + " color applied!")];
    }

    /**
     * `handleChangePassword`: a rejected change only raises its error; an
     * accepted one announces the reset mail and clears all three fields,
     * leaving `saving` false.
     */
    method ChangePassword()
      modifies this
      ensures PasswordProblem(old(newPassword), old(confirmPassword)).Some? ==>
        State() == old(State()).(toasts := old(toasts) + [Error(PasswordProblem(old(newPassword), old(confirmPassword)).value)])
      ensures PasswordProblem(old(newPassword), old(confirmPassword)).None? ==>
        State() == old(State()).(toasts := old(toasts) + [Info(ResetSentMessage)], saving := false,
                                 currentPassword := "", newPassword := "", confirmPassword := "")
    {
      if newPassword != confirmPassword {
        toasts := toasts + [Error(MismatchMessage)];
        return;
      }
      if |newPassword| < MinPasswordLength {
        toasts := toasts + [Error(TooShortMessage)];
        return;
      }
      saving := true;
      toasts := toasts + [Info(ResetSentMessage)];
      currentPassword := "";
      newPassword := "";
      confirmPassword := "";
      saving := false;
    }

    /** The Update Password button is disabled while saving or with an empty new password. */
    function PasswordButtonEnabled(): (r: bool)
      reads this
      ensures r ==> !saving && |newPassword| >= 1
      ensures !saving && newPassword != "" ==> r
    {
      !(saving || newPassword == "")
    }

    /** `handleNotificationChange`: exactly the chosen preference flips, and a toast confirms it. */
    method ToggleNotification(k: NotificationKey)
      modifies this
      ensures State() == old(State()).(notifications := old(notifications).Toggled(k),
                                       toasts := old(toasts) + [Success(PreferenceSavedMessage)])
    {
      notifications := notifications.Toggled(k);
      toasts := toasts + [Success(PreferenceSavedMessage)];
    }

    /**
     * `handleSaveProfile`: an update is issued only when the user has an id
     * (`user?.id` is truthy); its failure raises the error toast. `saving`
     * is false afterwards.
     */
    method SaveProfile(now: string, failed: bool)
      modifies this
      ensures var id := if user.Some? then user.value.id else None;
        if id.Some? && id.value != "" then
          State() == old(State()).(saving := false,
            updates := old(updates) + [ProfileUpdate(id.value, fullName, phone, now)],
            toasts := old(toasts) + [if failed then Error(ProfileFailedMessage) else Success(ProfileSavedMessage)])
        else
          State() == old(State()).(saving := false)
    {
      saving := true;
      if user.Some? && user.value.id.Some? && user.value.id.value != "" {
        var id := user.value.id.value;
        updates := updates + [ProfileUpdate(id, fullName, phone, now)];
        if failed {
          toasts := toasts + [Error(ProfileFailedMessage)];
        } else {
          toasts := toasts + [Success(ProfileSavedMessage)];
        }
      }
      saving := false;
    }

    /** `handleSignOut`: the session ends, a toast confirms it, and the browser goes to the login page. */
    method SignOut()
      modifies this
      ensures State() == old(State()).(signedOut := true, redirectedTo := Some(LoginPath),
                                       toasts := old(toasts) + [Success(SignedOutMessage)])
    {
      signedOut := true;
      toasts := toasts + [Success(SignedOutMessage)];
      redirectedTo := Some(LoginPath);
    }
  }
}
