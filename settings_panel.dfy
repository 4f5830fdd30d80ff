/**
 * The settings panel: a nested settings record edited one field at a time
 * by the inputs of three tabs, a reset to the defaults, and a save that
 * only shows progress.  The security tab is open to administrators only.
 */
module SettingsPanelComponent {
  import opened Options

  datatype General = General(siteName: string, language: string, timezone: string, dateFormat: string)
  datatype Security = Security(sessionTimeout: int, maxLoginAttempts: int, requireMfa: bool, passwordExpiry: int)
  datatype Notifications = Notifications(
    emailEnabled: bool, smsEnabled: bool, lowStockAlert: bool, orderNotification: bool)
  datatype Theme = Light | Dark
  datatype Appearance = Appearance(theme: Theme, primaryColor: string, sidebarCollapsed: bool)

  datatype Settings = Settings(
    general: General, security: Security, notifications: Notifications, appearance: Appearance)

  const DefaultSettings := Settings(
    General("MFE Demo", "vi", "Asia/Ho_Chi_Minh", "DD/MM/YYYY"),
    Security(30, 5, false, 90),
    Notifications(true, false, true, true),
    Appearance(Light, "#1890ff", false))

  /** The fifteen leaves of the settings record. */
  datatype Leaf =
    | SiteName | Language | Timezone | DateFormat
    | SessionTimeout | MaxLoginAttempts | RequireMfa | PasswordExpiry
    | EmailEnabled | SmsEnabled | LowStockAlert | OrderNotification
    | ThemeLeaf | PrimaryColor | SidebarCollapsed

  datatype LeafValue = Text(text: string) | Number(n: int) | Flag(b: bool) | ThemeValue(theme: Theme)

  /** The value stored at a leaf. */
  function Get(s: Settings, f: Leaf): LeafValue {
    match f
    case SiteName => Text(s.general.siteName)
    case Language => Text(s.general.language)
    case Timezone => Text(s.general.timezone)
    case DateFormat => Text(s.general.dateFormat)
    case SessionTimeout => Number(s.security.sessionTimeout)
    case MaxLoginAttempts => Number(s.security.maxLoginAttempts)
    case RequireMfa => Flag(s.security.requireMfa)
    case PasswordExpiry => Number(s.security.passwordExpiry)
    case EmailEnabled => Flag(s.notifications.emailEnabled)
    case SmsEnabled => Flag(s.notifications.smsEnabled)
    case LowStockAlert => Flag(s.notifications.lowStockAlert)
    case OrderNotification => Flag(s.notifications.orderNotification)
    case ThemeLeaf => ThemeValue(s.appearance.theme)
    case PrimaryColor => Text(s.appearance.primaryColor)
    case SidebarCollapsed => Flag(s.appearance.sidebarCollapsed)
  }

  /** Two settings records with the same leaves are the same record. */
  lemma LeavesDetermineSettings(s: Settings, t: Settings)
    requires forall f :: Get(s, f) == Get(t, f)
    ensures s == t
  {
    GeneralFromLeaves(s, t);
    SecurityFromLeaves(s, t);
    NotificationsFromLeaves(s, t);
    AppearanceFromLeaves(s, t);
  }

  lemma GeneralFromLeaves(s: Settings, t: Settings)
    requires Get(s, SiteName) == Get(t, SiteName) && Get(s, Language) == Get(t, Language)
    requires Get(s, Timezone) == Get(t, Timezone) && Get(s, DateFormat) == Get(t, DateFormat)
    ensures s.general == t.general
  {
  }

  lemma SecurityFromLeaves(s: Settings, t: Settings)
    requires Get(s, SessionTimeout) == Get(t, SessionTimeout) && Get(s, MaxLoginAttempts) == Get(t, MaxLoginAttempts)
    requires Get(s, RequireMfa) == Get(t, RequireMfa) && Get(s, PasswordExpiry) == Get(t, PasswordExpiry)
    ensures s.security == t.security
  {
  }

  lemma NotificationsFromLeaves(s: Settings, t: Settings)
    requires Get(s, EmailEnabled) == Get(t, EmailEnabled) && Get(s, SmsEnabled) == Get(t, SmsEnabled)
    requires Get(s, LowStockAlert) == Get(t, LowStockAlert) && Get(s, OrderNotification) == Get(t, OrderNotification)
    ensures s.notifications == t.notifications
  {
  }

  lemma AppearanceFromLeaves(s: Settings, t: Settings)
    requires Get(s, ThemeLeaf) == Get(t, ThemeLeaf) && Get(s, PrimaryColor) == Get(t, PrimaryColor)
    requires Get(s, SidebarCollapsed) == Get(t, SidebarCollapsed)
    ensures s.appearance == t.appearance
  {
  }

  /** `val || d` for an `InputNumber` value: a cleared box (`null`) or zero falls back to `d`. */
  function OrDefault(val: Option<int>, d: int): (r: int)
    ensures val.None? || val.value == 0 ==> r == d
    ensures val.Some? && val.value != 0 ==> r == val.value
  {
    if val.Some? && val.value != 0 then val.value else d
  }

  /** One `onChange` of an input in the general, security or notifications tab. */
  datatype Edit =
    | EditSiteName(siteName: string)
    | EditLanguage(language: string)
    | EditTimezone(timezone: string)
    | EditSessionTimeout(sessionTimeout: Option<int>)
    | EditMaxLoginAttempts(maxLoginAttempts: Option<int>)
    | EditRequireMfa(requireMfa: bool)
    | EditPasswordExpiry(passwordExpiry: Option<int>)
    | EditEmailEnabled(emailEnabled: bool)
    | EditSmsEnabled(smsEnabled: bool)
    | EditLowStockAlert(lowStockAlert: bool)
    | EditOrderNotification(orderNotification: bool)

  /** The leaf an input edits. */
  function Target(e: Edit): Leaf {
    match e
    case EditSiteName(_) => SiteName
    case EditLanguage(_) => Language
    case EditTimezone(_) => Timezone
    case EditSessionTimeout(_) => SessionTimeout
    case EditMaxLoginAttempts(_) => MaxLoginAttempts
    case EditRequireMfa(_) => RequireMfa
    case EditPasswordExpiry(_) => PasswordExpiry
    case EditEmailEnabled(_) => EmailEnabled
    case EditSmsEnabled(_) => SmsEnabled
    case EditLowStockAlert(_) => LowStockAlert
    case EditOrderNotification(_) => OrderNotification
  }

  /** The value an input writes, with the numeric fallbacks 30, 5 and 90. */
  function NewValue(e: Edit): LeafValue {
    match e
    case EditSiteName(v) => Text(v)
    case EditLanguage(v) => Text(v)
    case EditTimezone(v) => Text(v)
    case EditSessionTimeout(v) => Number(OrDefault(v, 30))
    case EditMaxLoginAttempts(v) => Number(OrDefault(v, 5))
    case EditRequireMfa(v) => Flag(v)
    case EditPasswordExpiry(v) => Number(OrDefault(v, 90))
    case EditEmailEnabled(v) => Flag(v)
    case EditSmsEnabled(v) => Flag(v)
    case EditLowStockAlert(v) => Flag(v)
    case EditOrderNotification(v) => Flag(v)
  }

  /** The inputs of the security tab. */
  predicate IsSecurityEdit(e: Edit) {
    e.EditSessionTimeout? || e.EditMaxLoginAttempts? || e.EditRequireMfa? || e.EditPasswordExpiry?
  }

  /** The new record an input's handler builds with spreads. */
  function Apply(s: Settings, e: Edit): (t: Settings)
    ensures Get(t, Target(e)) == NewValue(e)
    ensures forall f :: f != Target(e) ==> Get(t, f) == Get(s, f)
    ensures t.appearance == s.appearance && t.general.dateFormat == s.general.dateFormat
  {
    match e
    case EditSiteName(v) => s.(general := s.general.(siteName := v))
    case EditLanguage(v) => s.(general := s.general.(language := v))
    case EditTimezone(v) => s.(general := s.general.(timezone := v))
    case EditSessionTimeout(v) => s.(security := s.security.(sessionTimeout := OrDefault(v, 30)))
    case EditMaxLoginAttempts(v) => s.(security := s.security.(maxLoginAttempts := OrDefault(v, 5)))
    case EditRequireMfa(v) => s.(security := s.security.(requireMfa := v))
    case EditPasswordExpiry(v) => s.(security := s.security.(passwordExpiry := OrDefault(v, 90)))
    case EditEmailEnabled(v) => s.(notifications := s.notifications.(emailEnabled := v))
    case EditSmsEnabled(v) => s.(notifications := s.notifications.(smsEnabled := v))
    case EditLowStockAlert(v) => s.(notifications := s.notifications.(lowStockAlert := v))
    case EditOrderNotification(v) => s.(notifications := s.notifications.(orderNotification := v))
  }

  /** `Apply` is the only record that holds the new value at the edited leaf and the old value elsewhere. */
  lemma ApplyIsTheOneLeafUpdate(s: Settings, e: Edit, t: Settings)
    requires Get(t, Target(e)) == NewValue(e)
    requires forall f :: f != Target(e) ==> Get(t, f) == Get(s, f)
    ensures t == Apply(s, e)
  {
    var a := Apply(s, e);
    forall f ensures Get(t, f) == Get(a, f) {
      if f != Target(e) {
        assert Get(t, f) == Get(s, f) == Get(a, f);
      }
    }
    LeavesDetermineSettings(t, a);
  }

  /** No input edits the appearance group or the date format. */
  lemma NoEditReachesAppearance(e: Edit)
    ensures Target(e) !in {DateFormat, ThemeLeaf, PrimaryColor, SidebarCollapsed}
  {
  }

  /** A cleared or zero numeric input stores the field's default. */
  lemma ClearedNumbersFallBack(s: Settings)
    ensures Apply(s, EditSessionTimeout(None)).security.sessionTimeout == DefaultSettings.security.sessionTimeout
    ensures Apply(s, EditMaxLoginAttempts(Some(0))).security.maxLoginAttempts ==
      DefaultSettings.security.maxLoginAttempts
    ensures Apply(s, EditPasswordExpiry(None)).security.passwordExpiry == DefaultSettings.security.passwordExpiry
  {
  }

  /** The record after a series of edits. */
  function ApplyAll(s: Settings, edits: seq<Edit>): Settings
    decreases |edits|
  {
    if edits == [] then s else ApplyAll(Apply(s, edits[0]), edits[1..])
  }

  /** However many edits are made, appearance and date format keep their values. */
  lemma {:induction false} EditsKeepAppearance(s: Settings, edits: seq<Edit>)
    ensures ApplyAll(s, edits).appearance == s.appearance
    ensures ApplyAll(s, edits).general.dateFormat == s.general.dateFormat
    decreases |edits|
  {
    if edits != [] {
      EditsKeepAppearance(Apply(s, edits[0]), edits[1..]);
    }
  }

  /** A leaf that no edit of the series targets keeps its value. */
  lemma {:induction false} UntargetedLeafKept(s: Settings, edits: seq<Edit>, f: Leaf)
    requires forall i :: 0 <= i < |edits| ==> Target(edits[i]) != f
    ensures Get(ApplyAll(s, edits), f) == Get(s, f)
    decreases |edits|
  {
    if edits != [] {
      UntargetedLeafKept(Apply(s, edits[0]), edits[1..], f);
    }
  }

  /** The signed-in user's role; only the administrator role matters here. */
  datatype Role = Admin | OtherRole(name: string)
  datatype User = User(role: Role)

  /** `isAdmin`: there is a user and their role is the administrator role. */
  predicate IsAdmin(user: Option<User>) {
    user.Some? && user.value.role == Admin
  }

  /** The security tab's `disabled` flag. */
  function SecurityTabDisabled(user: Option<User>): (disabled: bool)
    ensures disabled <==> user.None? || user.value.role != Admin
  {
    !IsAdmin(user)
  }

  /** The toasts the panel shows. */
  datatype Effect = ToastSuccess(text: string) | ToastInfo(text: string)

  const SavedMessage := "Đã lưu cài đặt"
  const ResetMessage := "Đã khôi phục cài đặt mặc định"

  /** The panel's state. */
  class Panel {
    var settings: Settings
    var loading: bool
    var effects: seq<Effect>

    constructor ()
      ensures settings == DefaultSettings && !loading && effects == []
    {
      settings := DefaultSettings;
      loading := false;
      effects := [];
    }

    /** An input's `onChange`; security inputs are only reachable when the tab is enabled. */
    method Change(user: Option<User>, e: Edit)
      requires IsSecurityEdit(e) ==> !SecurityTabDisabled(user)
      modifies this
      ensures settings == Apply(old(settings), e)
      ensures loading == old(loading) && effects == old(effects)
    {
      settings := Apply(settings, e);
    }

    /** `handleReset`: back to the defaults, whatever the state was. */
    method HandleReset()
      modifies this
      ensures settings == DefaultSettings
      ensures effects == old(effects) + [ToastInfo(ResetMessage)]
      ensures loading == old(loading)
    {
      settings := DefaultSettings;
      effects := effects + [ToastInfo(ResetMessage)];
    }

    /** The first half of `handleSave`: the button shows progress. */
    method StartSave()
      modifies this
      ensures loading
      ensures settings == old(settings) && effects == old(effects)
    {
      loading := true;
    }

    /** The second half of `handleSave`, after the wait: a toast, and progress ends. */
    method FinishSave()
      modifies this
      ensures !loading
      ensures settings == old(settings) && effects == old(effects) + [ToastSuccess(SavedMessage)]
    {
      effects := effects + [ToastSuccess(SavedMessage)];
      loading := false;
    }

    /** `handleSave` as a whole: the settings are not touched, and progress is shown then cleared. */
    method HandleSave()
      modifies this
      ensures !loading
      ensures settings == old(settings) && effects == old(effects) + [ToastSuccess(SavedMessage)]
    {
      StartSave();
      FinishSave();
    }
  }
}
