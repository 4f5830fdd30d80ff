/**
 * `App`: the entry point that can be mounted under several basenames and
 * picks its default view from the basename it was given.
 */
module App {
  import opened Options
  import opened Strings
  import opened Views

  /** The basename used when the host passes none. */
  const DefaultBasename := "/reports"

  /** A missing `basename` prop takes the default; an empty string does not. */
  function EffectiveBasename(basename: Option<string>): (b: string)
    ensures basename.None? ==> b == DefaultBasename
    ensures basename.Some? ==> b == basename.value
  {
    basename.GetOr(DefaultBasename)
  }

  /** `getDefaultComponent()`: `settings` is tested before `audit`; anything else is the report list. */
  function DefaultComponent(basename: string): (v: View)
    ensures v == SettingsPanel <==> Contains(basename, "settings")
    ensures v == AuditLog <==> !Contains(basename, "settings") && Contains(basename, "audit")
    ensures v == ReportViewer <==> !Contains(basename, "settings") && !Contains(basename, "audit")
  {
    if Contains(basename, "settings") then SettingsPanel
    else if Contains(basename, "audit") then AuditLog
    else ReportViewer
  }

  /** The routes declared inside the `BrowserRouter`. */
  datatype AppRoute = Root | New | Detail(id: string) | Section(section: string) | Demo | Fallback

  /** The element each declared route renders. */
  function ElementFor(basename: string, route: AppRoute): (v: View)
    ensures route.Root? || route.Fallback? ==> v == DefaultComponent(basename)
    ensures route.Detail? ==> v == DetailPending
    ensures route.Section? ==> v == SectionPending
    ensures route.New? ==> v == ReportBuilder
    ensures route.Demo? ==> v == CommunicationDemo
  {
    match route
    case Root => DefaultComponent(basename)
    case New => ReportBuilder
    case Detail(_) => DetailPending
    case Section(_) => SectionPending
    case Demo => CommunicationDemo
    case Fallback => DefaultComponent(basename)
  }

  /** The root route and the catch-all render the same default view. */
  lemma RootAndFallbackAgree(basename: string)
    ensures ElementFor(basename, Root) == ElementFor(basename, Fallback)
  {
  }

  /** `settings` wins over `audit` when a basename holds both. */
  lemma SettingsBeforeAudit()
    ensures DefaultComponent("/audit/settings") == SettingsPanel
  {
    var b := "/audit/settings";
    assert b[7..15] == "settings";
    assert OccursAt(b, "settings", 7);
  }

  /** A basename with `audit` but no `settings` selects the audit log. */
  lemma AuditBasename()
    ensures DefaultComponent("/audit") == AuditLog
  {
    var b := "/audit";
    assert OccursAt(b, "audit", 1) by { assert b[1..6] == "audit"; }
    assert forall j :: !OccursAt(b, "settings", j);
  }

  /** Without a basename the default `/reports` selects the report list. */
  lemma DefaultBasenameSelectsReports()
    ensures DefaultComponent(EffectiveBasename(None)) == ReportViewer
  {
    var b := DefaultBasename;
    assert b[0..8][0] == '/';
    assert forall j :: !OccursAt(b, "settings", j);
    forall j | 0 <= j <= 3 ensures !OccursAt(b, "audit", j) {
      assert b[j..j + 5][0] == b[j] != 'a';
    }
  }
}
