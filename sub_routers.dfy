/** `ReportRouter`: the entry point mounted at `/reports`. */
module ReportRouter {
  import opened Strings
  import opened Views
  import opened PathParser

  const Prefix := "/reports"

  /** The view rendered for `pathname`. */
  function Render(pathname: string): (v: View)
    ensures v == CreateReportPending <==> SubPath(Prefix, pathname) == "new"
    ensures v == ReportViewer <==> SubPath(Prefix, pathname) == ""
    ensures v.ReportDetailPending? <==> SubPath(Prefix, pathname) !in {"", "new"}
    ensures v.ReportDetailPending? ==> v.reportId == SubPath(Prefix, pathname)
  {
    var subPath := SubPath(Prefix, pathname);
    if subPath == "new" then CreateReportPending
    else if subPath != "" then ReportDetailPending(subPath)
    else ReportViewer
  }

  /** `/reports` and `/reports/` render the list. */
  lemma MountPointRendersList()
    ensures Render("/reports") == ReportViewer
    ensures Render("/reports/") == ReportViewer
  {
    SubPathOfMountPoint(Prefix);
  }

  /** `/reports/new` renders the creation placeholder, not the builder. */
  lemma NewRendersPlaceholder()
    ensures Render("/reports/new") == CreateReportPending
  {
    assert Prefix + "/" + "new" == "/reports/new";
    SubPathRoundTrip(Prefix, "new");
  }

  /** Any other sub-path is the detail id verbatim, a trailing slash included. */
  lemma DetailCarriesSubPath(id: string)
    requires NoLineTerminator(id) && id != "" && id != "new"
    ensures Render("/reports/" + id) == ReportDetailPending(id)
  {
    assert Prefix + "/" + id == "/reports/" + id;
    SubPathRoundTrip(Prefix, id);
  }

  /** Examples: `/reports/42` and `/reports/42/`, and `/reportsfoo` (not segment-bounded). */
  lemma DetailExamples()
    ensures Render("/reports/42") == ReportDetailPending("42")
    ensures Render("/reports/42/") == ReportDetailPending("42/")
    ensures Render("/reportsfoo") == ReportDetailPending("foo")
  {
    assert "/reports/" + "42" == "/reports/42";
    DetailCarriesSubPath("42");
    assert "/reports/" + "42/" == "/reports/42/";
    DetailCarriesSubPath("42/");
    NotSegmentBounded();
  }

  /** The router never renders the builder or a view of another group. */
  lemma RendersOnlyReportViews(pathname: string)
    ensures IsReportsView(Render(pathname)) && Render(pathname) != ReportBuilder
  {
  }
}

/** `SettingsRouter`: the entry point mounted at `/settings`. */
module SettingsRouter {
  import opened Strings
  import opened Views
  import opened PathParser

  const Prefix := "/settings"

  /** The view rendered for `pathname`: the panel, or a section placeholder. */
  function Render(pathname: string): (v: View)
    ensures v == SettingsPanel || v == SettingsSectionPending(SubPath(Prefix, pathname))
    ensures v == SettingsPanel <==> SubPath(Prefix, pathname) == ""
  {
    var subPath := SubPath(Prefix, pathname);
    if subPath != "" then SettingsSectionPending(subPath) else SettingsPanel
  }

  /** `/settings`, `/settings/` and pathnames without `/settings` render the panel. */
  lemma PanelCases(pathname: string)
    ensures Render("/settings") == SettingsPanel
    ensures Render("/settings/") == SettingsPanel
    ensures !Contains(pathname, Prefix) ==> Render(pathname) == SettingsPanel
  {
    SubPathOfMountPoint(Prefix);
    if !Contains(pathname, Prefix) {
      SubPathAbsent(Prefix, pathname);
    }
  }

  /** A non-empty section is shown verbatim; `new` has no special meaning here. */
  lemma SectionCarriesSubPath(section: string)
    requires NoLineTerminator(section) && section != ""
    ensures Render("/settings/" + section) == SettingsSectionPending(section)
  {
    assert Prefix + "/" + section == "/settings/" + section;
    SubPathRoundTrip(Prefix, section);
  }

  /** `security` is an ordinary section. */
  lemma SecuritySectionExample()
    ensures Render("/settings/security") == SettingsSectionPending("security")
  {
    assert "/settings/" + "security" == "/settings/security";
    SectionCarriesSubPath("security");
  }

  /** `new` has no special meaning under `/settings`. */
  lemma NewSectionExample()
    ensures Render("/settings/new") == SettingsSectionPending("new")
  {
    assert "/settings/" + "new" == "/settings/new";
    SectionCarriesSubPath("new");
  }
}

/** `AuditRouter`: the entry point mounted at `/audit`. */
module AuditRouter {
  import opened Strings
  import opened Views
  import opened PathParser

  const Prefix := "/audit"

  /** The view rendered for `pathname`: the log, or an entry placeholder. */
  function Render(pathname: string): (v: View)
    ensures v == AuditLog || v == AuditEntryPending(SubPath(Prefix, pathname))
    ensures v == AuditLog <==> SubPath(Prefix, pathname) == ""
  {
    var subPath := SubPath(Prefix, pathname);
    if subPath != "" then AuditEntryPending(subPath) else AuditLog
  }

  lemma LogCases(pathname: string)
    ensures Render("/audit") == AuditLog
    ensures Render("/audit/") == AuditLog
    ensures !Contains(pathname, Prefix) ==> Render(pathname) == AuditLog
  {
    SubPathOfMountPoint(Prefix);
    if !Contains(pathname, Prefix) {
      SubPathAbsent(Prefix, pathname);
    }
  }

  lemma EntryCarriesSubPath(id: string)
    requires NoLineTerminator(id) && id != ""
    ensures Render("/audit/" + id) == AuditEntryPending(id)
  {
    assert Prefix + "/" + id == "/audit/" + id;
    SubPathRoundTrip(Prefix, id);
  }

  lemma EntryExample()
    ensures Render("/audit/7") == AuditEntryPending("7")
  {
    EntryCarriesSubPath("7");
  }
}
