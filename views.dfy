/**
 * The view an entry point chooses to render.  Each leaf component is a tag;
 * each "(Coming Soon)" placeholder is a tag carrying the identifier it shows.
 */
module Views {
  datatype View =
    | ReportViewer
    | ReportBuilder
    | SettingsPanel
    | AuditLog
    | CommunicationDemo
      /** "Create New Report (Coming Soon)" */
    | CreateReportPending
      /** "Report Detail: <id> (Coming Soon)" */
    | ReportDetailPending(reportId: string)
      /** "Settings Section: <section> (Coming Soon)" */
    | SettingsSectionPending(section: string)
      /** "Audit Entry: <id> (Coming Soon)" */
    | AuditEntryPending(entryId: string)
      /** "Detail (Coming Soon)", shown without its id */
    | DetailPending
      /** "Section (Coming Soon)", shown without its name */
    | SectionPending

  /** Views that belong to the reports group. */
  predicate IsReportsView(v: View) {
    v.ReportViewer? || v.ReportBuilder? || v.CreateReportPending? || v.ReportDetailPending?
  }

  predicate IsSettingsView(v: View) {
    v.SettingsPanel? || v.SettingsSectionPending?
  }

  predicate IsAuditView(v: View) {
    v.AuditLog? || v.AuditEntryPending?
  }
}
