/**
 * The audit-log panel's logic: the search/action filter over the log
 * entries, the action-to-tag lookup with its fallback, and the statistics
 * computed over the whole (unfiltered) log.
 */
module AuditLogComponent {
  import opened Options
  import opened Strings

  /** One audit record (its free-form `details` object is not modelled). */
  datatype AuditEntry = AuditEntry(
    id: string,
    action: string,
    resource: string,
    resourceId: string,
    userId: string,
    userName: string,
    timestamp: string,
    ipAddress: string)

  /** Case-insensitive substring test on the user name or the resource. */
  predicate MatchesSearch(log: AuditEntry, searchText: string) {
    Contains(ToLower(log.userName), ToLower(searchText)) ||
    Contains(ToLower(log.resource), ToLower(searchText))
  }

  /** `!selectedAction || log.action === selectedAction`: an empty selection is no selection. */
  predicate MatchesAction(log: AuditEntry, selectedAction: Option<string>) {
    selectedAction.None? || selectedAction.value == "" || log.action == selectedAction.value
  }

  predicate Keep(log: AuditEntry, searchText: string, selectedAction: Option<string>) {
    MatchesSearch(log, searchText) && MatchesAction(log, selectedAction)
  }

  /** `r` is `s` with some elements left out, the rest in their original order. */
  predicate IsSublist<T(==)>(r: seq<T>, s: seq<T>)
    decreases |s|
  {
    if r == [] then true
    else if s == [] then false
    else if r[0] == s[0] then IsSublist(r[1..], s[1..])
    else IsSublist(r, s[1..])
  }

  /** `filteredLogs`: the entries that pass both tests, in their original order. */
  function FilteredLogs(logs: seq<AuditEntry>, searchText: string, selectedAction: Option<string>)
    : (r: seq<AuditEntry>)
    ensures |r| <= |logs|
    ensures IsSublist(r, logs)
    ensures forall e :: e in r ==> e in logs && Keep(e, searchText, selectedAction)
    ensures forall e :: e in logs && Keep(e, searchText, selectedAction) ==> e in r
  {
    if logs == [] then []
    else
      var rest := FilteredLogs(logs[1..], searchText, selectedAction);
      assert forall e :: e in logs[1..] ==> e in logs;
      if Keep(logs[0], searchText, selectedAction) then [logs[0]] + rest else rest
  }

  /** With no search text and no selected action every entry is kept. */
  lemma {:induction false} EmptyFilterKeepsAll(logs: seq<AuditEntry>)
    ensures FilteredLogs(logs, "", None) == logs
  {
    if logs != [] {
      ContainsEmpty(ToLower(logs[0].userName));
      assert ToLower("") == "";
      EmptyFilterKeepsAll(logs[1..]);
      assert logs == [logs[0]] + logs[1..];
    }
  }

  /** With an action selected, every kept entry carries exactly that action. */
  lemma KeptEntriesHaveAction(logs: seq<AuditEntry>, searchText: string, action: string)
    requires action != ""
    ensures forall e :: e in FilteredLogs(logs, searchText, Some(action)) ==> e.action == action
  {
  }

  /** Letter case in the search text does not matter. */
  lemma SearchIgnoresCase(log: AuditEntry, searchText: string)
    ensures MatchesSearch(log, searchText) == MatchesSearch(log, ToLower(searchText))
  {
    ToLowerIdempotent(searchText);
  }

  /** Only the user name and the resource are searched. */
  lemma SearchReadsNameAndResourceOnly(a: AuditEntry, b: AuditEntry, searchText: string)
    requires a.userName == b.userName && a.resource == b.resource
    ensures MatchesSearch(a, searchText) == MatchesSearch(b, searchText)
  {
  }

  /** An example: `ADMIN` finds "Admin User" by name. */
  lemma SearchExample()
    ensures MatchesSearch(AuditEntry("1", "LOGIN", "auth", "-", "1", "Admin User", "", ""), "ADMIN")
  {
    var name := ToLower("Admin User");
    var search := ToLower("ADMIN");
    assert search == "admin";
    assert name[0..5] == "admin";
    assert OccursAt(name, search, 0);
  }

  /** The icons a tag can carry. */
  datatype Icon = LoginIcon | EditIcon | DeleteIcon | EyeIcon | ExportIcon

  /** How an action is shown: tag colour, optional icon, label. */
  datatype ActionStyle = ActionStyle(color: string, icon: Option<Icon>, tagLabel: string)

  /** The seven known actions and their styles. */
  const ActionConfigs: map<string, ActionStyle> := map[
    "LOGIN" := ActionStyle("green", Some(LoginIcon), "Đăng nhập"),
    "LOGIN_FAILED" := ActionStyle("red", Some(LoginIcon), "Đăng nhập thất bại"),
    "CREATE" := ActionStyle("blue", Some(EditIcon), "Tạo mới"),
    "UPDATE" := ActionStyle("orange", Some(EditIcon), "Cập nhật"),
    "DELETE" := ActionStyle("red", Some(DeleteIcon), "Xóa"),
    "VIEW" := ActionStyle("default", Some(EyeIcon), "Xem"),
    "EXPORT" := ActionStyle("purple", Some(ExportIcon), "Xuất dữ liệu")
  ]

  /** `getActionConfig`: the table entry, or a plain default tag labelled with the action itself. */
  function ActionConfig(action: string): (c: ActionStyle)
    ensures action in ActionConfigs ==> c == ActionConfigs[action]
    ensures action !in ActionConfigs ==> c == ActionStyle("default", None, action)
    ensures c.icon.None? <==> action !in ActionConfigs
  {
    if action in ActionConfigs then ActionConfigs[action] else ActionStyle("default", None, action)
  }

  /** The table covers exactly the seven actions of the filter menu. */
  lemma KnownActions()
    ensures ActionConfigs.Keys == {"LOGIN", "LOGIN_FAILED", "CREATE", "UPDATE", "DELETE", "VIEW", "EXPORT"}
    ensures ActionConfig("ARCHIVE") == ActionStyle("default", None, "ARCHIVE")
  {
  }

  /** `logs.filter(l => l.action === action).length`. */
  function CountAction(logs: seq<AuditEntry>, action: string): (n: nat)
    ensures n <= |logs|
  {
    if logs == [] then 0
    else (if logs[0].action == action then 1 else 0) + CountAction(logs[1..], action)
  }

  /** `criticalActions`: deletes and updates of the `settings` resource. */
  predicate IsCritical(log: AuditEntry) {
    (log.action == "DELETE" || log.action == "UPDATE") && log.resource == "settings"
  }

  function CountCritical(logs: seq<AuditEntry>): (n: nat)
    ensures n <= |logs|
  {
    if logs == [] then 0
    else (if IsCritical(logs[0]) then 1 else 0) + CountCritical(logs[1..])
  }

  /** The statistics cards: total, successful and failed logins, critical changes. */
  datatype Stats = Stats(total: nat, successLogins: nat, failedLogins: nat, criticalActions: nat)

  /** The statistics are computed from the whole log, whatever the filter shows. */
  function ComputeStats(logs: seq<AuditEntry>): (st: Stats)
    ensures st.total == |logs|
    ensures st.successLogins == CountAction(logs, "LOGIN")
    ensures st.failedLogins == CountAction(logs, "LOGIN_FAILED")
    ensures st.criticalActions == CountCritical(logs)
    ensures st.successLogins + st.failedLogins <= st.total
    ensures st.criticalActions <= CountAction(logs, "UPDATE") + CountAction(logs, "DELETE")
  {
    TwoActionsBounded(logs, "LOGIN", "LOGIN_FAILED");
    CriticalWithinUpdatesAndDeletes(logs);
    Stats(|logs|, CountAction(logs, "LOGIN"), CountAction(logs, "LOGIN_FAILED"), CountCritical(logs))
  }

  /** Two different actions are counted on disjoint entries, so together they never exceed the total. */
  lemma {:induction false} TwoActionsBounded(logs: seq<AuditEntry>, a: string, b: string)
    requires a != b
    ensures CountAction(logs, a) + CountAction(logs, b) <= |logs|
  {
    if logs != [] {
      TwoActionsBounded(logs[1..], a, b);
    }
  }

  /** Every critical entry is an update or a delete. */
  lemma {:induction false} CriticalWithinUpdatesAndDeletes(logs: seq<AuditEntry>)
    ensures CountCritical(logs) <= CountAction(logs, "UPDATE") + CountAction(logs, "DELETE")
  {
    if logs != [] {
      CriticalWithinUpdatesAndDeletes(logs[1..]);
    }
  }

  /** The number of entries the filter keeps is the number that pass the test. */
  function CountKept(logs: seq<AuditEntry>, searchText: string, selectedAction: Option<string>): nat {
    if logs == [] then 0
    else (if Keep(logs[0], searchText, selectedAction) then 1 else 0) + CountKept(logs[1..], searchText, selectedAction)
  }

  lemma {:induction false} FilteredLength(logs: seq<AuditEntry>, searchText: string, selectedAction: Option<string>)
    ensures |FilteredLogs(logs, searchText, selectedAction)| == CountKept(logs, searchText, selectedAction)
  {
    if logs != [] {
      FilteredLength(logs[1..], searchText, selectedAction);
    }
  }

  /** Selecting an action keeps exactly as many entries as that action's count, when the search is empty. */
  lemma {:induction false} ActionFilterCount(logs: seq<AuditEntry>, action: string)
    requires action != ""
    ensures |FilteredLogs(logs, "", Some(action))| == CountAction(logs, action)
  {
    if logs != [] {
      ContainsEmpty(ToLower(logs[0].userName));
      assert ToLower("") == "";
      ActionFilterCount(logs[1..], action);
    }
  }
}
