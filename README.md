# Remote reports application: routing, access control and panels

This project models the core of a micro-frontend "remote" application that
a host loads at run time. The application serves three feature groups:
reports, settings and an audit log. It also has a communication demo.

The model covers:

- **Entry points that route on the URL path.**
  - `Remote3App` is mounted under `/app3`. It strips that prefix and runs
    a first-match-wins chain over the rest of the path.
  - `ReportRouter`, `SettingsRouter` and `AuditRouter` are each mounted at
    their group's path. Each extracts the sub-path after its prefix with a
    regular expression and branches on it.
  - `App` picks its default view from the basename the host gives it.
- **The development server's access restriction.** A middleware checks
  the `Origin` and `Referer` headers.
  - When neither is present, it refuses document navigations and passes
    every other request.
  - When either is present, the request passes only when one of the
    host's two origins is a prefix of it.
  - A `setupMiddlewares` hook puts the middleware first in the chain.
- **The logic of four panels.**
  - The audit log: its filter, its action tags and its statistics.
  - The communication demo: a log capped at the ten newest events, plus
    the message and token state.
  - The report builder: a three-step wizard.
  - The settings panel: a nested settings record edited one field at a
    time. Security fields are for administrators only.

Views are a datatype tag (`Views.View`): each rendered component, or a
"coming soon" placeholder carrying the text it shows.

Pure code is written as functions and lemmas. State changed in place is a
class with `modifies` clauses:

- the middleware array;
- the demo's log, message and token;
- the wizard's step, report and form;
- the settings record and the loading flag.

Calls out to the event bus, the token bridge, the shared store and the
toast API are appended to an `effects` sequence. Incoming events are
method calls. The clock and random draws are parameters.

The regular expression `/\/P\/?(.*)$/` of the group routers is modelled
exactly (`PathParser.SubPath`):

- It matches at the leftmost position where `P` occurs and no line
  terminator follows.
- The capture is everything after `P`, with one leading slash dropped.
- Without a match the sub-path is `""`.

Two consequences of this regular expression are easy to miss, and are
what the model states:

- A pathname that does not contain the prefix yields the empty sub-path,
  not the whole pathname.
- The sub-path can itself start with `/`: `/reports//x` gives `/x` (see
  `PathParser.DoubleSlashKeepsOne`).

## Model

| member | source | states |
|---|---|---|
| Strings.IndexOf | src/exposes/App/index.tsx:26-27 | `includes`/`indexOf`: returns the leftmost occurrence when there is one, and None exactly when the pattern occurs nowhere |
| Strings.ReplaceFirst | src/exposes/Remote3App/index.tsx:39 | `replace` with a string pattern: when the pattern is absent the string is unchanged; otherwise only the leftmost occurrence is replaced |
| Strings.ReplaceFirstAtStart | src/exposes/Remote3App/index.tsx:39 | a route beginning with the pattern loses exactly that leading copy |
| Strings.ToLower | src/components/AuditLog.tsx:38-39 | `toLowerCase` keeps the length and folds each character |
| Strings.ToLowerIdempotent | src/components/AuditLog.tsx:38-39 | folding twice is the same as folding once |
| Strings.ContainsEmpty | src/components/AuditLog.tsx:38 | every string includes the empty search text |
| Strings.NatToStringValue | src/components/CommunicationDemo.tsx:63 | round trip: the digits `toString` prints for a non-negative integer denote that integer |
| Strings.NatToStringInjective | src/components/CommunicationDemo.tsx:63 | `toString` of two different non-negative integers gives two different strings |
| PathParser.FirstMatch | src/exposes/ReportRouter/index.tsx:18 | the regex tries start positions left to right; the result is the leftmost position at which prefix, optional slash and `.*$` match |
| PathParser.SubPath | src/exposes/ReportRouter/index.tsx:17-20 | `getSubPath`: `""` when no position matches; otherwise the text after the leftmost matching prefix, minus one leading slash |
| PathParser.SubPathRoundTrip | src/exposes/ReportRouter/index.tsx:17-20 | for every sub-path without line terminators, parsing `prefix + "/" + s` gives back `s` |
| PathParser.SubPathOfMountPoint | src/exposes/SettingsRouter/index.tsx:17-20 | the mount point itself, with or without a trailing slash, has the empty sub-path |
| PathParser.SubPathAbsent | src/exposes/AuditRouter/index.tsx:16-19 | a pathname not containing the prefix has the empty sub-path |
| PathParser.SubPathEmptyIff | src/exposes/ReportRouter/index.tsx:17-20 | the sub-path is empty exactly when nothing matched, or only `""` or `/` followed the matched prefix |
| PathParser.NotSegmentBounded | src/exposes/ReportRouter/index.tsx:18 | `/reportsfoo` has sub-path `foo`: the match is not segment-bounded |
| PathParser.LeftmostOccurrenceWins | src/exposes/ReportRouter/index.tsx:18 | with two occurrences, the first wins and the second stays inside the sub-path |
| PathParser.LineTerminatorSkipsOccurrence | src/exposes/AuditRouter/index.tsx:17 | an occurrence followed by a line terminator cannot match, so the next occurrence is used |
| PathParser.DoubleSlashKeepsOne | src/exposes/ReportRouter/index.tsx:18 | only one slash is dropped: `/reports//x` gives `/x` |
| ReportRouter.Render | src/exposes/ReportRouter/index.tsx:24-32 | `new` renders the creation placeholder; any other non-empty sub-path renders the detail placeholder carrying it; an empty one renders the list (each as an iff) |
| ReportRouter.MountPointRendersList | src/exposes/ReportRouter/index.tsx:17-32 | `/reports` and `/reports/` render the report list |
| ReportRouter.NewRendersPlaceholder | src/exposes/ReportRouter/index.tsx:24-26 | `/reports/new` renders the creation placeholder, not the builder |
| ReportRouter.DetailCarriesSubPath | src/exposes/ReportRouter/index.tsx:28-30 | for every id other than `""` and `new`, `/reports/<id>` renders the detail placeholder with that id verbatim |
| ReportRouter.DetailExamples | src/exposes/ReportRouter/index.tsx:17-30 | `/reports/42` gives `42`, `/reports/42/` gives `42/` and `/reportsfoo` gives `foo` |
| ReportRouter.RendersOnlyReportViews | src/exposes/ReportRouter/index.tsx:24-32 | the router only ever renders report views, and never the builder |
| SettingsRouter.Render | src/exposes/SettingsRouter/index.tsx:24-28 | the panel exactly when the sub-path is empty, else the section placeholder carrying the sub-path |
| SettingsRouter.PanelCases | src/exposes/SettingsRouter/index.tsx:17-28 | `/settings`, `/settings/` and any pathname without `/settings` render the panel |
| SettingsRouter.SectionCarriesSubPath | src/exposes/SettingsRouter/index.tsx:24-26 | every non-empty section is shown verbatim |
| SettingsRouter.SecuritySectionExample | src/exposes/SettingsRouter/index.tsx:24-26 | `/settings/security` renders section `security` |
| SettingsRouter.NewSectionExample | src/exposes/SettingsRouter/index.tsx:24-26 | `/settings/new` renders section `new`: it has no special meaning here |
| AuditRouter.Render | src/exposes/AuditRouter/index.tsx:23-27 | the log exactly when the sub-path is empty, else the entry placeholder carrying the sub-path |
| AuditRouter.LogCases | src/exposes/AuditRouter/index.tsx:16-27 | `/audit`, `/audit/` and any pathname without `/audit` render the log |
| AuditRouter.EntryCarriesSubPath | src/exposes/AuditRouter/index.tsx:23-25 | every non-empty entry id is shown verbatim |
| AuditRouter.EntryExample | src/exposes/AuditRouter/index.tsx:23-25 | `/audit/7` renders entry `7` |
| Remote3App.GetRoute | src/exposes/Remote3App/index.tsx:25-28 | the route is never empty; it starts with `/` when the pathname began with `/app3`; any other non-empty pathname is kept as it is |
| Remote3App.MountRoundTrip | src/exposes/Remote3App/index.tsx:25-28 | every route starting with `/` comes back unchanged once mounted under `/app3` |
| Remote3App.MountPointIsRoot | src/exposes/Remote3App/index.tsx:26-27 | `/app3`, `/app3/` and the empty pathname all become `/` |
| Remote3App.MountedRoute | src/exposes/Remote3App/index.tsx:25-28 | for every rest `s`, the pathname `/app3` + `s` gives `s` when it starts with `/` and `/` + `s` otherwise |
| Remote3App.GluedMountPrefix | src/exposes/Remote3App/index.tsx:26 | `/app3reports` becomes `/reports`: the prefix is not segment-bounded |
| Remote3App.RenderContent | src/exposes/Remote3App/index.tsx:32-70 | reports routes give report views; otherwise settings routes give settings views; then audit; the demo is shown exactly when no earlier group matched and the route starts with `/demo` or `/communication` |
| Remote3App.FirstGroup | src/exposes/Remote3App/index.tsx:34-66 | the reference table: the first group in the fixed order whose prefix the route starts with |
| Remote3App.GroupsExclusive | src/exposes/Remote3App/index.tsx:34-66 | no route belongs to two groups |
| Remote3App.DispatchPicksGroup | src/exposes/Remote3App/index.tsx:34-69 | the table-driven reference resolves each group, and falls back to the report list when no group matches |
| Remote3App.ChainMatchesTable | src/exposes/Remote3App/index.tsx:32-70 | the if-chain and the table-driven reference agree on every route |
| Remote3App.Render | src/exposes/Remote3App/index.tsx:21-76 | the view for every pathname is the table-driven reference applied to its route |
| Remote3App.DefaultFallback | src/exposes/Remote3App/index.tsx:68-69 | a route in no group renders the report list |
| Remote3App.ReportsGroup | src/exposes/Remote3App/index.tsx:34-43 | `/reports/new` renders the builder; `/reports` and `/reports/` render the list |
| Remote3App.ReportsDetail | src/exposes/Remote3App/index.tsx:38-40 | for every id other than `""` and `new`, `/reports/<id>` renders that detail |
| Remote3App.SettingsSection | src/exposes/Remote3App/index.tsx:47-49 | every non-empty section under `/settings/` is shown verbatim |
| Remote3App.AuditEntryRoute | src/exposes/Remote3App/index.tsx:56-58 | every non-empty entry under `/audit/` is shown verbatim |
| Remote3App.GluedReportsRoute | src/exposes/Remote3App/index.tsx:34-40 | `/reportsfoo` renders a detail whose id is the whole route, since `/reports/` does not occur in it |
| Remote3App.MountPointExample | src/exposes/Remote3App/index.tsx:25-42 | `/app3` and `/app3/` render the report list |
| Remote3App.AuditEntryExample | src/exposes/Remote3App/index.tsx:55-58 | `/app3/audit/7` renders audit entry `7` |
| Remote3App.UnknownExample | src/exposes/Remote3App/index.tsx:68-69 | `/app3/unknown` falls back to the report list |
| Remote3App.TrailingSlashExample | src/exposes/Remote3App/index.tsx:38-40 | `/app3/reports/42/` keeps the trailing slash in the id |
| Remote3App.GluedMountExample | src/exposes/Remote3App/index.tsx:25-69 | `/app3reports` is routed as `/reports`, the list |
| Remote3App.AgreesWithReportRouter | src/exposes/ReportRouter/index.tsx:17-32 | on `/reports/<s>` with `s` not `new`, the mounted app and the report router render the same view |
| Remote3App.AgreesWithSettingsRouter | src/exposes/SettingsRouter/index.tsx:17-28 | on `/settings/<s>` the mounted app and the settings router agree |
| Remote3App.AgreesWithAuditRouter | src/exposes/AuditRouter/index.tsx:16-27 | on `/audit/<s>` the mounted app and the audit router agree |
| Remote3App.DisagreesWithReportRouter | src/exposes/Remote3App/index.tsx:35-40 | the two disagree on `/reports/new` (builder vs placeholder) and on `/reportsfoo` |
| App.DefaultComponent | src/exposes/App/index.tsx:25-29 | the settings panel iff the basename contains `settings`; the audit log iff it contains `audit` but not `settings`; the report list otherwise |
| App.EffectiveBasename | src/exposes/App/index.tsx:23 | a missing basename is `/reports`; a given one, even empty, is kept |
| App.ElementFor | src/exposes/App/index.tsx:37-50 | the root and `*` routes render the default component; `/new` renders the builder; `/demo` renders the demo; detail and section routes render their placeholders |
| App.RootAndFallbackAgree | src/exposes/App/index.tsx:31-50 | the root route and the catch-all render the same view |
| App.SettingsBeforeAudit | src/exposes/App/index.tsx:26-27 | a basename containing both words selects settings |
| App.AuditBasename | src/exposes/App/index.tsx:27 | `/audit` selects the audit log |
| App.DefaultBasenameSelectsReports | src/exposes/App/index.tsx:23-28 | without a basename, the default `/reports` selects the report list |
| DevServer.SomeAllowed | webpack.config.js:43-46 | `some`: true iff some allowed origin is a prefix of the (truthy) origin or referer |
| DevServer.RestrictAccess | webpack.config.js:20-59 | every refusal is a 403; with no truthy origin or referer, a request is refused (HTML page) iff it is a document navigation; otherwise it is passed on iff an allowed origin prefixes the origin or referer, and refused with the JSON body listing the allowed origins |
| DevServer.HostPagePasses | webpack.config.js:43-46 | a request referred from a host page passes |
| DevServer.PrefixIsNotEquality | webpack.config.js:44 | `http://localhost:3000.example.com` passes, because the test is a prefix test |
| DevServer.EmptyOriginIsAbsent | webpack.config.js:25 | empty origin and referer headers are treated exactly like absent ones |
| DevServer.MiddlewareList.constructor | webpack.config.js:63 | the list holds exactly the entries the server passes in |
| DevServer.MiddlewareList.Unshift | webpack.config.js:65-68 | `unshift` puts the entry in front of the old contents |
| DevServer.SetupMiddlewares | webpack.config.js:63-69 | returns the same array, now the restriction entry followed by the old entries in order |
| AuditLogComponent.FilteredLogs | src/components/AuditLog.tsx:37-42 | an order-preserving sublist of the logs; an entry is kept iff it matches the search on name or resource and the action filter |
| AuditLogComponent.EmptyFilterKeepsAll | src/components/AuditLog.tsx:37-42 | empty search text and no selected action keep every entry, in order |
| AuditLogComponent.KeptEntriesHaveAction | src/components/AuditLog.tsx:40 | with an action selected, every kept entry has exactly that action |
| AuditLogComponent.SearchIgnoresCase | src/components/AuditLog.tsx:38-39 | the search text's letter case does not matter |
| AuditLogComponent.SearchReadsNameAndResourceOnly | src/components/AuditLog.tsx:38-39 | entries with the same user name and resource match the same searches |
| AuditLogComponent.SearchExample | src/components/AuditLog.tsx:38 | `ADMIN` finds `Admin User` |
| AuditLogComponent.ActionConfig | src/components/AuditLog.tsx:44-55 | a known action gets its table entry; any other gets colour `default`, no icon and its own name as label; an icon is present iff the action is known |
| AuditLogComponent.KnownActions | src/components/AuditLog.tsx:45-54 | the table has exactly the seven actions; an unknown one falls back |
| AuditLogComponent.CountAction | src/components/AuditLog.tsx:125-126 | a count never exceeds the number of logs |
| AuditLogComponent.CountCritical | src/components/AuditLog.tsx:127 | the critical count never exceeds the number of logs |
| AuditLogComponent.TwoActionsBounded | src/components/AuditLog.tsx:125-126 | counts of two different actions together never exceed the number of logs |
| AuditLogComponent.ComputeStats | src/components/AuditLog.tsx:124-135 | the cards show the number of entries, the LOGIN and LOGIN_FAILED counts and the critical count; the two login counts together never exceed the total; critical changes never exceed the updates plus deletes |
| AuditLogComponent.CriticalWithinUpdatesAndDeletes | src/components/AuditLog.tsx:127 | critical actions are at most the updates plus the deletes |
| AuditLogComponent.FilteredLength | src/components/AuditLog.tsx:37-42 | the filtered list has exactly as many entries as pass the test |
| AuditLogComponent.ActionFilterCount | src/components/AuditLog.tsx:37-42 | with an empty search, selecting an action shows exactly that action's count of entries |
| CommunicationDemoComponent.AddLog | src/components/CommunicationDemo.tsx:61-66 | the new item first; the length is min(old length + 1, 10); the tail is the oldest-kept prefix of the previous log, in order |
| CommunicationDemoComponent.ReplayBounded | src/components/CommunicationDemo.tsx:61-66 | from the empty log, any series of additions leaves min(n, 10) and never more than 10 entries |
| CommunicationDemoComponent.ReplayKeepsNewest | src/components/CommunicationDemo.tsx:61-66 | after any series of additions, the log is exactly the ten newest events, newest first |
| CommunicationDemoComponent.LogItem | src/components/CommunicationDemo.tsx:61-64 | a log item carries the event kind, the payload source and the time; its id is a non-empty string of decimal digits that denotes the time |
| CommunicationDemoComponent.LogItemIdsDistinct | src/components/CommunicationDemo.tsx:63 | items logged at different times have different ids |
| CommunicationDemoComponent.TokenOrNull | src/components/CommunicationDemo.tsx:40 | a falsy token becomes null: a token is kept iff it is present and non-empty |
| CommunicationDemoComponent.Demo.constructor | src/components/CommunicationDemo.tsx:26-28 | the panel starts with no events, no message and no token |
| CommunicationDemoComponent.Demo.OnMount | src/components/CommunicationDemo.tsx:37-38 | the bridge's token is taken as it is |
| CommunicationDemoComponent.Demo.Log | src/components/CommunicationDemo.tsx:61-66 | `addLog` applies `AddLog` to the log and changes nothing else |
| CommunicationDemoComponent.Demo.OnTokenUpdated | src/components/CommunicationDemo.tsx:39-42 | the token becomes the payload token or none if it is empty, and exactly one `token:updated` entry is logged |
| CommunicationDemoComponent.Demo.OnBusEvent | src/components/CommunicationDemo.tsx:48-57 | each bus event logs exactly one entry of its kind with the payload source; only a notification also shows a toast with its title |
| CommunicationDemoComponent.Demo.SetMessage | src/components/CommunicationDemo.tsx:154 | typing sets the message and nothing else |
| CommunicationDemoComponent.Demo.HandleBroadcast | src/components/CommunicationDemo.tsx:68-77 | an empty message emits nothing and changes nothing; a non-empty one emits exactly one notification with it and clears the box |
| CommunicationDemoComponent.Demo.HandleSetToken | src/components/CommunicationDemo.tsx:79-84 | a `dist_token_<now>` token is pushed to the bridge and kept, and a success toast is shown |
| CommunicationDemoComponent.Demo.HandleSelectUser | src/components/CommunicationDemo.tsx:86-90 | a `dist-user-<now>` id is selected in the store, then announced on the bus |
| CommunicationDemoComponent.Demo.HandleSelectProduct | src/components/CommunicationDemo.tsx:92-96 | a `dist-product-<now>` id is selected in the store, then announced on the bus |
| CommunicationDemoComponent.Demo.RequestToken | src/components/CommunicationDemo.tsx:142 | Request only asks the bridge |
| CommunicationDemoComponent.Demo.ClearToken | src/components/CommunicationDemo.tsx:143 | Clear empties the bridge and sets the token to none |
| CommunicationDemoComponent.BroadcastTwice | src/components/CommunicationDemo.tsx:68-77 | broadcasting twice emits the message at most once |
| ReportBuilderComponent.Scaled | src/components/ReportBuilder.tsx:76-78 | `Math.floor(r * n)` lies in [0, n) and is the floor of `r * n` |
| ReportBuilderComponent.Metrics | src/components/ReportBuilder.tsx:75-80 | exactly four rows, Total Sales < 100000, Orders < 1000, Users < 500 and the conversion rate text |
| ReportBuilderComponent.TitleText | src/components/ReportBuilder.tsx:89 | a template literal prints a present title as it is and a missing one as `undefined` |
| ReportBuilderComponent.GeneratedTitle | src/components/ReportBuilder.tsx:89 | the notification title is `Report "`, then the title text, then `" generated`, each at its position |
| ReportBuilderComponent.StepOf | src/components/ReportBuilder.tsx:122-160 | the user and product fields are on step 1; the other fields are on step 0 |
| ReportBuilderComponent.ApplyEdit | src/components/ReportBuilder.tsx:124-151 | field by field: the edited field takes the new value and every other field is kept |
| ReportBuilderComponent.MountedValues | src/components/ReportBuilder.tsx:122-151 | `getFieldsValue()` holds the fields rendered on the current step, and every other field reads as unset |
| ReportBuilderComponent.EditStaysOnItsStep | src/components/ReportBuilder.tsx:122-151 | a step-0 edit keeps the two data-source fields; a step-1 edit keeps the four configuration fields; an edit never changes what another step reads |
| ReportBuilderComponent.AutoFill | src/components/ReportBuilder.tsx:58-65 | a selected id is written only when it is non-empty; other fields are kept |
| ReportBuilderComponent.AutoFillSkipsEmpty | src/components/ReportBuilder.tsx:59-63 | missing or empty selections leave the form unchanged |
| ReportBuilderComponent.MakeReport | src/components/ReportBuilder.tsx:71-81 | the report has id `RPT-<now>`, the form values, the time and exactly four metric rows |
| ReportBuilderComponent.Builder.constructor | src/components/ReportBuilder.tsx:34-36 | the wizard starts on step 0 with no report and the initial form values sales/bar |
| ReportBuilderComponent.Builder.OnUserSelected | src/components/ReportBuilder.tsx:44-47 | a USER_SELECTED event overwrites the user field with the payload id and shows a toast |
| ReportBuilderComponent.Builder.OnProductSelected | src/components/ReportBuilder.tsx:49-52 | a PRODUCT_SELECTED event overwrites the product field with the payload id and shows a toast |
| ReportBuilderComponent.Builder.OnStoreSelection | src/components/ReportBuilder.tsx:58-65 | a store change applies `AutoFill` |
| ReportBuilderComponent.Builder.EditField | src/components/ReportBuilder.tsx:122-160 | a field shown on the current step is edited |
| ReportBuilderComponent.Builder.Next | src/components/ReportBuilder.tsx:140 | step 0 goes to 1 and the invariant is kept |
| ReportBuilderComponent.Builder.Back | src/components/ReportBuilder.tsx:154 | step 1 goes to 0 and the invariant is kept |
| ReportBuilderComponent.Builder.Generate | src/components/ReportBuilder.tsx:70-92 | from step 1 the wizard moves to step 2 holding the report built from the values read, emits exactly one success notification under their title, and shows the result |
| ReportBuilderComponent.Builder.HandleGenerateAsWritten | src/components/ReportBuilder.tsx:67-92 | reading `getFieldsValue()` on step 1, the report holds no title and the notification reads `Report "undefined" generated` |
| ReportBuilderComponent.Builder.HandleGenerate | src/components/ReportBuilder.tsx:67-92 | reading the whole store, the report holds the form values with their title, and the notification carries that title |
| ReportBuilderComponent.AsWrittenLosesTitle | src/components/ReportBuilder.tsx:68-89 | for every form, the step-1 values keep only the two data-source fields and the announcement is `Report "undefined" generated` |
| ReportBuilderComponent.LostTitleExample | src/components/ReportBuilder.tsx:68-89 | with the title `Monthly Sales Report` in the store, the announcement differs from the one that title calls for |
| ReportBuilderComponent.GenerateKeepsTitle | src/components/ReportBuilder.tsx:71-89 | reading the whole store, the report keeps the title `t` and the announcement is `Report "` + `t` + `" generated` |
| ReportBuilderComponent.Builder.HandleExport | src/components/ReportBuilder.tsx:94-101 | a success toast and exactly one info notification; the state is unchanged |
| ReportBuilderComponent.Builder.NewReport | src/components/ReportBuilder.tsx:182 | back to step 0 with no report |
| ReportBuilderComponent.ResultShownOnStepTwo | src/components/ReportBuilder.tsx:162 | under the invariant, the result panel is shown exactly on step 2 |
| ReportBuilderComponent.RoundTrip | src/components/ReportBuilder.tsx:140-182 | Next, Generate, Export and New Report bring the wizard back to step 0 with no report, the form kept, and exactly three effects sent in order: the success notification with the title, the export toast and the export notification |
| SettingsPanelComponent.LeavesDetermineSettings | src/components/SettingsPanel.tsx:9-33 | two settings records with equal leaves are equal |
| SettingsPanelComponent.OrDefault | src/components/SettingsPanel.tsx:134-162 | the falsy fallback: a cleared or zero input gives `d`; any other value is kept |
| SettingsPanelComponent.Apply | src/components/SettingsPanel.tsx:89-196 | each handler sets its own leaf to the new value (with fallbacks) and keeps every other leaf, including appearance and the date format |
| SettingsPanelComponent.ApplyIsTheOneLeafUpdate | src/components/SettingsPanel.tsx:89-196 | any record that changes only the edited leaf to the new value is exactly the handler's result |
| SettingsPanelComponent.NoEditReachesAppearance | src/components/SettingsPanel.tsx:80-202 | no input targets the appearance group or the date format |
| SettingsPanelComponent.ClearedNumbersFallBack | src/components/SettingsPanel.tsx:134-162 | cleared or zero inputs store 30, 5 and 90, the defaults |
| SettingsPanelComponent.EditsKeepAppearance | src/components/SettingsPanel.tsx:80-202 | after any series of edits, appearance and date format keep their values |
| SettingsPanelComponent.UntargetedLeafKept | src/components/SettingsPanel.tsx:89-196 | a leaf that no edit in a series targets keeps its value |
| SettingsPanelComponent.SecurityTabDisabled | src/components/SettingsPanel.tsx:78 | the security tab is disabled iff there is no user or the role is not administrator |
| SettingsPanelComponent.Panel.constructor | src/components/SettingsPanel.tsx:62-63 | the panel starts with the default settings, not loading |
| SettingsPanelComponent.Panel.Change | src/components/SettingsPanel.tsx:89-196 | an input's change applies `Apply`; security inputs require an administrator |
| SettingsPanelComponent.Panel.HandleReset | src/components/SettingsPanel.tsx:73-76 | the settings become the defaults whatever they were, with an info toast |
| SettingsPanelComponent.Panel.StartSave | src/components/SettingsPanel.tsx:67 | saving starts by setting `loading` |
| SettingsPanelComponent.Panel.FinishSave | src/components/SettingsPanel.tsx:69-70 | the success toast is shown and `loading` ends |
| SettingsPanelComponent.Panel.HandleSave | src/components/SettingsPanel.tsx:66-71 | saving never touches the settings, and `loading` is false at the end |

## Left out

- Reading `window.location.pathname` (src/exposes/Remote3App/index.tsx:22, line 14 of the audit router and line 15 of the report and settings routers): the pathname is a parameter.
- React rendering, `React.lazy`/`Suspense`, JSX and the antd components: a rendered view is a `View` tag.
- The route ranking of `BrowserRouter`/`Routes` (src/exposes/App/index.tsx:34-51) is react-router's. `App.ElementFor` gives the element per declared route and does not choose the route.
- The event bus, token bridge, asset resolver, sync store and auth store come from shared packages that are not part of this model.
  - Incoming events are method calls.
  - Outgoing calls are recorded as `Effect` values.
  - The values of the `MFE_EVENTS` names and of `Role.ADMIN` are kept abstract.
- `Date.now`, `new Date`, `toISOString`, `toLocaleString` and `Math.random` are parameters: the clock is `now`, and the random draws are reals in [0, 1).
  - The time is kept as a number, not an ISO string.
  - `toFixed(2)` float formatting is not modelled; the conversion text is a parameter.
- The audit table's timestamp sorter, the date-range picker and `formatDateTime` are left out. They are date parsing and display only.
- Strings.ToLower: folds ASCII letters only. JavaScript's `toLowerCase` folds all of Unicode.
- AuditLogComponent.ActionConfig: does not model an action named like an `Object.prototype` member (`constructor`, `toString`). For those, `configs[action]` is a truthy function in the source, not the fallback.
- The audit entry's free-form `details` object is omitted, since nothing filters or counts on it.
- ReportBuilderComponent.Builder.Next: the wizard's handlers require the step on which their button is rendered (step 0 for Next, 1 for Back and Generate, the result panel for Export and New Report). A hidden button cannot be pressed.
- SettingsPanelComponent.Panel.Change: security inputs require an administrator, because the disabled tab cannot be opened.
- `InputNumber` bounds (`min`/`max`) are enforced by antd and are not modelled. `NaN`, which is falsy like `0`, is not a possible `int`.
- SettingsPanelComponent.Panel.HandleSave: the one-second wait is split into `StartSave` and `FinishSave`. The interleaving of other handlers during the wait is not modelled.
- Stale-closure effects of React state updates (`{ ...settings, ... }` built from a render's snapshot) are not modelled. Each handler applies to the current state.
- JavaScript numbers are modelled as unbounded integers. No counter or id in this core gets near 2^53.
- The communication demo's token preview (`substring(0, 15)`), its asset-resolution card and the static pages and mock tables are display only.

## Findings

| source | as written | input that shows it | evidently intended | confidence | as-written member | corrected member |
|---|---|---|---|---|---|---|
| src/components/ReportBuilder.tsx:68 | `handleGenerate` reads `form.getFieldsValue()`, which returns only the mounted fields. On step 1 these are the two data-source fields, so the report has no title and the notification reads `Report "undefined" generated` | enter the title `Monthly Sales Report` on step 0, press Next, then Generate Report | read the whole store (`getFieldsValue(true)`), so that the report and its notification carry the title typed on step 0 | medium, not executed; rests on antd's documented behaviour of `getFieldsValue()` | ReportBuilderComponent.Builder.HandleGenerateAsWritten | ReportBuilderComponent.Builder.HandleGenerate |

The wizard (`ReportBuilderComponent.Builder`, and `RoundTrip` through it)
uses the corrected handler. `AsWrittenLosesTitle` and `LostTitleExample`
state the discrepancy. `GenerateKeepsTitle` states the intended property.
