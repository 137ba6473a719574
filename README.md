# ExcelViz in Dafny

ExcelViz is a web application. Users upload spreadsheets, pick an X and a Y
column (and a Z column for the 3D chart types), get chart data back, save
charts as analyses, and manage uploads and saved analyses from a dashboard.
This project models the deterministic decisions of that application: the
upload filters, the bearer-token middleware, registration and the two
login handlers, the admin-token check, chart generation and the saved-analysis
store, the page logic that builds and dispatches charts, the 3D trace
construction, and the list updates of the saved-analyses page and the dashboard.

## Layout

Each source file of the core is one module. A few shared modules sit beside them.

- `wrappers.dfy` (`Wrappers`): `Option`.
- `strings.dfy` (`Strings`): `toLowerCase` (ASCII letters only), `startsWith`, `includes`, and `split` on one character, each with its characterising lemmas.
- `js.dfy` (`Js`): truthiness and `||` on optional strings. `undefined`, `null` and `""` are falsy.
- `seqs.dfy` (`Seqs`): `Array.prototype.filter`, with lemmas showing what it keeps, that it keeps order (a subsequence), and how many copies survive (multisets).
- `cells.dfy` (`Cells`): spreadsheet cell values and rows.
- `multer_config.dfy` (`MulterConfig`): `path.extname` on POSIX, and the Excel and PDF upload filters.
- `auth_middleware.dfy` (`AuthMiddleware`): `protect`.
- `auth_controller.dfy` (`AuthController`): `register` (a method on a user store), `login` and `adminLogin`.
- `check_admin_token.dfy` (`CheckAdminToken`): `isAdminTokenValid`.
- `analysis_controller.dfy` (`AnalysisController`): `generateChart` as a function. `saveChart` and `deleteAnalysisById` are methods on an analysis store. `getAnalysisById` is modelled too.
- `chart_canvas3d.dfy` (`ChartCanvas3D`): the traces and title of the 3D component.
- `chart_page.dfy` (`ChartPage`): the chart page. It covers the request guard, the x/y/z fallbacks, the render dispatch, and a page-state class with `generateChart` and `generateSummary`.
- `saved_analyses.dfy` (`SavedAnalyses`): the chart-type mapping, 3D detection, download names, and the page state with `handleDelete`.
- `dashboard.dfy` (`Dashboard`): the display name, the analyze id, the search filter, the server's five-file cap, and the page state with `confirmDelete`.

Library calls are parameters of the functions that use them. This covers `jwt.verify`, `jwt.sign`, `bcrypt.hash`, `bcrypt.compare`, `jwtDecode`, `parseFloat`, and reading the first sheet with `xlsx`. `process.env.JWT_SECRET` and `Date.now()` are parameters too, and so is the id the database gives a new record. A thrown exception is an `Option` result of `None`.

## Notes on the code as written

- The chart-generation endpoint returns one label and one value per row for every chart type. It does not group pie or doughnut rows into counts.
- The chart-generation endpoint never reads a Z column and does not reject a 3D request without one. Only the chart page checks for a Z axis, and it tests for "3D" case-sensitively. The server sends no `zData`, so for 3D types the page uses the Y values as Z (`ChartPage.ServerReplyAxes`).
- `chartType` is not validated. When it is missing, a request with data fails with 500, because `toLowerCase` throws (`AnalysisController.MissingChartTypeIs500`).
- The route for analysis summaries points at a handler that the analysis controller does not export. No summary statistics are modelled.
- The chart page renders the 3D component without a DOM ref, so that component never draws (`ChartCanvas3D.WithoutRefNothingDrawn`).

## Model

| member | source | states |
|---|---|---|
| Strings.ToLower | backend/controllers/authController.js:12 | the result has the input's length and lower-cases each character |
| Strings.ToLowerIdempotent | backend/controllers/authController.js:22 | lower-casing a lower-cased e-mail changes nothing, so stored keys are lower-case |
| Strings.ContainsIff | backend/controllers/analysisController.js:47 | `includes` holds exactly when the text occurs at some index |
| Strings.ContainsEmpty | frontend/src/pages/Dashboard.jsx:115 | every string includes the empty string |
| Strings.Before | backend/middlewares/authMiddleware.js:12 | the text before the first separator is a prefix free of the separator, and ends at the separator or at the end |
| Strings.SplitOn | backend/middlewares/authMiddleware.js:12 | `split` always yields at least one field |
| Strings.SplitFirst | backend/middlewares/authMiddleware.js:12 | the first field of a split is the text before the first separator |
| Strings.SplitAfter | backend/middlewares/authMiddleware.js:12 | splitting `p + sep + q`, where `p` has no separator, gives `p` followed by the fields of `q` |
| Seqs.Filter | frontend/src/pages/Dashboard.jsx:114-116 | the result is no longer than the input, and everything in it is from the input and satisfies the predicate |
| Seqs.FilterIsSubseq | frontend/src/pages/SavedAnalyses.jsx:133 | filtering keeps the relative order of what it keeps |
| Seqs.FilterMultiset | frontend/src/pages/SavedAnalyses.jsx:133 | every value that satisfies the predicate keeps all its copies; every other value keeps none |
| Seqs.FilterMembers | frontend/src/pages/Dashboard.jsx:114-116 | an element is kept exactly when it is in the input and satisfies the predicate |
| Seqs.FilterAll | frontend/src/pages/Dashboard.jsx:114-116 | when every element satisfies the predicate, filtering returns the input |
| Seqs.FilterRemovesOne | frontend/src/pages/Dashboard.jsx:98 | when exactly one element fails the predicate, filtering removes just that element |
| Seqs.FilterConcat | frontend/src/pages/Dashboard.jsx:98 | filtering a concatenation is the concatenation of the filtered parts |
| Seqs.FilterKeepsFront | frontend/src/pages/Dashboard.jsx:98 | a prefix whose elements all satisfy the predicate is kept whole |
| Seqs.FilterDropsAt | frontend/src/pages/Dashboard.jsx:98 | a suffix that fails the predicate only at its first element loses just that element |
| MulterConfig.TrimTrailingSlashes | backend/middlewares/multerConfig.js:9 | the result is a prefix with no trailing '/', and a path without one is unchanged |
| MulterConfig.LastSegment | backend/middlewares/multerConfig.js:9 | the last path segment contains no '/' and only characters of the path |
| MulterConfig.LastDot | backend/middlewares/multerConfig.js:9 | there is no index exactly when there is no '.'; otherwise it is a '.' with no '.' after it |
| MulterConfig.LastDotIs | backend/middlewares/multerConfig.js:9 | a '.' with no '.' after it is the last dot |
| MulterConfig.Extname | backend/middlewares/multerConfig.js:9 | an extension is empty, or starts with its only '.' and contains no '/' |
| MulterConfig.SegmentExtension | backend/middlewares/multerConfig.js:9 | the extension of one segment is empty, or starts with its only '.' |
| MulterConfig.LastSegmentAppend | backend/middlewares/multerConfig.js:9 | appending slash-free text extends the last segment by that text |
| MulterConfig.LastDotAfter | backend/middlewares/multerConfig.js:9 | in `x + "." + e` with a dot-free `e`, the last dot is at index `|x|` |
| MulterConfig.ExtnameOfDotted | backend/middlewares/multerConfig.js:9 | the extension of `stem.e` is `.e`, except when the dot begins the last segment, or the segment is ".." |
| MulterConfig.LastSegmentOfDotted | backend/middlewares/multerConfig.js:9 | the last segment of `stem.e` is the last segment of `stem` followed by `.e` |
| MulterConfig.SegmentExtensionOfDotted | backend/middlewares/multerConfig.js:9 | the extension of a segment `seg.e` is `.e`, unless `seg` is empty or the segment is ".." |
| MulterConfig.NoDotNoExtname | backend/middlewares/multerConfig.js:9 | a name without '.' has no extension |
| MulterConfig.ExcelFileFilter | backend/middlewares/multerConfig.js:8-14 | accepts exactly the extensions ".xls" and ".xlsx"; a rejection carries the Excel-only error and an acceptance no error |
| MulterConfig.PdfFileFilter | backend/middlewares/multerConfig.js:18-23 | accepts exactly the MIME type "application/pdf"; a rejection carries the PDF-only error |
| MulterConfig.ExcelFilterOnDotted | backend/middlewares/multerConfig.js:9-13 | a name ending in `.e` is accepted exactly when `e` is "xls" or "xlsx" and the dot does not begin the last segment |
| MulterConfig.DottedIsExcel | backend/middlewares/multerConfig.js:10 | the extension test on `.e` reduces to the test on `e` |
| MulterConfig.ExcelFilterRejectsNoDot | backend/middlewares/multerConfig.js:9-11 | a name without a dot is rejected |
| MulterConfig.ExcelFilterRejectsUpperCase | backend/middlewares/multerConfig.js:10 | "DATA.XLSX" is rejected, because the comparison is case-sensitive |
| MulterConfig.ExcelFilterAcceptsInnerDots | backend/middlewares/multerConfig.js:9-13 | "a.b.xlsx" is accepted |
| MulterConfig.ExcelFilterRejectsInnerExtension | backend/middlewares/multerConfig.js:9-11 | "a.xlsx.exe" is rejected |
| MulterConfig.ExcelFilterRejectsDotFile | backend/middlewares/multerConfig.js:9-11 | ".xlsx" is rejected, because a leading dot starts no extension |
| AuthMiddleware.BearerToken | backend/middlewares/authMiddleware.js:12 | the token is the text after "Bearer " up to the next space |
| AuthMiddleware.Normalize | backend/middlewares/authMiddleware.js:26-31 | `req.user` takes the id from `id`, `_id` then `userId`; the e-mail or ""; the role or "user"; the name from `userName`, `name` or "" |
| AuthMiddleware.Protect | backend/middlewares/authMiddleware.js:3-39 | `next` runs exactly when the header starts with "Bearer ", the secret is set, and the token verifies to claims naming a user; a missing or non-"Bearer " header is 401 with the no-token message; 500 exactly for a missing secret after a good header, with the missing-secret message; every other rejection is 401 |
| AuthMiddleware.NoBearerIs401 | backend/middlewares/authMiddleware.js:7-10 | a missing or non-"Bearer " header is a 401, whatever the secret and the verifier |
| AuthMiddleware.SchemeIsCaseSensitive | backend/middlewares/authMiddleware.js:7 | "bearer abc" and "Bearer" are both rejected with 401 |
| AuthMiddleware.OnlyTokenIsVerified | backend/middlewares/authMiddleware.js:12-19 | only the second space-separated field reaches the verifier |
| AuthMiddleware.TokenExample | backend/middlewares/authMiddleware.js:12 | "Bearer abc def" yields the token "abc" |
| AuthMiddleware.BadTokensAre401 | backend/middlewares/authMiddleware.js:19-24 | a failed verification and claims without a user id are both 401s, with their own messages |
| AuthController.Issue | backend/controllers/authController.js:29-49 | the reply carries the signed token and the same id, name, e-mail and role; a signing failure is a 500 |
| AuthController.StoredRole | backend/controllers/authController.js:17 | the stored role is "admin" exactly when "admin" was asked for, and "user" otherwise |
| AuthController.RegisterDecision | backend/controllers/authController.js:4-55 | a missing field gives 400, and an existing lower-cased e-mail gives 400; otherwise the user is inserted with the lower-cased e-mail, the hashed password, the normalised role and not blocked, and receives a 201 token |
| AuthController.Login | backend/controllers/authController.js:57-105 | a missing field gives 400 and an unknown lower-cased e-mail 401; for a known user, blocked gives 403, a wrong password 401, and otherwise a 200 reply issued for that user (500 if signing fails); every success carries the token signed over that user's claims and those claims |
| AuthController.AdminLogin | backend/controllers/authController.js:107-155 | a missing field gives 400; an unknown user or a non-admin gets 403; for an admin, blocked gives 403, a wrong password 401, and otherwise a 200 reply issued for that user (500 if signing fails); every success is an unblocked admin with the right password and carries the token signed over its claims |
| AuthController.BlockedBeatsPassword | backend/controllers/authController.js:70-78 | a blocked user gets 403 whether or not the password matches |
| AuthController.UnknownAndWrongPasswordAlike | backend/controllers/authController.js:65-78 | the 401 reply comes exactly from an unknown e-mail or from an unblocked user with a wrong password, and the two cannot be told apart |
| AuthController.NonAdminRefusedFirst | backend/controllers/authController.js:115-118 | an unknown user or a non-admin gets 403 before the blocked and password checks |
| AuthController.AdminLoginImpliesLogin | backend/controllers/authController.js:107-149 | whatever an admin login grants, a plain login grants identically |
| AuthController.LoginIgnoresEmailCase | backend/controllers/authController.js:65 | e-mails that lower-case alike log in identically |
| AuthController.UserStore.Register | backend/controllers/authController.js:4-55 | the reply and the new store follow the registration decision; the store keeps every key equal to a lower-case e-mail; a user saved before a signing failure stays stored |
| AuthController.RegisterThenLogin | backend/controllers/authController.js:12-27 | after a registration, a login with any casing of the e-mail and the same password issues a token for the new user |
| AuthController.InsertKeepsValid | backend/controllers/authController.js:12-27 | storing a user under its own lower-case e-mail keeps every key equal to a lower-case stored e-mail |
| AuthController.LoginStored | backend/controllers/authController.js:65-98 | a stored, unblocked user with the right password, found under the lower-cased e-mail, gets a 200 token for its own claims |
| AuthController.UserStore.constructor | backend/controllers/authController.js:3 | the user store starts empty, and so valid |
| CheckAdminToken.IsAdminTokenValid | frontend/src/utils/checkAdminToken.js:4-20 | valid exactly when a token is stored, it decodes, it has not expired (a missing or zero `exp` never expires), and its role is "admin" |
| CheckAdminToken.Expired | frontend/src/utils/checkAdminToken.js:11 | a missing or zero `exp` never expires; any other `exp` has expired exactly when it is earlier than now |
| CheckAdminToken.ExpiryBoundary | frontend/src/utils/checkAdminToken.js:10-14 | a token expiring exactly now is valid, and one second later it is not |
| CheckAdminToken.NoExpiryOnlyRole | frontend/src/utils/checkAdminToken.js:11-15 | without an expiry only the role decides |
| AnalysisController.Labels | backend/controllers/analysisController.js:32 | one label per row, in order; a missing cell becomes "N/A" |
| AnalysisController.Values | backend/controllers/analysisController.js:33-36 | one value per row, in order; an unparsable cell becomes 0 |
| AnalysisController.Shape | backend/controllers/analysisController.js:32-50 | labels and values are the per-row labels and numbers, one per row; the legend is the title, else the Y column, else "Data"; `fill` is off exactly when the lower-cased type contains "line"; the colours and a border width of 1 |
| AnalysisController.GenerateChart | backend/controllers/analysisController.js:6-57 | a missing file id or axis gives 400; a file that is absent or not the caller's gives 404; a record without a buffer 404; an unreadable workbook 500; zero rows 400; rows without a chart type 500; otherwise 200 with exactly the shaped rows, and a chart is returned only on that path |
| AnalysisController.ValidationBeforeLookup | backend/controllers/analysisController.js:10-14 | a missing field gives 400, whatever the store and the decoder hold |
| AnalysisController.ForeignFileLooksMissing | backend/controllers/analysisController.js:14-17 | another user's file is answered exactly like an absent one (404) |
| AnalysisController.MissingBufferIs404 | backend/controllers/analysisController.js:19-21 | a record without a buffer gives 404 |
| AnalysisController.EmptySheetIs400 | backend/controllers/analysisController.js:28-30 | zero data rows give 400 |
| AnalysisController.MissingChartTypeIs500 | backend/controllers/analysisController.js:47 | without a chart type no chart is returned, and a request that reaches shaping fails with 500 |
| AnalysisController.ChartFollowsRows | backend/controllers/analysisController.js:32-36 | labels and values follow the rows one to one; only an absent X cell becomes "N/A"; an unparsable Y cell becomes 0 |
| AnalysisController.DatasetLabel | backend/controllers/analysisController.js:42 | the dataset label is the title when non-empty and the Y column otherwise, never empty |
| AnalysisController.FillUnlessLine | backend/controllers/analysisController.js:47 | `fill` is off exactly when the lower-cased type contains "line" |
| AnalysisController.AccessStatus | backend/controllers/analysisController.js:100-108 | 200 exactly for an existing record of the caller, 404 exactly for a missing one, 403 otherwise |
| AnalysisController.GetAnalysisById | backend/controllers/analysisController.js:98-115 | the status is the access status; the analysis is returned exactly on 200, and it is the stored record; 404 carries the not-found message and 403 the access message |
| AnalysisController.StoredIsReadableByOwnerOnly | backend/controllers/analysisController.js:98-110 | a stored analysis is returned to its owner and refused with 403 to anyone else |
| AnalysisController.RemovedIsNotFound | backend/controllers/analysisController.js:100-104 | a removed analysis gives 404 to everyone |
| AnalysisController.AnalysisStore.constructor | backend/models/Analysis.js:3-13 | the analysis collection starts empty |
| AnalysisController.AnalysisStore.SaveChart | backend/controllers/analysisController.js:60-84 | a missing field gives 400 and stores nothing; otherwise the caller's analysis is stored under the new id with 201; a taken id stores nothing |
| AnalysisController.AnalysisStore.DeleteAnalysisById | backend/controllers/analysisController.js:118-136 | the status follows the ownership check, with the not-found and not-allowed messages; only a 200 removes the record, and no other record changes |
| ChartCanvas3D.Bars | frontend/src/components/chartcanvas3D.jsx:42-58 | one bar per x value, in order, bar i rising from 0 to z_i at (x_i, y_i) with line width 8 and marker size 3 |
| ChartCanvas3D.Traces | frontend/src/components/chartcanvas3D.jsx:16-59 | line mode gives one trace carrying the three arrays, coloured by z, with line width 4 and marker size 6; bar mode gives one bar per x value, bar i built from x_i |
| ChartCanvas3D.Render | frontend/src/components/chartcanvas3D.jsx:5-106 | something is drawn exactly with a DOM node and all three arrays; the title defaults to "3D Chart" |
| ChartCanvas3D.LineModeOneTrace | frontend/src/components/chartcanvas3D.jsx:16-40 | a type containing "line" draws one trace with the three arrays, coloured by z |
| ChartCanvas3D.BarModeOneTracePerPoint | frontend/src/components/chartcanvas3D.jsx:41-59 | any other type draws one vertical trace per point, coloured by its z |
| ChartCanvas3D.ModeIgnoresCase | frontend/src/components/chartcanvas3D.jsx:16 | the mode depends only on the lower-cased type |
| ChartCanvas3D.WithoutRefNothingDrawn | frontend/src/components/chartcanvas3D.jsx:6-14 | without a ref nothing is drawn |
| ChartPage.ZAxisSent | frontend/src/pages/ChartPage.jsx:98 | a Z axis is sent exactly for types containing "3D" |
| ChartPage.AxesReady | frontend/src/pages/ChartPage.jsx:83 | a 3D type needs a Z axis; any other type is ready exactly when a file and both axes are chosen |
| ChartPage.XData | frontend/src/pages/ChartPage.jsx:106 | the reply's own X array when there is one, even empty, otherwise the labels |
| ChartPage.YData | frontend/src/pages/ChartPage.jsx:107 | the reply's own Y array, else the first dataset's data, else empty |
| ChartPage.ZData | frontend/src/pages/ChartPage.jsx:108-112 | empty for 2D types; for 3D types the reply's non-empty Z array, otherwise the Y data |
| ChartPage.BuildChart | frontend/src/pages/ChartPage.jsx:105-157 | the chart keeps the reply's labels and first dataset, draws a line exactly for "Line Chart", carries the X, Y and Z data, and is titled by the title or "Your Chart" (never empty) with the axis names as axis titles |
| ChartPage.FromServer | backend/controllers/analysisController.js:38-52 | the server's reply has no top-level axis arrays and one dataset, with the chart's labels, values, legend and fill |
| ChartPage.Nums | backend/controllers/analysisController.js:43 | the JSON array has one number per dataset value |
| ChartPage.ServerReplyAxes | frontend/src/pages/ChartPage.jsx:105-112 | for a server reply, X is the labels, Y the dataset values, and Z a copy of Y for 3D types and empty otherwise |
| ChartPage.RenderChart | frontend/src/pages/ChartPage.jsx:225-257 | nothing is rendered exactly without chart data; otherwise each of the six type names gets its own view, both 3D names get the 3D component, and every other name is unsupported |
| ChartPage.RenderDispatch | frontend/src/pages/ChartPage.jsx:236-256 | only "3D Bar Chart" and "3D Line Chart" reach the 3D component; "3D Pie Chart" is unsupported |
| ChartPage.ThreeDHeightsAreY | frontend/src/pages/ChartPage.jsx:108-112 | on a server reply, the 3D traces take their heights from the Y values |
| ChartPage.Is3DHasD | frontend/src/pages/ChartPage.jsx:83 | the 3D test needs a capital 'D' |
| ChartPage.ThreeDCheckIsCaseSensitive | frontend/src/pages/ChartPage.jsx:83 | "3d bar chart" needs no Z axis but "3D Bar Chart" does |
| ChartPage.ChartPageState.constructor | frontend/src/pages/ChartPage.jsx:31-43 | the initial page state, with "Bar Chart" selected |
| ChartPage.ChartPageState.GenerateChart | frontend/src/pages/ChartPage.jsx:82-166 | a request is sent exactly when the axes are ready; the chart data becomes the built chart only on a reply; loading ends false |
| ChartPage.SummaryReady | frontend/src/pages/ChartPage.jsx:192 | a summary needs a chart and a title, and with both it needs exactly a file, a type and both axes |
| ChartPage.ChartPageState.GenerateSummary | frontend/src/pages/ChartPage.jsx:191-223 | a request is sent exactly when file, title, type, both axes and a chart exist; the summary is set only on a reply |
| SavedAnalyses.ChartJsTypeMapping | frontend/src/pages/SavedAnalyses.jsx:56-62 | the four names map to pie, bar, line and doughnut whatever their case; any other name maps to its lower-case form |
| SavedAnalyses.ChartJsType | frontend/src/pages/SavedAnalyses.jsx:56-62 | the mapped type is one of the four Chart.js names or the lower-cased type, and a name outside the map is just lower-cased |
| SavedAnalyses.ChartJsTypeExample | frontend/src/pages/SavedAnalyses.jsx:56-62 | "Pie Chart" becomes "pie" |
| SavedAnalyses.ChartJsTypeIdempotent | frontend/src/pages/SavedAnalyses.jsx:56-62 | the mapped type is lower-case and maps to itself |
| SavedAnalyses.LowerFixed | frontend/src/pages/SavedAnalyses.jsx:57-60 | text without capital letters, such as the four Chart.js type names, is its own lower-case form |
| SavedAnalyses.ViewOf | frontend/src/pages/SavedAnalyses.jsx:49-89 | 3D types get the 3D component; the rest get a Chart.js chart of the mapped type, titled by the title or "Analysis Chart" |
| SavedAnalyses.Is3DOccurs | frontend/src/pages/SavedAnalyses.jsx:236 | a type is 3D exactly when "3d" occurs in its lower-cased name |
| SavedAnalyses.Is3DIgnoresCase | frontend/src/pages/SavedAnalyses.jsx:236 | the 3D test ignores case |
| SavedAnalyses.Is3DExample | frontend/src/pages/SavedAnalyses.jsx:236 | "3D Bar Chart" is 3D |
| SavedAnalyses.Is3DWhenLeading | frontend/src/pages/SavedAnalyses.jsx:236 | a type whose name starts with "3D" or "3d" is 3D |
| SavedAnalyses.DownloadName | frontend/src/pages/SavedAnalyses.jsx:99 | the file name is the title, or "chart" when the title is empty, followed by the extension |
| SavedAnalyses.DownloadNameShape | frontend/src/pages/SavedAnalyses.jsx:118 | the name ends with the extension, and starts with the title or is "chart" plus the extension |
| SavedAnalyses.Remaining | frontend/src/pages/SavedAnalyses.jsx:133 | an entry survives a delete exactly when it was listed and has another id; the list does not grow |
| SavedAnalyses.RemainingIsExact | frontend/src/pages/SavedAnalyses.jsx:133 | a delete removes exactly the entries with that id; the others keep all their copies, in order |
| SavedAnalyses.SavedAnalysesPage.constructor | frontend/src/pages/SavedAnalyses.jsx:12-24 | the page starts with no analyses, no pending delete and no selection |
| SavedAnalyses.SavedAnalysesPage.Load | frontend/src/pages/SavedAnalyses.jsx:38 | the list becomes the history, or empty |
| SavedAnalyses.SavedAnalysesPage.ConfirmDelete | frontend/src/pages/SavedAnalyses.jsx:26-28 | the pending delete becomes the id |
| SavedAnalyses.SavedAnalysesPage.HandleDelete | frontend/src/pages/SavedAnalyses.jsx:125-142 | a success filters the list and clears the pending delete, and clears the selection only when it was the deleted entry; a failure changes nothing |
| Dashboard.RecentFiles | backend/controllers/uploadController.js:75-78 | the newest files, at most five, as a prefix of the newest-first list |
| Dashboard.ResolveUserName | frontend/src/pages/Dashboard.jsx:26-39 | the stored name unless it is missing, empty or "undefined"; then `userName`, `name` or "User"; a decode failure gives "User"; never empty |
| Dashboard.UndefinedNameIsMissing | frontend/src/pages/Dashboard.jsx:27 | a stored "undefined" counts as no name |
| Dashboard.AnalyzeFileId | frontend/src/pages/Dashboard.jsx:77 | the id passed on is a non-empty `_id`, else a non-empty `id`, else null |
| Dashboard.FilteredFiles | frontend/src/pages/Dashboard.jsx:114-116 | a file is shown exactly when it is listed and its lower-cased name contains the lower-cased term; the list does not grow |
| Dashboard.FilteredFilesExact | frontend/src/pages/Dashboard.jsx:114-116 | the filtered list keeps, in order and with all copies, exactly the files whose lower-cased name contains the lower-cased term |
| Dashboard.EmptyTermKeepsAll | frontend/src/pages/Dashboard.jsx:114-116 | an empty term keeps every file |
| Dashboard.FilterIgnoresTermCase | frontend/src/pages/Dashboard.jsx:115 | terms that lower-case alike select the same files |
| Dashboard.Decrement | frontend/src/pages/Dashboard.jsx:99 | the counter drops by one and never goes below 0 |
| Dashboard.AfterDelete | frontend/src/pages/Dashboard.jsx:98 | a file survives exactly when it is listed and its `_id \|\| id` differs from the deleted `_id`; the list does not grow |
| Dashboard.AfterDeleteExact | frontend/src/pages/Dashboard.jsx:98 | the files whose `_id \|\| id` equals the deleted `_id` are removed, and no others |
| Dashboard.AfterDeleteOne | frontend/src/pages/Dashboard.jsx:98-99 | when exactly one file has the key, just that file goes and the list shrinks by exactly as much as the counter |
| Dashboard.AfterDeleteNone | frontend/src/pages/Dashboard.jsx:98 | a key that matches no file keeps the list |
| Dashboard.SharedKeyDrifts | frontend/src/pages/Dashboard.jsx:98-99 | two listed files sharing the deleted key both go while the counter drops by one, so the counter no longer matches the list |
| Dashboard.DashboardState.constructor | frontend/src/pages/Dashboard.jsx:11-17 | the page starts empty with both counters at 0, so "Files Uploaded" matches the list |
| Dashboard.DashboardState.Load | frontend/src/pages/Dashboard.jsx:55-57 | on a reply, the list is the files or empty, "Files Uploaded" is its length, and the chart count is the count or 0; a failure changes nothing; afterwards the counter matches the list whenever it did before or a reply came |
| Dashboard.DashboardState.AskDelete | frontend/src/pages/Dashboard.jsx:83-85 | the pending file becomes the chosen file |
| Dashboard.DashboardState.ConfirmDelete | frontend/src/pages/Dashboard.jsx:87-107 | with no pending file nothing changes; a success filters the list by key and decrements the counter; a failure keeps both; the pending file is cleared either way; a counter that matched the list still matches when exactly one listed file had the deleted key |

## Left out

- Unicode case mapping: `toLowerCase` is modelled on the ASCII letters A-Z only.
- `null` and `undefined` are not told apart. A spreadsheet cell that is null or missing is `Absent`, and an optional string that is null or missing is `None`.
- JavaScript object lookups that hit inherited properties are not modelled. An example is a chart type whose lower-cased form is "constructor", for which the type map returns a function.
- Reading a workbook (`xlsx`), `parseFloat`, JWT signing and verification, bcrypt, and `jwtDecode`/`atob`/`JSON.parse` are parameters, not defined here. Floating-point numbers are Dafny reals.
- The database is left out. The stores are maps keyed by id or e-mail, a new record's id is a parameter, and ObjectId cast errors are not modelled. backend/models/User.js is not part of this model.
- A duplicate e-mail in `register` is decided by the lookup alone. A concurrent insert racing it is not modelled.
- Random colours, Chart.js and Plotly drawing, the chart options' colours and fonts, and PNG/PDF export are left out. Only the download file names are modelled.
- `getUserChartHistory`, `getUserStats` and the upload controller's list and download handlers are left out. They are database queries with no branching beyond not-found. Only the five-file cap of `getRecentFiles` is modelled.
- The chart page's `saveAnalysis`, file listing and column fetching are left out. They are requests with no decisions.
- AI summaries are left out. They are network calls, and the summary route's handler is not exported. `ChartPage.ChartPageState.GenerateSummary` models only the guard and the state update.
- `ChartPage.ChartPageState.GenerateChart` does not model the separate `setLoading(true)` render between sending and replying.
- The admin pages' search filters repeat the dashboard filter and are covered by `Dashboard.FilteredFilesExact`.
- Dashboard.DashboardState.ConfirmDelete: keeps "Files Uploaded" equal to the list length only when exactly one listed file has the deleted key, because the counter drops by one however many files the filter removes, none or several (`Dashboard.SharedKeyDrifts`).
- Navigation, toasts, alerts, logout and local-storage writes are left out.
- Startup, database connection and signal handling are I/O and are left out.
