# gplan core, modelled in Dafny

gplan turns a text prompt into a spreadsheet. A text generator returns a JSON
description of a workbook. The backend validates that description, renders it
with ExcelJS as `.xlsx` or `.csv`, and charges credits for it. An admin
dashboard reports on users and payments.

This project models the parts of that system that decide something:

- **Schema validation.** The structural contract of a generated spreadsheet
  (the zod bounds of `spreadsheetSchema`) and the semantic checker:
  - duplicate column keys;
  - unknown row keys;
  - unsafe formulas, where the blocked-pattern regexes become explicit scanners;
  - unknown sheet references, where the reference regex becomes an explicit scanner;
  - the issue formatter.
- **Request validation.** The stricter validators of the process and
  download requests.
- **Rendering decisions.** What `createWorkbook` decides before calling
  ExcelJS, modelled as a render plan:
  - colours and the theme;
  - column defaults;
  - title, header, merge and filter ranges;
  - freeze panes;
  - cell contents, row fills and number formats;
  - the export writer.
- **The controller.** The generator's answer for a prompt, passed on, plus the
  file name and MIME type of a download.
- **The rate limiter.** A fixed-window limiter, as a step function over a
  map from client keys to entries. The clock is a parameter.
- **The ledger.** Credit consumption, credit purchases and the payment
  webhook, as transitions over users, a transaction log and subscriptions.
- **Admin helpers:**
  - the query parsing of the user listing;
  - the pure post-processing of the dashboard queries;
  - the administrator e-mail list;
  - the frontend's cookie lookup.

Every module is made of pure functions over immutable datatypes. The shared
modules provide the rest:

- `Wrappers`: `Option` and `Result`.
- `JsText`: JavaScript's `trim`, UTF-16 `.length`, `slice`, ASCII `toLowerCase`,
  number printing and `join`.
- `JsMath`: `Math.ceil` of a quotient, `Math.abs` and `Math.max`.
- `Collections`: a `Set` kept in insertion order.
- `SheetSchema`: the workbook description and JavaScript numbers (finite, ±Infinity or NaN).

Where descriptions of the system and its code differ, the model follows the code,
with one exception recorded under "## Findings" (the last column's letter in the
title merge and the auto-filter range):

- The generator's answer is parsed once. There is no text recovery and no
  repair retry (`backend/src/providers/AIProvider.ts` is a plain `JSON.parse`).
- Sheet names reach ExcelJS unchanged. The code neither sanitises nor
  de-duplicates them.
- `requestSchemas.ts` declares validators that differ from the generated-schema
  contract. `RequestRules` models them as written, and two lemmas record where
  the two contracts disagree.

## Model

| member | source | states |
|---|---|---|
| StructuralRules.SchemaViolations | backend/src/validators/spreadsheetSchema.ts:60-67 | No violation is reported exactly when the whole structural contract holds: 1..8 valid sheets, valid theme and strict metadata, trimmed title of at most 150 and description of at most 500 units, and a digits-dot-digits version |
| StructuralRules.SheetViolations | backend/src/validators/spreadsheetSchema.ts:35-42 | A sheet passes iff its trimmed name has 1..80 units, it has 1..200 valid columns and at most 10000 valid rows, and its freeze panes are valid |
| StructuralRules.ColumnViolations | backend/src/validators/spreadsheetSchema.ts:22-29 | A column passes iff header and key trim to 1..120 units, the width is in 5..300, format and type trim to at most 32, and the alignment is left/center/right |
| StructuralRules.CellViolations | backend/src/validators/spreadsheetSchema.ts:5-20 | A cell passes iff it is a string of at most 20000 units, a finite number, a boolean or null, or a strict formula object whose trimmed formula has 1..1024 units and whose result is such a primitive |
| StructuralRules.ThemeViolations | backend/src/validators/spreadsheetSchema.ts:44-50 | A theme passes iff every colour given is at most 9 units and is an optional `#` followed by 6 or 8 hex digits |
| StructuralRules.MetadataViolations | backend/src/validators/spreadsheetSchema.ts:52-58 | Metadata passes iff it has no unknown keys, its texts are within their trimmed bounds, the fiscal month is an integer 1..12 and the mode is standard/corporate |
| StructuralRules.Parse | backend/src/validators/spreadsheetSchema.ts:60-67 | Parsing succeeds exactly when the contract holds, and then yields the normalised (trimmed) schema; a failure lists at least one violation |
| StructuralRules.ParseIdempotent | backend/src/validators/spreadsheetSchema.ts:60-67 | Parsing the result of a successful parse succeeds again, with the same result |
| StructuralRules.NormalizeIdempotent | backend/src/validators/spreadsheetSchema.ts:12-67 | Trimming the fields zod trims is idempotent |
| StructuralRules.NormalizeAccepted | backend/src/validators/spreadsheetSchema.ts:60-67 | The normal form of an accepted schema is accepted too |
| StructuralRules.DefaultVersionMatches | backend/src/validators/spreadsheetSchema.ts:61 | The default schema version "1.0" satisfies its own digits-dot-digits pattern |
| FormulaSafety.TestBlocked | backend/src/validators/spreadsheetSchema.ts:77-81 | Scanning every start position finds a match exactly when some blocked pattern matches at a word boundary |
| FormulaSafety.BlockedIgnoresNonWordPrefixes | backend/src/validators/spreadsheetSchema.ts:77-81 | A prefix free of word characters neither creates nor hides a blocked pattern |
| FormulaSafety.BlockedIgnoresLeadingEquals | backend/src/validators/spreadsheetSchema.ts:119-120 | Dropping one leading `=` and re-trimming never changes whether a pattern matches |
| FormulaSafety.DangerousIffTrimmedText | backend/src/validators/spreadsheetSchema.ts:109-121 | A formula is dangerous iff its trimmed text is blank, holds CR, LF or NUL, or matches a blocked pattern |
| FormulaSafety.DangerousIgnoresSurroundingSpace | backend/src/validators/spreadsheetSchema.ts:169-170 | Trimming before the test, as the checker does, never changes the verdict |
| SheetReferences.MatchAtSpec | backend/src/validators/spreadsheetSchema.ts:94 | The anchored matcher succeeds iff the quoted or the unquoted alternative matches there, and it captures that alternative's group |
| SheetReferences.ExtractShape | backend/src/validators/spreadsheetSchema.ts:92-107 | The references are distinct, and each is non-empty, trimmed and free of quotes |
| SheetReferences.ExtractMembers | backend/src/validators/spreadsheetSchema.ts:97-104 | A name is a reference iff it is the non-blank trim of some capture of the global search |
| SheetReferences.NoBangNoReferences | backend/src/validators/spreadsheetSchema.ts:94 | A formula without `!` refers to no sheet |
| SheetReferences.FirstCaptureFirstReference | backend/src/validators/spreadsheetSchema.ts:97-106 | A non-blank first capture is the first reference, in insertion order |
| SheetReferences.LeadingPlainReference | backend/src/validators/spreadsheetSchema.ts:94 | `Name!rest` with a plain name refers first to that name, trimmed |
| SheetReferences.LeadingQuotedReference | backend/src/validators/spreadsheetSchema.ts:94 | `'Name'!rest` refers first to that name, trimmed |
| SemanticRules.CheckColumns | backend/src/validators/spreadsheetSchema.ts:139-152 | The column loop yields one issue per column whose key appeared earlier, and ends with the set of all column keys |
| SemanticRules.DuplicateIssuesCount | backend/src/validators/spreadsheetSchema.ts:141-152 | Duplicate-key issues plus distinct keys add up to the number of columns: each column is either flagged or new |
| SemanticRules.CheckRow | backend/src/validators/spreadsheetSchema.ts:155-189 | The pass over one row's keys pushes exactly the issues of those keys, in key order |
| SemanticRules.CheckRows | backend/src/validators/spreadsheetSchema.ts:154-190 | The pass over a sheet's rows pushes exactly the rows' issues, in row order |
| SemanticRules.ValidateSpreadsheetSemantics | backend/src/validators/spreadsheetSchema.ts:134-194 | The nested loops compute the issue list sheet by sheet, columns before rows, with no short-circuit |
| SemanticRules.SemanticIssuesEmptyIff | backend/src/validators/spreadsheetSchema.ts:134-194 | No issue is reported iff every sheet has distinct column keys and every row key names a column and every formula is safe with existing references |
| SemanticRules.SheetIssuesColumnsFirst | backend/src/validators/spreadsheetSchema.ts:141-154 | Within a sheet every duplicate-key issue precedes every row issue |
| SemanticRules.RowsIssuesCodes | backend/src/validators/spreadsheetSchema.ts:154-190 | Row checks never produce a duplicate-key issue |
| SemanticRules.UnsafeFormulaReported | backend/src/validators/spreadsheetSchema.ts:169-177 | A dangerous formula yields exactly one UNSAFE_FORMULA issue and no reference issue |
| SemanticRules.SafeFormulaReferencesReported | backend/src/validators/spreadsheetSchema.ts:179-188 | A safe formula yields one UNKNOWN_SHEET_REFERENCE per distinct referenced name missing from the schema, and nothing else |
| SemanticRules.ReferenceIssuesReport | backend/src/validators/spreadsheetSchema.ts:180-188 | A missing sheet is reported iff it is referenced and not a sheet name; no report iff all references exist |
| SemanticRules.FormatSemanticIssues | backend/src/validators/spreadsheetSchema.ts:123-126 | The empty list formats as the empty text |
| SemanticRules.FormatStartsWithFirstIssue | backend/src/validators/spreadsheetSchema.ts:128-131 | With a positive limit the text starts with the first issue as `path: message` |
| SemanticRules.FormatLength | backend/src/validators/spreadsheetSchema.ts:128-131 | For a positive limit the text is the renderings of the first min(limit, n) issues, in order, joined by ` \| `, and so its length is theirs plus three per separator |
| SemanticRules.FormatNegativeLimitEmpty | backend/src/validators/spreadsheetSchema.ts:129 | A limit at or below minus the count shows nothing, as `slice` does |
| SemanticRules.FormatIgnoresIssuesBeyondLimit | backend/src/validators/spreadsheetSchema.ts:129 | Appending an issue beyond a non-negative limit leaves the text unchanged |
| RequestRules.ParseFileFormat | backend/src/validators/requestSchemas.ts:45 | The format parses iff it is missing, `xlsx` or `csv`; a missing format is `xlsx` |
| RequestRules.ParseDownload | backend/src/validators/requestSchemas.ts:3-52 | A download parses iff the strict request, schema, sheet, column, value and theme rules all hold, and keeps the schema unchanged |
| RequestRules.DownloadRoundTrip | backend/src/validators/requestSchemas.ts:44-52 | A parsed download, written back with its format spelled out, parses to itself |
| RequestRules.DownloadFormatDefault | backend/src/validators/requestSchemas.ts:45 | Leaving the format out is the same as asking for `xlsx` |
| RequestRules.ParseProcess | backend/src/validators/requestSchemas.ts:40-42 | A prompt request parses iff it has no other key and its trimmed prompt has 3..3000 units, and yields that trimmed prompt |
| RequestRules.ProcessIdempotent | backend/src/validators/requestSchemas.ts:40-42 | A parsed prompt parses to itself again |
| RequestRules.KeyIsTrimmed | backend/src/validators/requestSchemas.ts:15 | A key of identifier characters is its own trim, so the two contracts read it alike |
| RequestRules.DownloadCountsWithinContract | backend/src/validators/requestSchemas.ts:13-52 | Every count and length bound of an accepted download lies inside the generated-schema contract's |
| RequestRules.BlankFormulaPassesRequestOnly | backend/src/validators/requestSchemas.ts:9 | A blank formula passes the request validator, which does not trim, but fails the generated-schema contract |
| Controller.ProcessRequest | backend/src/controllers/SpreadsheetController.ts:13-23 | The answer depends on the generator only through its answer for the prompt as given: its schema and follow-ups are returned unchanged with status success, and its failure is passed on |
| Controller.FileNameParts | backend/src/controllers/SpreadsheetController.ts:25-31 | The file name is the title, or `planilha` for a missing or empty title, then a dot and the format (default `xlsx`) |
| Controller.DeclaredFormatsAgree | backend/src/controllers/SpreadsheetController.ts:25-35 | For `xlsx` and `csv` the writer and the MIME type agree; no format means `xlsx` |
| Controller.UndeclaredFormatMismatch | backend/src/controllers/SpreadsheetController.ts:32-34 | Any other format string goes to the xlsx writer but is labelled `text/csv` |
| RenderPlan.SafeColor | backend/src/services/SpreadsheetService.ts:14-15 | A missing or empty colour gives the fallback |
| RenderPlan.SafeColorSpec | backend/src/services/SpreadsheetService.ts:14-20 | A given colour becomes `FF`, its digits after an optional `#`, then `F` padding, cut to eight UTF-16 code units; for digits that are all single units this is the first eight characters |
| RenderPlan.SafeColorShape | backend/src/services/SpreadsheetService.ts:17-19 | Every given colour starts with `FF` and is eight UTF-16 code units long (seven only when a surrogate pair straddles the cut); eight characters when its digits are all single units |
| RenderPlan.SafeColorSixDigits | backend/src/services/SpreadsheetService.ts:17-19 | A colour of six code units becomes the opaque colour `FF` plus its digits |
| RenderPlan.SafeColorEightDigits | backend/src/services/SpreadsheetService.ts:17-19 | A colour of eight code units keeps only its first six units after the `FF`; eight characters keep their first six |
| RenderPlan.SafeColorOfAcceptedIsHex | backend/src/services/SpreadsheetService.ts:14-20 | A colour the generated-schema contract accepts becomes eight hex digits |
| RenderPlan.ResolvedThemeArgb | backend/src/services/SpreadsheetService.ts:22-28 | Every resolved theme colour starts with an `FF` alpha and is eight UTF-16 code units long (see Left out for the surrogate cut) |
| RenderPlan.ResolveTheme | backend/src/services/SpreadsheetService.ts:6-28 | Without a theme every slot takes its default |
| RenderPlan.ResolveThemeDefaults | backend/src/services/SpreadsheetService.ts:6-28 | Each of the five slots, left out or given as the empty string, takes its own default |
| RenderPlan.ColumnNameRoundTrip | backend/src/services/SpreadsheetService.ts:46-48 | Column names are capital letters that read back as their column number |
| RenderPlan.ColumnNameInjective | backend/src/services/SpreadsheetService.ts:46-48 | Distinct columns get distinct names |
| RenderPlan.LastColumnAsWrittenUpTo26 | backend/src/services/SpreadsheetService.ts:47 | Up to 26 columns, `chr(64 + n)` is the right column letter |
| RenderPlan.LastColumnAsWrittenBreaksAt27 | backend/src/services/SpreadsheetService.ts:77 | With 27 columns `chr(64 + n)` is `[`, not the column name `AA` |
| RenderPlan.PlanColumnDefaults | backend/src/services/SpreadsheetService.ts:34-41 | A missing, zero or NaN width is 20 and any other width (±Infinity included) is kept; a missing or empty alignment is `left` and any other is kept |
| RenderPlan.CellContentDropsResult | backend/src/services/SpreadsheetService.ts:101-107 | A formula object with a non-empty formula is written as that formula alone, whatever its result; everything else is written unchanged |
| RenderPlan.NumFmtKnownFormats | backend/src/services/SpreadsheetService.ts:143-157 | Exactly the four known formats get a number format |
| RenderPlan.KeyColumnSpec | backend/src/services/SpreadsheetService.ts:101-106 | A declared key lands in the last column declared with it; a key no column declares gets no planned cell (see "## Left out") |
| RenderPlan.PlanCellsSpec | backend/src/services/SpreadsheetService.ts:99-160 | Each styled cell sits in its key's column, with the row's fill, the border colour and the column's number format, and comes from an entry of the row |
| RenderPlan.PlanCellsComplete | backend/src/services/SpreadsheetService.ts:99-160 | Every entry whose key names a column and holds a non-null value gets a styled cell |
| RenderPlan.SheetsInOrder | backend/src/services/SpreadsheetService.ts:30-41 | Worksheets follow the sheets in order, under their names, with their columns in order |
| RenderPlan.TitleAndHeader | backend/src/services/SpreadsheetService.ts:44-63 | The header is on row 2 iff a title is shown, and the title is merged over row 1 up to the last column |
| RenderPlan.AutoFilterRange | backend/src/services/SpreadsheetService.ts:75-79 | The filter spans the header row from `A` to the last column |
| RenderPlan.RangesAgainstCodeAsWritten | backend/src/services/SpreadsheetService.ts:44-79 | Up to 26 columns the merge and the filter are exactly the code's `chr(64 + n)` ranges; from 27 columns on they are longer than the five code units the code writes |
| RenderPlan.FreezeDefaults | backend/src/services/SpreadsheetService.ts:65-73 | Panes are frozen iff the sheet asks for it; each split that is missing, zero or NaN takes its default (no column; every row up to the header), and any other split is kept |
| RenderPlan.DataRowsAfterHeader | backend/src/services/SpreadsheetService.ts:99-140 | Data rows follow the header consecutively and are filled by the parity of their row number, with the theme's border colour |
| RenderPlan.FirstDataRowFill | backend/src/services/SpreadsheetService.ts:112-122 | The first data row takes `rowEvenBg` without a title and `rowOddBg` with one |
| RenderPlan.ExportWriter | backend/src/services/SpreadsheetService.ts:166-171 | The CSV writer is chosen iff the format is `csv` |
| RateLimit.ClientAddress | backend/src/middlewares/RateLimitMiddleware.ts:20 | The client is the IP, else the socket address, else `unknown`; it is never empty |
| RateLimit.StoreKeyInjective | backend/src/middlewares/RateLimitMiddleware.ts:21 | Under one prefix, distinct clients never share an entry |
| RateLimit.RetryAfterSeconds | backend/src/middlewares/RateLimitMiddleware.ts:31 | The delay is at least one second, and otherwise the smallest whole number of seconds covering the rest of the window |
| RateLimit.StepCases | backend/src/middlewares/RateLimitMiddleware.ts:25-38 | A missing or expired entry restarts at count 1 and allows; a full live one rejects and changes nothing; otherwise the count grows by one and the request is allowed |
| RateLimit.StepFrame | backend/src/middlewares/RateLimitMiddleware.ts:23-38 | No other client's entry changes |
| RateLimit.AllowedIff | backend/src/middlewares/RateLimitMiddleware.ts:25-38 | A request is allowed iff its window has ended or still has room |
| RateLimit.StepKeepsBounded | backend/src/middlewares/RateLimitMiddleware.ts:25-38 | With max at least 1, every count stays within 1..max |
| RateLimit.LiveWindowAllowance | backend/src/middlewares/RateLimitMiddleware.ts:30-38 | While a window is live, the allowed requests never exceed the room left in it |
| RateLimit.AtMostMaxPerWindow | backend/src/middlewares/RateLimitMiddleware.ts:25-38 | The request opening a window is allowed, and at most max requests in all pass before it ends |
| Ledger.ConsumeSpec | backend/src/modules/credits/CreditService.ts:6-29 | The amount defaults to 1. An unknown user or too few credits fails with the exact message and changes nothing. Otherwise credits drop by the amount, never below 0, with one usage record of minus the amount, and other users are untouched |
| Ledger.AddCreditsSpec | backend/src/modules/credits/CreditService.ts:31-48 | Success raises the credits by the amount and appends one purchase of that amount under the given external id; an unknown user or a used id changes nothing |
| Ledger.Balance | backend/src/modules/credits/CreditService.ts:50-53 | An unknown user's balance reads 0; otherwise it is the user's credits |
| Ledger.ConsumeReconciled | backend/src/modules/credits/CreditService.ts:14-28 | Consuming keeps every balance equal to the opening balance plus the logged amounts |
| Ledger.AddCreditsReconciled | backend/src/modules/credits/CreditService.ts:32-47 | Adding keeps every balance equal to the opening balance plus the logged amounts |
| Ledger.WebhookSpec | backend/src/modules/payment/PaymentService.ts:43-74 | Other notifications, unapproved or unattributed payments and known payment ids change nothing. A grant adds 600 credits to that user only, appends one credit-purchase record for that user under the payment id to the unchanged log, and one monthly active subscription ending 30 days later |
| Ledger.GrantRecordsId | backend/src/modules/payment/PaymentService.ts:55-57 | After a grant the payment id is on record |
| Ledger.WebhookIdempotent | backend/src/modules/payment/PaymentService.ts:55-68 | Replaying a handled notification, at any later time, leaves the state as the first delivery left it |
| Ledger.WebhookReconciled | backend/src/modules/payment/PaymentService.ts:55-68 | The webhook keeps balances reconciled with the log |
| AdminQuery.FirstText | backend/src/modules/admin/AdminController.ts:49-53 | A repeated parameter counts by its first value; a missing or empty one has none |
| AdminQuery.ParseIntegerSpec | backend/src/modules/admin/AdminController.ts:48-64 | A missing value gives the fallback. A present one succeeds iff it coerces to an integer in range, and yields that integer; otherwise the numeric or the range message |
| AdminQuery.ParseIntegerFirstOfMany | backend/src/modules/admin/AdminController.ts:52-53 | Only the first of repeated values counts |
| AdminQuery.ParseBooleanSpec | backend/src/modules/admin/AdminController.ts:66-81 | `true`/`1` and `false`/`0` after lower-casing and trimming give their values; anything else fails with the boolean message; a missing value gives the fallback |
| AdminQuery.ParseBooleanIgnoresCase | backend/src/modules/admin/AdminController.ts:72 | An upper-case spelling parses like its lower-case form |
| AdminQuery.ParseSearchSpec | backend/src/modules/admin/AdminController.ts:83-94 | A search exists iff the first value is present and not blank; it is a non-empty prefix of the trimmed text of at most 120 units, and all of it when it fits |
| AdminQuery.UsersQueryBounds | backend/src/modules/admin/AdminController.ts:39-46 | A parsed query has page in 1..100000 and limit in 1..100; the empty query is page 1 of 20, guests included, no search |
| AdminQuery.ListUsers | backend/src/modules/admin/AdminController.ts:28-37 | A parse error is a 400 whatever the service would answer; otherwise the answer is the service's answer for the parsed query, a failure also a 400 |
| AdminDashboard.TotalPages | backend/src/modules/admin/AdminService.ts:259-265 | There is always at least one page |
| AdminDashboard.PagesCoverTotal | backend/src/modules/admin/AdminService.ts:124 | Every page up to the last starts inside the rows, and the pages hold all of them |
| AdminDashboard.LastWinsSpec | backend/src/modules/admin/AdminService.ts:210-232 | A user is in an aggregate map iff some group has it, and the value is that of its last group |
| AdminDashboard.FirstWinsSpec | backend/src/modules/admin/AdminService.ts:234-239 | A user is in the subscription map iff it has a row, and the value is that of its first row |
| AdminDashboard.FirstEndDates | backend/src/modules/admin/AdminService.ts:234-239 | The loop builds the first-row-wins map |
| AdminDashboard.ItemUsage | backend/src/modules/admin/AdminService.ts:210-218 | Generations and consumed credits are 0 for a user without usage, else the count and the magnitude of the sum |
| AdminDashboard.ItemPurchases | backend/src/modules/admin/AdminService.ts:220-225 | Purchased credits are 0 without purchases or with a null sum, else the sum |
| AdminDashboard.ItemActivity | backend/src/modules/admin/AdminService.ts:227-232 | The last activity is null without activity, else the group's time |
| AdminDashboard.ListUsers | backend/src/modules/admin/AdminService.ts:157-265 | The rows follow the fetched users in order, copying their fields. The plan is premium iff a subscription row exists, and the first such row's end date is kept; free users have none. An empty page keeps page, limit and total |
| AdminDashboard.OverviewSpec | backend/src/modules/admin/AdminService.ts:92-116 | Premium users are the distinct subscribed ids; free users are registered minus premium, or zero when that is negative; revenue is 30 per purchase; consumed credits are the magnitude of the usage sum; wallet credits are the credit sum, and null sums read 0 |
| AdminEmails.PiecesSpec | backend/src/utils/AdminUtils.ts:1-14 | Every piece of the split is non-empty and free of separators |
| AdminEmails.PiecesKeepLetters | backend/src/utils/AdminUtils.ts:1-14 | The pieces put back together are the input without its separators |
| AdminEmails.PiecesOfRun | backend/src/utils/AdminUtils.ts:13-14 | A non-empty text without separators is one piece, itself |
| AdminEmails.PiecesSplitAt | backend/src/utils/AdminUtils.ts:13-14 | Each separator splits: the pieces of `a`, a separator and `b` are those of `a` followed by those of `b` |
| AdminEmails.PiecesOfTrim | backend/src/utils/AdminUtils.ts:8-14 | Trimming the list does not change its pieces |
| AdminEmails.PiecesOfList | backend/src/utils/AdminUtils.ts:8-14 | The list's pieces are those of `ADMIN_EMAILS` followed by those of `ADMIN_EMAIL` |
| AdminEmails.PieceBetweenSeparators | backend/src/utils/AdminUtils.ts:13-14 | An address between separators, or at either end, is a piece of its own between the pieces around it |
| AdminEmails.NormalizeAllKeeps | backend/src/utils/AdminUtils.ts:15-16 | No piece is dropped by the normalisation: each one's lower-cased form is kept |
| AdminEmails.AdminEmailSetElements | backend/src/utils/AdminUtils.ts:7-19 | The administrator entries are exactly the lower-cased pieces of the list, each non-empty, lower-case and free of separators and white space |
| AdminEmails.NoConfiguredAdmins | backend/src/utils/AdminUtils.ts:8-11 | Both values missing or blank leave no administrator |
| AdminEmails.IsAdminEmail | backend/src/utils/AdminUtils.ts:21-32 | False for a missing or empty address or an empty list; otherwise true iff the normalised address is listed |
| AdminEmails.IsAdminEmailIgnoresCase | backend/src/utils/AdminUtils.ts:3-31 | Case does not change the answer |
| AdminEmails.IsAdminEmailIgnoresPadding | backend/src/utils/AdminUtils.ts:3-31 | Surrounding white space does not change the answer |
| AdminEmails.ListedAddressIsAdmin | backend/src/utils/AdminUtils.ts:7-32 | Every piece of `ADMIN_EMAILS` or `ADMIN_EMAIL` makes an administrator of every address equal to it ignoring case |
| AdminEmails.WrittenAddressIsAdmin | backend/src/utils/AdminUtils.ts:7-32 | An address written in `ADMIN_EMAILS` between separators, or at either end, is recognised in any case, whatever else the list holds |
| Cookies.IndexOfSpec | frontend/src/services/AnalyticsService.ts:20 | The search finds the leftmost occurrence at or after the start, or reports that there is none |
| Cookies.GetCookie | frontend/src/services/AnalyticsService.ts:21 | A returned value never holds `;` |
| Cookies.GetCookieSpec | frontend/src/services/AnalyticsService.ts:18-23 | A value is found iff the delimiter occurs exactly once, and it is the text after it up to the next `;` |
| Cookies.LoneCookieFound | frontend/src/services/AnalyticsService.ts:19-21 | The first cookie is found like any other |
| Cookies.RepeatedCookieMissing | frontend/src/services/AnalyticsService.ts:20-22 | A name given twice has no value |

## Left out

- ExcelJS: `spliceRows`, `mergeCells`, `eachRow`/`eachCell` and the writers are library code. The model produces the plan those calls receive, not a workbook.
- Row heights, font sizes and alignments of the title and header cells are fixed constants handed to ExcelJS. The plan keeps only their colours.
- Prisma, Mercado Pago, the text generator, JWT/bcrypt, the Meta events service, Express routing, the middlewares' HTTP glue and the frontend services other than `getCookie`. Their results are parameters or are not modelled.
- Clocks are parameters: `now` in the rate limiter and the webhook. The dashboard's "active" subscription filter is left to the query, whose result is a parameter.
- The overview's `conversionRate` uses floating-point division and `toFixed`. It is not modelled.
- JavaScript's `Number()` coercion of a query string is a parameter; only its result is modelled.
- Lower-casing is ASCII only. Full Unicode case mapping is not modelled.
- Regular expressions are explicit scanners for the patterns used. There is no general regex engine.
- Structural validation takes typed datatypes, so a field of the wrong JSON type cannot be expressed. Unknown keys are kept as a list of names, so strict and pass-through objects can be told apart.
- Concurrency: the shared rate-limit store and the check-then-act race in `consumeCredits` are modelled sequentially.
- Ledger.WebhookSpec: the grant and the subscription are two separate writes in the source. The model treats a failed credit grant as a failure that writes no subscription.
- Ledger.AddCreditsSpec: the failure texts stand for the database's errors (an unknown user, a unique `externalId`); their wording is not the database's.
- AdminQuery.ParseSearchSpec: when unit 120 falls inside a surrogate pair, the model drops the whole character where `slice` would keep half of it.
- RenderPlan.SafeColorSpec: when the eighth code unit is the first half of a surrogate pair, the model drops the whole character (seven units) where `substring` would keep half of it.
- RenderPlan.SafeColorShape: for the same surrogate cut, the colour is seven code units long, not eight.
- RenderPlan.ResolvedThemeArgb: for the same surrogate cut, a resolved colour is seven code units long, not eight.
- RenderPlan.TitleAndHeader: from 27 columns on, the merge ends at the last column's name (`AA`, ...) where the code writes the single code unit `String.fromCharCode(64 + n)` (`[` for 27). The plan uses the corrected name recorded under "## Findings"; RenderPlan.RangesAgainstCodeAsWritten states where the two agree and where they differ.
- RenderPlan.AutoFilterRange: the same difference as for the title merge, in the filter range's end.
- RenderPlan.KeyColumnSpec: a row key that no column declares gets no planned cell. ExcelJS's `getCell` instead reads such a key as a column letter: a key like `B` writes column 2, and a key that is no column letter makes rendering throw. Neither outcome is modelled, because it is library behaviour outside this model.
- AdminEmails.PiecesSpec: the empty pieces `split` yields at the ends are not produced; the filter drops them anyway.
- AdminDashboard.ListUsers: the search and `includeGuests` filters run inside the database query and are not modelled; the fetched rows are a parameter.
- The rest of the repository: auth, Meta events, the text generator's prompt and the scripts.

## Findings

| source | as written | input that shows it | evidently intended | confidence | as-written member | corrected member |
|---|---|---|---|---|---|---|
| backend/src/services/SpreadsheetService.ts:44-48 | The last column letter is `String.fromCharCode(64 + columnCount)` | A sheet with 27 columns gives `[`, so the merge is `A1:[1` and the filter `A1:[1` | The spreadsheet column name `AA` (bijective base 26), valid for up to 200 columns | not executed | RenderPlan.LastColumnAsWrittenBreaksAt27 | RenderPlan.ColumnNameRoundTrip |

Related observations that are not errors in the same sense, each stated as a lemma:

- An eight-digit colour loses its own alpha digits: `#80FF0000` becomes `FF80FF00` (RenderPlan.SafeColorEightDigits).
- A format other than `xlsx` or `csv` reaching `generateFile` is written as xlsx but labelled `text/csv` (Controller.UndeclaredFormatMismatch).
- A formula of blanks passes the request validator but not the generated-schema contract (RequestRules.BlankFormulaPassesRequestOnly).
