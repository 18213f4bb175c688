# Audit pipeline model

A Dafny model of the post-deployment audit pipeline. The pipeline is a set of PHP batch checkers under `audit/`:

- static code analysis;
- routing;
- API endpoints;
- error reproduction;
- security and permissions;
- database integrity;
- environment.

Each checker reads a deployed tree or a database and records findings in a results table. A solution generator turns the saved findings into a list of fixes, stable-sorted by priority tier and then by order of discovery. The model also covers the site's translation hook `t` (`src/hooks/use-language.ts`), which walks a nested translation table along the dotted segments of a key.

## How the model is organised

Each checker is one module, and each PHP class is a Dafny `class`:

- every results array is a field of the class;
- every test method is a `method` that assigns its field, leaving the other fields alone;
- every foreach loop is a `while` loop, proved against a function that states the entry the loop records.

The lemmas beside each function prove what the checker promises: iff conditions, orderings, bounds, count equalities, and a stable permutation for the sort.

The shared modules are:

- `Wrappers`: `Option`, `Map`, `Filter`, `Count`, and the collection of hits from per-line scans.
- `Strings`: `strpos`, `explode`, `trim`, `str_replace`, and octal formatting.
- `Paths`: the file-system oracle, `dirname` and `basename`, the first-existing search, and the recursive walk of a directory listing.
- `Patterns`: the fixed PCRE patterns of the checkers, hand-coded as string predicates over the matcher's positions.
- `Scoring`: `round(p / t * 100, 1)` in integer tenths, with its bounds, its monotonicity, and the thresholds on the rounded value.

The file system, the directory listings, the database, the PHP environment and the saved result files are all inputs to the model:

- `FileSystem` holds the existing files with their contents, the existing directories, and per-path metadata (size, mode, readability, writability).
- `Tree` is a directory listing in iteration order.
- A database is a connection outcome plus the outcomes of its queries.
- An environment is a PHP version plus a set of loaded extensions.
- A saved result file is its decoded content, keyed by file name.

## Model

| member | source | states |
|---|---|---|
| Strings.FindFromSpec | audit/static-code-analysis.php:104 | `strpos` finds the first occurrence at or after the offset, or reports that there is none |
| Strings.Split | audit/static-code-analysis.php:45 | `explode` yields at least one piece, and no piece holds the separator |
| Strings.SplitJoin | audit/static-code-analysis.php:45 | joining the pieces with the separator gives the string back |
| Strings.JoinSplit | src/hooks/use-language.ts:8 | separator-free pieces come back from splitting their join |
| Strings.SplitCount | audit/static-code-analysis.php:53 | the line count is the number of newlines plus one |
| Strings.TrimEnds | audit/static-code-analysis.php:58 | a trimmed non-empty line starts and ends with a non-whitespace character |
| Strings.TrimDropsSpace | audit/static-code-analysis.php:58 | `trim` drops only whitespace, at the two ends |
| Paths.FirstFound | audit/environment-check.php:69-78 | the file found exists and is one of the candidates; none is found iff no candidate exists |
| Paths.FirstFoundIsFirst | audit/environment-check.php:69-78 | the file found is the existing candidate before which every candidate is missing |
| Paths.FindFirst | audit/database-integrity-check.php:24-30 | the search loop, left at the first existing file, finds what `FirstFound` specifies |
| Paths.LeafPaths | audit/static-code-analysis.php:24-39 | every file met on a walk has a full and a relative path ending in `/` and its own name |
| Paths.LeavesAppend | audit/static-code-analysis.php:24-39 | walking two consecutive parts of a listing meets the files of each part in turn |
| Patterns.MentionIsAssignOrUse | audit/error-reproduction.php:177-182 | a line mentions `$method` iff it matches the assignment pattern or the use pattern |
| Patterns.MatchAtCapture | audit/error-reproduction.php:107 | a captured include path holds no quote character |
| Patterns.FirstMatchLeftmost | audit/error-reproduction.php:107 | the match found is the leftmost: no match starts between the search offset and it |
| Patterns.AllMatchesAt | audit/error-reproduction.php:107 | each match of `preg_match_all` is a real match, successive matches do not overlap, and none is skipped: nothing matches before the first, between two neighbours or after the last |
| Patterns.AllMatchesEmpty | audit/error-reproduction.php:107 | when `preg_match_all` finds nothing, the pattern matches at no position from the offset on |
| Patterns.AllMatchesReal | audit/error-reproduction.php:107 | each match of `preg_match_all` is a real match at or after the offset, and each ends before the next starts |
| Patterns.AllMatchesInnerGap | audit/error-reproduction.php:107 | no match starts between two neighbouring matches of `preg_match_all` |
| Patterns.AllMatchesLastGap | audit/error-reproduction.php:107 | no match starts after the last match of `preg_match_all` ends |
| Patterns.FirstMatchGap | audit/error-reproduction.php:107 | no match starts between the offset and the match `preg_match` finds |
| Patterns.BalancedConcat | audit/error-reproduction.php:283-289 | after a balanced prefix, balance is decided by the rest alone |
| Patterns.IncludeMatchHasKeyword | audit/static-code-analysis.php:57-69 | a line on which an include pattern matches contains `include` or `require` |
| Scoring.RoundedTenths | audit/security-audit.php:291 | the score in tenths is `round(p/t*100, 1)` with halves rounded up: the exact value lies within half a tenth of it |
| Scoring.RoundedTenthsBounds | audit/security-audit.php:291 | the score lies between 0 and 100.0, and is 0 with nothing passed and 100.0 with everything passed |
| Scoring.RoundedTenthsMonotonic | audit/security-audit.php:291 | more passed checks out of the same total never lower the score |
| Scoring.RoundedAtLeast | audit/environment-check.php:204-211 | the rounded score reaches `pct` iff the exact ratio reaches `pct` less half a tenth |
| Paths.Basename | audit/routing-test.php:54 | a base name is the longest suffix of the path without `/`: it holds no `/`, and it is the whole path or follows a `/` |
| Paths.Extension | audit/static-code-analysis.php:35 | an extension is the text after the last `.`: empty when there is no `.`, otherwise a suffix without `.` preceded by a `.` |
| Patterns.MatchAt | audit/static-code-analysis.php:61 | a match found at an offset starts there, lies within the line, and captures a non-empty path |
| Patterns.FirstMatch | audit/static-code-analysis.php:61 | the match found by `preg_match` starts at or after the offset and is the match anchored there |
| RoutingTest.HtaccessAnalysisOf | audit/routing-test.php:34-57 | an `.htaccess` entry is `exists` false iff the file is absent |
| RoutingTest.HtaccessLineCount | audit/routing-test.php:36-41 | the `lines` of a found file is its number of newlines plus one |
| RoutingTest.RootHtaccessKey | audit/routing-test.php:54 | the root `.htaccess` is stored under `public_html` |
| RoutingTest.BackendHtaccessKey | audit/routing-test.php:54 | the backend `.htaccess` is stored under `backend`, so the two entries never overwrite each other |
| RoutingTest.HtaccessEntries | audit/routing-test.php:31-60 | the loop records one entry per `.htaccess` file, keyed by the basename of its directory |
| RoutingTest.CheckPhpSyntax | audit/routing-test.php:165-189 | valid iff the braces balance, iff there is no issue, iff there is no error; otherwise the only issue and the error are `unmatched_braces` |
| RoutingTest.TestRouteMeaning | audit/routing-test.php:120-163 | a route is accessible iff it is a directory holding `index.php` or an existing non-directory whose braces balance; it answers 200 exactly then and 500 for an unbalanced file; it has an error message exactly when it has no http code |
| RoutingTest.TestRoutes | audit/routing-test.php:78-93 | the loop records one result per route, in order |
| RoutingTest.RewriteResultOf | audit/routing-test.php:205-212 | a rewrite entry keeps its expected target and is PASS iff that target file exists |
| RoutingTest.RewriteEntries | audit/routing-test.php:202-213 | the loop records one entry per rewrite scenario, in order |
| RoutingTest.RoutingReportOf | audit/routing-test.php:221-237 | with no route checked there is no report (the division fails); otherwise totals are the table sizes, each accessible count is the number of accessible entries of its table, the success is their sum over the total, rounded to tenths, and the status is mostly functional iff accessible/total is at least 80% |
| RoutingTest.AccessibleCount | audit/routing-test.php:222-225 | the accessible entries of a route table are the routes found accessible |
| RoutingTest.FullRunMostlyFunctional | audit/routing-test.php:221-237 | after a full run the denominator is always 11, the counts are the fixed API and admin routes that are accessible in the file system, and the routing is mostly functional iff at least 9 of them are |
| RoutingTest.RoutingTester.constructor | audit/routing-test.php:10-12 | all result tables start empty |
| RoutingTest.RoutingTester.CheckHtaccessFiles | audit/routing-test.php:22-61 | `htaccess` becomes the `.htaccess` table; nothing else changes |
| RoutingTest.RoutingTester.TestApiRoutes | audit/routing-test.php:63-94 | `api_routes` holds the results of the eight API routes; nothing else changes |
| RoutingTest.RoutingTester.TestAdminRoutes | audit/routing-test.php:96-118 | `admin_routes` holds the results of the three admin routes; nothing else changes |
| RoutingTest.RoutingTester.TestRewriteRules | audit/routing-test.php:191-214 | `rewrite_rules` holds the rewrite table; nothing else changes |
| RoutingTest.RoutingTester.GenerateRoutingReport | audit/routing-test.php:216-242 | the report is over the API and admin route tables held |
| RoutingTest.RoutingTester.RunRoutingTests | audit/routing-test.php:14-20 | the four tests in order, then the report is over the full route tables |
| ApiEndpointTest.CheckPhpSyntaxMeaning | audit/api-endpoint-test.php:194-218 | a text is valid iff both its braces and its parentheses balance; `unmatched_braces` is reported iff the brace counts differ, `unmatched_parentheses` iff the parenthesis counts differ, braces first, at most two issues |
| ApiEndpointTest.EndpointFileOf | audit/api-endpoint-test.php:36-58 | an endpoint entry is MISSING iff its file does not exist; an existing one carries the syntax check of its content |
| ApiEndpointTest.EndpointEntries | audit/api-endpoint-test.php:36-59 | the loop records one entry per expected endpoint, in table order, each as `EndpointFileOf` decides |
| ApiEndpointTest.ExistingCount | audit/api-endpoint-test.php:224-225 | the number of existing entries equals the number of expected endpoint files that exist |
| ApiEndpointTest.RouterAnalysisOf | audit/api-endpoint-test.php:66-94 | the router entry is FAIL iff `index.php` is absent; otherwise error handling holds iff the text has both `try` and `catch`, CORS and routing flags iff their substrings occur |
| ApiEndpointTest.EndpointLogicOf | audit/api-endpoint-test.php:110-119 | a logic entry is FAIL iff the endpoint file is absent |
| ApiEndpointTest.EndpointLogicIssues | audit/api-endpoint-test.php:124-141 | for an existing endpoint, `undefined_method_variable` is raised iff `$method` occurs and `$method = ` does not, `relative_path_includes` iff `require_once` occurs and `__DIR__` does not; a `$method` mention implies a method check |
| ApiEndpointTest.LogicEntries | audit/api-endpoint-test.php:107-155 | the loop records one logic entry per checked endpoint, in table order |
| ApiEndpointTest.ResponseFormatOf | audit/api-endpoint-test.php:171-189 | a format is recorded iff the endpoint file exists, under that endpoint's name, with `consistent_structure` true |
| ApiEndpointTest.FormatEntries | audit/api-endpoint-test.php:168-191 | the loop records the formats of exactly the existing endpoints, in table order, skipping missing ones |
| ApiEndpointTest.FormatTableMeaning | audit/api-endpoint-test.php:168-189 | every recorded format belongs to an endpoint of the table whose file exists and claims a consistent structure |
| ApiEndpointTest.ApiReportOf | audit/api-endpoint-test.php:224-240 | totals are the table sizes, the counts are the existing endpoint files and accessible routes of the tables; health is 0 with no endpoint and otherwise existing over total rounded to tenths, at most 100.0; FUNCTIONAL iff there are endpoints and existing/total is at least 80% |
| ApiEndpointTest.FullRunFunctional | audit/api-endpoint-test.php:224-240 | after a full run there are 7 endpoints and 0 routes, the existing count is the number of expected endpoint files present in the file system, and the API is FUNCTIONAL iff at least 6 of them are |
| ApiEndpointTest.ApiEndpointTester.constructor | audit/api-endpoint-test.php:10-12 | all result tables start empty |
| ApiEndpointTest.ApiEndpointTester.TestEndpointFiles | audit/api-endpoint-test.php:22-60 | `endpoint_files` becomes the endpoint table; nothing else changes |
| ApiEndpointTest.ApiEndpointTester.TestApiRouter | audit/api-endpoint-test.php:62-95 | `api_router` becomes the router analysis; nothing else changes |
| ApiEndpointTest.ApiEndpointTester.TestEndpointLogic | audit/api-endpoint-test.php:97-156 | `endpoint_logic` becomes the logic table; nothing else changes |
| ApiEndpointTest.ApiEndpointTester.ValidateResponseFormats | audit/api-endpoint-test.php:158-192 | `response_formats` becomes the format table; nothing else changes |
| ApiEndpointTest.ApiEndpointTester.GenerateApiReport | audit/api-endpoint-test.php:220-240 | the report is the summary of the endpoint and route tables held |
| ApiEndpointTest.ApiEndpointTester.RunApiTests | audit/api-endpoint-test.php:14-20 | the four tests in order, then the report is that of the full endpoint table with an empty route table |
| ApiEndpointTest.SyntaxIssuesMembers | audit/api-endpoint-test.php:198-217 | `unmatched_braces` is listed iff the brace counts differ, `unmatched_parentheses` iff the parenthesis counts differ, braces first; `valid` iff neither |
| ApiEndpointTest.PotentialIssueListMembers | audit/api-endpoint-test.php:134-141 | each endpoint issue is listed iff its own test fires, so at most two |
| ErrorReproduction.CommentedBraceUnbalances | audit/error-reproduction.php:283-289 | the syntax check counts braces everywhere: appending a commented `{` to balanced code makes it invalid |
| ErrorReproduction.MissingIncludes | audit/error-reproduction.php:57-64 | at most one `missing_include` per `require_once` match |
| ErrorReproduction.MissingIncludesMeaning | audit/error-reproduction.php:57-64 | only `missing_include` issues arise, and `p` is reported iff some match captures `p` and `dirname(file)/p` does not exist |
| ErrorReproduction.IssueListMembers | audit/error-reproduction.php:51-73 | each of the syntax, `$method` and connection flags shows as its issue exactly when set, and the include findings keep their membership |
| ErrorReproduction.Check500Source | audit/error-reproduction.php:35-89 | an entry is `file_not_found` iff the file is absent; otherwise `issue_count` is the number of issues and the status is PASS iff there are none |
| ErrorReproduction.Check500SourceIssues | audit/error-reproduction.php:51-73 | for an existing source: `syntax_error` iff the braces do not balance, `missing_include: p` iff a `require_once` names `p` and it is absent beside the file, `undefined_method_variable` iff `$method` occurs and `$method = ` does not, `unchecked_database_connection` iff `new Database()` occurs and `getConnection()` does not |
| ErrorReproduction.SourceIssuesMembers | audit/error-reproduction.php:51-73 | the same membership facts for any content |
| ErrorReproduction.ResolutionAttempts | audit/error-reproduction.php:112-116 | three candidates in order: relative to the file, relative to the root, the path itself |
| ErrorReproduction.FirstExisting | audit/error-reproduction.php:118-124 | the index found is that of an existing candidate with no existing candidate before it; none iff no candidate exists |
| ErrorReproduction.Resolve | audit/error-reproduction.php:118-124 | the loop stops at the first existing candidate; the reference resolves iff some candidate exists |
| ErrorReproduction.FailureRecord | audit/error-reproduction.php:126-133 | a failure record keeps the captured path, the matched statement and all three attempts |
| ErrorReproduction.UnresolvedMeaning | audit/error-reproduction.php:112-126 | a reference is unresolved iff none of its three candidate paths exists |
| ErrorReproduction.MatchFailuresSound | audit/error-reproduction.php:107-134 | every failure recorded for a file is the record of one of its unresolved references |
| ErrorReproduction.MatchFailuresComplete | audit/error-reproduction.php:107-134 | every unresolved reference of a file is recorded |
| ErrorReproduction.RequireFailuresRecord | audit/error-reproduction.php:152-157 | `failed_resolutions` is the number of failures, and the status is PASS iff there is none |
| ErrorReproduction.StatementCountStep | audit/error-reproduction.php:274-281 | counting one more file adds that file's include and require statements |
| ErrorReproduction.CountRequireStatements | audit/error-reproduction.php:274-281 | the loop sums the statement counts of all files |
| ErrorReproduction.FindPhpFiles | audit/error-reproduction.php:261-272 | the files of the recursive walk whose extension is `php`, in walk order |
| ErrorReproduction.UsesBeforeDefinitionOrdered | audit/error-reproduction.php:175-193 | reported line numbers are 1-based, within the file, strictly increasing, and carry the file's name |
| ErrorReproduction.UsesBeforeDefinitionSound | audit/error-reproduction.php:175-193 | every reported line uses `$method`, neither it nor an earlier line assigns it, and its context is the trimmed line |
| ErrorReproduction.UsesBeforeDefinitionComplete | audit/error-reproduction.php:175-193 | every line that uses `$method` with no assignment at or before it is reported |
| ErrorReproduction.NothingReportedAfterDefinition | audit/error-reproduction.php:177-185 | no line at or after the first assigning line is ever reported |
| ErrorReproduction.MethodErrorsIn | audit/error-reproduction.php:172-194 | the per-file loop with its `defined` flag, reset per file, reports exactly the specified uses before definition |
| ErrorReproduction.MethodErrorsStep | audit/error-reproduction.php:175-193 | one line more: the flag gains that line's assignment and the findings that line's report |
| ErrorReproduction.RoutingCheck | audit/error-reproduction.php:230-256 | a scenario is a directory case iff its path is a directory and missing iff it does not exist; it passes iff a directory has `index.php`, or a non-directory exists |
| ErrorReproduction.Problematic | audit/error-reproduction.php:295-296 | problematic sources are at most all sources, and none iff every source was analysed and is PASS |
| ErrorReproduction.Summarize | audit/error-reproduction.php:295-313 | the total is problematic sources plus require failures plus `$method` errors, an absent category counting 0; no critical errors iff it is 0, minor iff it is 1 to 5, critical iff above 5 |
| ErrorReproduction.FileRequireFailures | audit/error-reproduction.php:107-135 | the loop over one file's matches gives exactly that file's failures |
| ErrorReproduction.CollectRequireFailures | audit/error-reproduction.php:103-136 | the loop over all files gives the failures file by file, in match order |
| ErrorReproduction.CollectMethodErrors | audit/error-reproduction.php:167-195 | the loop over all files gives each file's findings in order, each file scanned afresh |
| ErrorReproduction.ErrorReproducer.constructor | audit/error-reproduction.php:10-12 | no result is recorded yet |
| ErrorReproduction.ErrorReproducer.Test500Errors | audit/error-reproduction.php:22-93 | `500_errors` holds one entry per potential source, in order; nothing else changes |
| ErrorReproduction.ErrorReproducer.TestRequireOnceFailures | audit/error-reproduction.php:95-158 | `require_failures` holds the statement count and the failures over the `.php` files of the tree; nothing else changes |
| ErrorReproduction.ErrorReproducer.TestUndefinedMethodErrors | audit/error-reproduction.php:160-214 | `undefined_method` holds all findings, their number, and PASS iff there is none; nothing else changes |
| ErrorReproduction.ErrorReproducer.TestRoutingErrors | audit/error-reproduction.php:216-259 | `routing_errors` holds one entry per scenario, in order; nothing else changes |
| ErrorReproduction.ErrorReproducer.GenerateErrorReport | audit/error-reproduction.php:291-313 | the report is the summary of the results held |
| ErrorReproduction.ErrorReproducer.ReproduceReportedErrors | audit/error-reproduction.php:14-20 | the four tests: each potential 500 source's check over `fs`, the `require_once` failure record and the `$method` findings over the `.php` files of the walk, each routing scenario's check, then the summary of those results |
| StaticAnalysis.GetIncludeTypeSpec | audit/static-code-analysis.php:92-98 | each include type is chosen exactly when its keyword is present and no keyword checked before it is; `unknown` iff neither `require` nor `include` occurs |
| StaticAnalysis.MatchedLineHasType | audit/static-code-analysis.php:61-67 | a line on which the include pattern matches never gets type `unknown` |
| StaticAnalysis.CheckIncludePathSpec | audit/static-code-analysis.php:100-120 | traversal is reported iff the path starts with `../`; missing `__DIR__` iff `__DIR__` is absent or at position 0 and the path does not start with `/`; not found iff the path is missing beside the including file |
| StaticAnalysis.CheckIncludePathOrdered | audit/static-code-analysis.php:100-120 | the issues come in test order, each at most once |
| StaticAnalysis.TraversalIsAlsoUnanchored | audit/static-code-analysis.php:104-111 | a `../` path without `__DIR__` is always reported as traversal and then as missing `__DIR__` |
| StaticAnalysis.LineInclude | audit/static-code-analysis.php:57-69 | a recorded include carries the 1-based line number and the trimmed line |
| StaticAnalysis.RecordedIncludeFacts | audit/static-code-analysis.php:61-69 | a recorded include has a known type, a non-empty quote-free path, and the risks of that path |
| StaticAnalysis.LineVariableIssueMeaning | audit/static-code-analysis.php:73-80 | a line is flagged iff, trimmed, it mentions `$method` without assigning it; the finding holds its 1-based number and the trimmed line |
| StaticAnalysis.LineIncludes | audit/static-code-analysis.php:57 | the per-line scan yields one outcome per line |
| StaticAnalysis.LineIncludesAt | audit/static-code-analysis.php:57-69 | the outcome for line `i` is the include found on line `i` alone |
| StaticAnalysis.LineVariableIssues | audit/static-code-analysis.php:57 | the per-line `$method` scan yields one outcome per line |
| StaticAnalysis.IncludesOfLine | audit/static-code-analysis.php:57-69 | the `k`-th recorded include is the one found on its own line |
| StaticAnalysis.IncludesOfSound | audit/static-code-analysis.php:57-69 | every recorded include is the include of an actual line of the file |
| StaticAnalysis.IncludesOfOrdered | audit/static-code-analysis.php:57-69 | recorded includes come in strictly increasing line order |
| StaticAnalysis.IncludesOfComplete | audit/static-code-analysis.php:57-69 | every line on which the pattern matches contributes its include |
| StaticAnalysis.VariableIssuesOfSound | audit/static-code-analysis.php:73-80 | each `$method` finding is a trimmed line that mentions `$method` without assigning it |
| StaticAnalysis.VariableIssuesOfOrdered | audit/static-code-analysis.php:73-80 | `$method` findings come in strictly increasing line order |
| StaticAnalysis.VariableIssuesOfComplete | audit/static-code-analysis.php:73-80 | every line mentioning `$method` without assigning it is reported |
| StaticAnalysis.AnalyzePhpFile | audit/static-code-analysis.php:41-83 | a missing file yields nothing; an existing one yields its line count, includes and findings in line order |
| StaticAnalysis.PhpAnalysesAppend | audit/static-code-analysis.php:27-38 | analysing two consecutive parts of a walk gives the analyses of each part in turn |
| StaticAnalysis.ScanEntryMeaning | audit/static-code-analysis.php:30-37 | one directory entry's recursion analyses exactly the existing `.php` files below it |
| StaticAnalysis.ScanMeaning | audit/static-code-analysis.php:24-39 | the recursive scan analyses exactly the walked existing `.php` files, in walk order |
| StaticAnalysis.ScanFile | audit/static-code-analysis.php:35-36 | a plain entry is analysed iff it has extension `php` |
| StaticAnalysis.ScanListing | audit/static-code-analysis.php:24-39 | the scanning loop returns what the recursive scan specifies |
| StaticAnalysis.PhpAnalysesSound | audit/static-code-analysis.php:24-39 | every analysis is of a walked, existing `.php` file, from its own path, in walk order |
| StaticAnalysis.PhpAnalysesComplete | audit/static-code-analysis.php:24-39 | every walked, existing `.php` file is analysed |
| StaticAnalysis.CountProblematic | audit/static-code-analysis.php:133-134 | problematic includes of a file never outnumber its includes |
| StaticAnalysis.ProblematicIncludes | audit/static-code-analysis.php:126-144 | problematic includes never outnumber all includes |
| StaticAnalysis.IncludeAnalysisOf | audit/static-code-analysis.php:149-153 | the success rate is clean over all includes rounded to tenths, within 0..100.0; it is 100 with no includes or none problematic, and 0 when all are problematic |
| StaticAnalysis.CountIncludes | audit/static-code-analysis.php:126-144 | the nested loop counts every include of every file and the ones with a risk |
| StaticAnalysis.GetIssueSeverity | audit/static-code-analysis.php:203-206 | a pattern is high severity iff it is `config/config.php` or `classes/` |
| StaticAnalysis.PatternSeverities | audit/static-code-analysis.php:163-167 | the two first table patterns are high severity and `../` is medium |
| StaticAnalysis.PatternHitsSound | audit/static-code-analysis.php:171-181 | each issue for one include names a table pattern its path contains, with that pattern's advice and severity; at most one per pattern |
| StaticAnalysis.IncludeHitsSound | audit/static-code-analysis.php:170-182 | each issue for a file comes from one of its includes and a pattern its path contains |
| StaticAnalysis.PathIssuesSound | audit/static-code-analysis.php:169-183 | each path issue comes from an include of an analysed file and a table pattern that include's path contains |
| StaticAnalysis.PatternHitsComplete | audit/static-code-analysis.php:171-181 | every table pattern an include's path contains yields that include's issue, with the pattern's advice and severity |
| StaticAnalysis.IncludeHitsComplete | audit/static-code-analysis.php:170-182 | every include of a file whose path contains a table pattern is reported for that file |
| StaticAnalysis.PathIssuesComplete | audit/static-code-analysis.php:169-183 | every include of every analysed file whose path contains a table pattern is recorded, with that file, line, path, advice and severity |
| StaticAnalysis.CountSeverity | audit/static-code-analysis.php:197-198 | a severity count never exceeds the number of issues |
| StaticAnalysis.SeveritiesAddUp | audit/static-code-analysis.php:195-200 | high and medium counts add up to the total |
| StaticAnalysis.PatternIssues | audit/static-code-analysis.php:171-181 | the pattern loop for one include yields the issues specified |
| StaticAnalysis.IncludeIssues | audit/static-code-analysis.php:170-182 | the include loop for one file yields the issues specified |
| StaticAnalysis.FindPathIssues | audit/static-code-analysis.php:169-183 | the triple loop yields the path issues specified, in file, include, pattern order |
| StaticAnalysis.PathResolutionOf | audit/static-code-analysis.php:195-200 | the record keeps all issues, and its high and medium counts add up to its total |
| StaticAnalysis.FilesWithIssues | audit/static-code-analysis.php:215-220 | files with issues never outnumber files |
| StaticAnalysis.HasIssuesIffCounted | audit/static-code-analysis.php:216-217 | a file has a problematic include iff one of its includes has a risk |
| StaticAnalysis.ReportOf | audit/static-code-analysis.php:212-229 | no report without files; otherwise GOOD iff fewer than a fifth of the files have issues |
| StaticAnalysis.ReportExtremes | audit/static-code-analysis.php:228 | no file with issues means GOOD, every file with issues means NEEDS_ATTENTION |
| StaticAnalysis.CountFilesWithIssues | audit/static-code-analysis.php:213-220 | the loop counts the files with a `$method` finding or a risky include |
| StaticAnalysis.StaticCodeAnalyzer.constructor | audit/static-code-analysis.php:11-12 | the analyser starts with no results |
| StaticAnalysis.StaticCodeAnalyzer.ScanDirectory | audit/static-code-analysis.php:24-39 | appends the analyses of the walk, in walk order, and nothing else changes |
| StaticAnalysis.StaticCodeAnalyzer.AnalyzeIncludes | audit/static-code-analysis.php:122-154 | stores the include statistics of the files gathered |
| StaticAnalysis.StaticCodeAnalyzer.CheckPathResolution | audit/static-code-analysis.php:156-201 | stores the path-resolution record of the files gathered |
| StaticAnalysis.StaticCodeAnalyzer.GenerateReport | audit/static-code-analysis.php:208-234 | the summary of the files gathered, none without files |
| StaticAnalysis.StaticCodeAnalyzer.AnalyzeProject | audit/static-code-analysis.php:14-22 | scan, include statistics, path resolution and summary, each over the walk of the base directory |
| SecurityAudit.LastThree | audit/security-audit.php:88 | `substr(..., -3)` keeps three characters, or all of a shorter string |
| SecurityAudit.LowOctalDigits | audit/security-audit.php:88 | the low nine permission bits are the value of the last three octal digits |
| SecurityAudit.OctalTailDigits | audit/security-audit.php:88 | the last three characters of `sprintf('%o', $perms)` are the three low octal digits of the mode |
| SecurityAudit.DigitsSpell755 | audit/security-audit.php:96 | three octal digits spell `755` iff their value is 493 |
| SecurityAudit.OctalTail755 | audit/security-audit.php:88-96 | the octal tail equals `755` iff the mode's low nine bits are 0755, whatever the higher bits |
| SecurityAudit.GlobRegexTranslates | audit/security-audit.php:246 | the two sequential `str_replace` passes equal a one-pass translation of `*` to `.*` and `.` to `\.` |
| SecurityAudit.TranslatedHead | audit/security-audit.php:246 | a translated pattern never starts with a bare `*` |
| SecurityAudit.TranslatedMatches | audit/security-audit.php:246-248 | the translated regex matches a name iff the name is the glob with each `*` read as a run of dots |
| SecurityAudit.GlobMatchesMeaning | audit/security-audit.php:246-248 | a file name is reported iff it, or it less a final newline, is the glob with each `*` a run of dots |
| SecurityAudit.DotGlobSqlEmptyRun | audit/security-audit.php:246-248 | `.sql` is `*.sql` with an empty run of dots |
| SecurityAudit.NotDotGlobDump | audit/security-audit.php:246-248 | `dump.sql` is not `*.sql` with any run of dots |
| SecurityAudit.SqlGlobExamples | audit/security-audit.php:246-248 | pattern `*.sql` reports a file named `.sql` but not one named `dump.sql` |
| SecurityAudit.ConfigAccessOf | audit/security-audit.php:36-64 | a config entry is MISSING iff the file is absent; a present one is SECURE iff an `.htaccess` sits in its directory, else VULNERABLE |
| SecurityAudit.ConfigAccessEntries | audit/security-audit.php:35-67 | the loop records one entry per sensitive config file, in order |
| SecurityAudit.DirPermissionOf | audit/security-audit.php:83-114 | a directory entry is MISSING iff the directory is absent; a present one is PASS or FAIL |
| SecurityAudit.DirPassIffMode755 | audit/security-audit.php:86-107 | an existing directory passes iff its mode's low nine bits are 0755 and its writability is the required one |
| SecurityAudit.DirPermissionEntries | audit/security-audit.php:82-117 | the loop records one entry per required directory, in order |
| SecurityAudit.UploadSecurityOf | audit/security-audit.php:124-157 | the upload entry is MISSING iff the directory is absent; otherwise it is SECURE iff it holds an `.htaccess`, and PHP counts as blocked iff that file mentions `php` |
| SecurityAudit.HtaccessSecurityOf | audit/security-audit.php:170-193 | an `.htaccess` entry is `exists` false iff the file is absent |
| SecurityAudit.HtaccessEntries | audit/security-audit.php:169-195 | the loop records one feature entry per `.htaccess` file, in order |
| SecurityAudit.PatternFilesSound | audit/security-audit.php:241-251 | every reported path is the path of a walked file whose name matches the pattern |
| SecurityAudit.PatternFilesComplete | audit/security-audit.php:241-251 | every walked file whose name matches the pattern is reported |
| SecurityAudit.FindFilesByPattern | audit/security-audit.php:237-255 | the recursive walk returns the matching files in walk order |
| SecurityAudit.AllFilesProtected | audit/security-audit.php:257-265 | the answer is true iff every file's directory holds an `.htaccess` |
| SecurityAudit.SensitiveFilesOf | audit/security-audit.php:228-232 | a sensitive-files entry's count is the number of its files |
| SecurityAudit.AllProtectedMeaning | audit/security-audit.php:231 | `all_protected` holds iff every found file is protected, and so whenever none is found |
| SecurityAudit.SensitiveEntry | audit/security-audit.php:213-232 | one pattern's entry lists the found files relative to the base |
| SecurityAudit.SensitiveEntries | audit/security-audit.php:210-234 | the loop records one entry per sensitive pattern, in order |
| SecurityAudit.TallyConsistent | audit/security-audit.php:276-289 | passed checks never exceed counted checks, and there is one vulnerability line per counted check that failed |
| SecurityAudit.Tally | audit/security-audit.php:271-289 | the loop counts exactly the items with a status, the passed ones (PASS or SECURE), and lists the others in order |
| SecurityAudit.SecurityReportMeaning | audit/security-audit.php:291-311 | the totals are the counted and the passed items; the score is 0 with nothing counted and otherwise passed over total rounded to tenths, within 0..100.0; EXCELLENT iff the exact ratio is at least 89.95%, GOOD WITH IMPROVEMENTS iff at least 69.95% and below that, CRITICAL otherwise or with nothing counted |
| SecurityAudit.NoStatusUncounted | audit/security-audit.php:279 | items without a status are neither counted nor passed |
| SecurityAudit.UploadUncounted | audit/security-audit.php:276-289 | the upload entry's fields are scalars, so none of them is counted |
| SecurityAudit.HtaccessUncounted | audit/security-audit.php:276-289 | the `.htaccess` feature entries carry no status and are never counted |
| SecurityAudit.SensitiveUncounted | audit/security-audit.php:276-289 | the sensitive-file entries carry no status and are never counted |
| SecurityAudit.ConfigCounts | audit/security-audit.php:52-64 | only missing config files are counted (their `status` is MISSING), and none of them passes |
| SecurityAudit.DirCounts | audit/security-audit.php:99-114 | all five directory entries are counted, and the passing ones are exactly those whose status is PASS |
| SecurityAudit.AuditTally | audit/security-audit.php:14-21 | a full audit counts the missing config files plus the five directories, and passes only directories |
| SecurityAudit.CleanAuditIsExcellent | audit/security-audit.php:14-21 | with every config file present and every directory right, the audit counts five checks, scores 100.0 and is EXCELLENT |
| SecurityAudit.SecurityAuditor.constructor | audit/security-audit.php:11-12 | the auditor starts with no results |
| SecurityAudit.SecurityAuditor.TestConfigFileAccess | audit/security-audit.php:23-68 | stores the config table and leaves the other categories alone |
| SecurityAudit.SecurityAuditor.TestDirectoryPermissions | audit/security-audit.php:70-118 | stores the directory table and leaves the other categories alone |
| SecurityAudit.SecurityAuditor.TestUploadSecurity | audit/security-audit.php:120-158 | stores the upload entry and leaves the other categories alone |
| SecurityAudit.SecurityAuditor.AnalyzeHtaccessSecurity | audit/security-audit.php:160-196 | stores the `.htaccess` table and leaves the other categories alone |
| SecurityAudit.SecurityAuditor.CheckSensitiveFileExposure | audit/security-audit.php:198-235 | stores the sensitive-file table and leaves the other categories alone |
| SecurityAudit.SecurityAuditor.GenerateSecurityReport | audit/security-audit.php:267-312 | the report is the summary of the results gathered so far |
| SecurityAudit.SecurityAuditor.RunSecurityAudit | audit/security-audit.php:14-21 | after the five tests the config, directory, upload, `.htaccess` and sensitive-file tables are those of `fs` and the listings, their items are those of a full audit, and the report is its summary |
| DatabaseIntegrity.FindConfig | audit/database-integrity-check.php:18-30 | the configuration loaded is the first of the two candidate files that exists, or none |
| DatabaseIntegrity.FirstDescribeFailure | audit/database-integrity-check.php:83-91 | the index found is that of a listed expected table whose `DESCRIBE` throws; none found means every listed expected table describes |
| DatabaseIntegrity.TableStructureMeaning | audit/database-integrity-check.php:83-104 | when the check completes there are 13 entries, the k-th for the k-th expected table, EXISTS iff the listing holds the table, with its `DESCRIBE` columns and their count |
| DatabaseIntegrity.TableStructureError | audit/database-integrity-check.php:76-108 | the whole `table_structure` is an error record iff `SHOW TABLES` throws or the `DESCRIBE` of some listed expected table throws |
| DatabaseIntegrity.CheckTables | audit/database-integrity-check.php:76-108 | the listing and the `DESCRIBE` loop give exactly the table structure specified |
| DatabaseIntegrity.DescribeTables | audit/database-integrity-check.php:83-104 | the loop, left at the first exception, gives the entries of all tables or the message of the first failing `DESCRIBE` |
| DatabaseIntegrity.CoreEntryOf | audit/database-integrity-check.php:124-151 | a core entry is CHECKED iff its count query answers, with that count and `has_data` iff the count is positive; otherwise ERROR |
| DatabaseIntegrity.ValidateCore | audit/database-integrity-check.php:123-153 | the loop records one entry per core table in order; a failing query marks only its own table |
| DatabaseIntegrity.ConsistencyEntryOf | audit/database-integrity-check.php:176-198 | a consistency entry is PASS iff its query answers 0, ERROR iff the query throws, and it carries an error message iff it is ERROR |
| DatabaseIntegrity.CheckConsistency | audit/database-integrity-check.php:175-199 | the loop records one entry per consistency check in order |
| DatabaseIntegrity.TablesExistCount | audit/database-integrity-check.php:241-242 | after a completed check the present tables are the expected tables the listing holds, never more than 13 |
| DatabaseIntegrity.IntegrityLevels | audit/database-integrity-check.php:241-259 | the present count is the table check's, the denominator is fixed at 13 and the score is present over 13 rounded to tenths; the level is excellent iff at least 12 tables are present, good iff 10 or 11, critical iff at most 9; 12 tables show as 92.3%; the score is at most 100.0 |
| DatabaseIntegrity.TableErrorIsCritical | audit/database-integrity-check.php:241-259 | an error record in place of the table structure scores 0 and is critical |
| DatabaseIntegrity.DatabaseIntegrityChecker.constructor | audit/database-integrity-check.php:14-40 | the connection is the one given by the first configuration file found, and no result is recorded yet |
| DatabaseIntegrity.DatabaseIntegrityChecker.CheckTableStructure | audit/database-integrity-check.php:56-109 | `table_structure` becomes the specified structure; nothing else changes |
| DatabaseIntegrity.DatabaseIntegrityChecker.ValidateCoreData | audit/database-integrity-check.php:111-154 | `core_data` becomes the core table; nothing else changes |
| DatabaseIntegrity.DatabaseIntegrityChecker.CheckDataConsistency | audit/database-integrity-check.php:156-200 | `data_consistency` becomes the consistency table; nothing else changes |
| DatabaseIntegrity.DatabaseIntegrityChecker.RunIntegrityCheck | audit/database-integrity-check.php:42-54 | without a connection only the failure is recorded and there is no report; with one, the three checks follow and the report is over their results |
| EnvironmentCheck.StatusOf | audit/environment-check.php:29 | a status is PASS iff its condition holds |
| EnvironmentCheck.CompatibleExamples | audit/environment-check.php:28-29 | the version test accepts 7.4 and 8.4 but rejects 8.0 to 8.3 |
| EnvironmentCheck.PhpEnvironmentOf | audit/environment-check.php:24-30 | `compatible` holds iff major is at least 7 and minor at least 4, and the status is PASS iff compatible |
| EnvironmentCheck.DatabaseConfigOf | audit/environment-check.php:80-84 | the configuration entry is PASS and found iff a file was found, with that file's path, and with the empty path otherwise |
| EnvironmentCheck.DatabaseConnectionOf | audit/environment-check.php:91-138 | the connection test succeeds iff the configuration yields a connection whose test query answers; `query_test` then holds iff the answer is 1 |
| EnvironmentCheck.LastFour | audit/environment-check.php:167 | `substr(..., -4)` keeps the last four characters, or the whole of a shorter string |
| EnvironmentCheck.DirCheckOf | audit/environment-check.php:152-178 | a directory entry marks the directory missing iff it does not exist, and is PASS iff the directory exists and is both readable and writable |
| EnvironmentCheck.EnvironmentResultsOf | audit/environment-check.php:86-139 | the connection is attempted iff some configuration file was found, and through the file found |
| EnvironmentCheck.Summarize | audit/environment-check.php:190-202 | the nested counting loops count exactly the items that carry a status, and pass exactly those whose status is PASS |
| EnvironmentCheck.SummarizeCategory | audit/environment-check.php:191-200 | a category with its own status counts once; otherwise its entries with a status count |
| EnvironmentCheck.SummarizeGroup | audit/environment-check.php:195-200 | the inner loop counts the entries that carry a status and the ones that are PASS |
| EnvironmentCheck.ExtensionsUncounted | audit/environment-check.php:195-200 | the extension flags are booleans without a status, so they add nothing to either count |
| EnvironmentCheck.DirsCounted | audit/environment-check.php:165-178 | every directory entry counts once and passes iff its directory passed |
| EnvironmentCheck.ItemsOfResults | audit/environment-check.php:190-202 | the summary sees the statuses of PHP, extensions, configuration, the connection when attempted, and the directories, in that order |
| EnvironmentCheck.EnvironmentTally | audit/environment-check.php:187-202 | with three directories there are 5 counted checks plus one when the connection was attempted, and the passed ones are exactly the PASS checks |
| EnvironmentCheck.ReadyIffOneFailure | audit/environment-check.php:204-215 | with 5 or 6 counted checks, the rounded rate reaches 80 iff at most one check failed |
| EnvironmentCheck.RunReadiness | audit/environment-check.php:187-215 | for every environment: 5 checks plus the connection test iff a configuration exists, and READY iff at most one of them failed |
| EnvironmentCheck.ExtensionLoop | audit/environment-check.php:47-54 | one flag per required extension, in order, true iff the extension is loaded |
| EnvironmentCheck.PermissionLoop | audit/environment-check.php:151-181 | one entry per checked directory, in order |
| EnvironmentCheck.RunEnvironmentCheck | audit/environment-check.php:10-215 | the script's results are those specified and its report is the summary of those results |
| SolutionGenerator.GeneratePathFixShape | audit/solution-generator.php:130-141 | every path fix is anchored at `__DIR__ . '/`; a `config/` path (checked first) or a `classes/` path moves into that directory under its base name, any other path is appended unchanged as `__DIR__ . '/' . path` |
| SolutionGenerator.GenerateRequireFixShape | audit/solution-generator.php:143-154 | every require fix is a `require_once __DIR__ . '/…` statement ending in `;` |
| SolutionGenerator.GenerateRequireFixCases | audit/solution-generator.php:143-154 | a path holding the bare word `config` (checked first) or `classes` moves into that directory under its base name, any other path is appended unchanged as `__DIR__ . '/' . path` |
| SolutionGenerator.TemplatesAgree | audit/solution-generator.php:130-154 | the require fix is the path fix as a statement, except for a path with a bare `config` or `classes` and no slash after it |
| SolutionGenerator.PathFixFor | audit/solution-generator.php:68-77 | an include yields a fix iff it has a risk; the fix is a high path fix carrying the file, line and current path |
| SolutionGenerator.FileFixesMeaning | audit/solution-generator.php:67-79 | a file yields one high path fix per risky include, each naming that file |
| SolutionGenerator.PathFixesMeaning | audit/solution-generator.php:64-82 | the static-analysis results yield one high path fix per risky include over all files |
| SolutionGenerator.ExtractFileFixes | audit/solution-generator.php:67-79 | the include loop yields the fixes specified for one file |
| SolutionGenerator.ExtractPathIssues | audit/solution-generator.php:64-82 | the file loop yields the path fixes specified, none when `files` is absent |
| SolutionGenerator.ErrorFixesMeaning | audit/solution-generator.php:84-111 | one high `$method` fix proposing the assignment per recorded method error, then one high require fix per recorded failure, carrying its include path |
| SolutionGenerator.ExtractErrorFixes | audit/solution-generator.php:84-111 | the two loops yield the error fixes specified, in that order |
| SolutionGenerator.SecurityFixFor | audit/solution-generator.php:116-125 | a config entry yields a fix iff its `security_status` is VULNERABLE; the fix is a medium security fix naming the file |
| SolutionGenerator.SecurityFixesCount | audit/solution-generator.php:113-128 | there is one security fix per vulnerable config entry |
| SolutionGenerator.SecurityFixesMedium | audit/solution-generator.php:113-128 | every extracted security fix is medium priority |
| SolutionGenerator.ExtractSecurityFixes | audit/solution-generator.php:113-128 | the loop yields the security fixes specified, none when `config_access` is absent |
| SolutionGenerator.ExtractedNotCritical | audit/solution-generator.php:49-128 | no fix extracted from saved results is critical |
| SolutionGenerator.AnalyzeResults | audit/solution-generator.php:49-62 | each result file is dispatched to its extractor; the routing results yield none |
| SolutionGenerator.LoadResults | audit/solution-generator.php:23-47 | the fixes of the saved result files are gathered in file order, and the count is the number of files present |
| SolutionGenerator.InsertionPoint | audit/solution-generator.php:341-344 | the insertion point lies within the sequence |
| SolutionGenerator.InsertionPointBounds | audit/solution-generator.php:341-344 | everything before the point ranks at most the inserted fix, everything after ranks strictly above it |
| SolutionGenerator.Insert | audit/solution-generator.php:341-344 | inserting adds exactly one element |
| SolutionGenerator.SortFixes | audit/solution-generator.php:341-344 | sorting keeps the length |
| SolutionGenerator.InsertMultiset | audit/solution-generator.php:341-344 | inserting adds the fix and loses nothing |
| SolutionGenerator.InsertSorted | audit/solution-generator.php:341-344 | inserting into a priority-sorted list keeps it sorted |
| SolutionGenerator.OfPrioritySnoc | audit/solution-generator.php:359-360 | selecting by priority distributes over appending one fix |
| SolutionGenerator.OfPriorityAppend | audit/solution-generator.php:359-360 | selecting by priority distributes over concatenation |
| SolutionGenerator.OfPriorityMember | audit/solution-generator.php:359-360 | a fix is selected iff it is in the list and has that priority |
| SolutionGenerator.OfPriorityNone | audit/solution-generator.php:359-360 | nothing is selected from a list without that priority |
| SolutionGenerator.OfPrioritySplit | audit/solution-generator.php:359-360 | selecting from a list is selecting from its two halves in turn |
| SolutionGenerator.InsertPieces | audit/solution-generator.php:341-344 | the selection of an insertion is the selections before and after the point around the inserted fix |
| SolutionGenerator.AfterPoint | audit/solution-generator.php:341-344 | nothing after the insertion point has the inserted fix's priority |
| SolutionGenerator.InsertOfPriority | audit/solution-generator.php:341-344 | inserting a fix moves it past no fix of its own priority |
| SolutionGenerator.SortFixesCorrect | audit/solution-generator.php:341-344 | the sort yields a priority-ordered permutation that is stable: the fixes of each priority keep their order |
| SolutionGenerator.InsertFix | audit/solution-generator.php:341-344 | the shifting loop places the fix as the insertion specifies |
| SolutionGenerator.SortByPriority | audit/solution-generator.php:341-344 | the sorting loop yields the stable sort specified |
| SolutionGenerator.SoleCriticalFirst | audit/solution-generator.php:341-344 | in a sorted list whose only critical fix is `c`, `c` comes first |
| SolutionGenerator.FixedFixesByPriority | audit/solution-generator.php:185-198 | after the database and `.htaccess` fixes are appended, the database fix is the only critical one and the `.htaccess` fix is the last high one |
| SolutionGenerator.SortedRun | audit/solution-generator.php:336-353 | the sorted list is a permutation with the critical fix first and the high fixes in the order they came |
| SolutionGenerator.GeneratedFixes | audit/solution-generator.php:13-21 | a whole run puts the database configuration fix first, as the only critical fix, and lists the extracted high fixes before the `.htaccess` fix |
| SolutionGenerator.SolutionGenerator.constructor | audit/solution-generator.php:11 | the generator starts with no fixes |
| SolutionGenerator.SolutionGenerator.LoadAuditResults | audit/solution-generator.php:23-47 | appends the fixes extracted from the saved results and returns how many were loaded |
| SolutionGenerator.SolutionGenerator.GeneratePathFixes | audit/solution-generator.php:156-169 | reports the path fixes so far and changes nothing |
| SolutionGenerator.SolutionGenerator.GenerateMethodVariableFixes | audit/solution-generator.php:171-183 | reports the `$method` fixes so far and changes nothing |
| SolutionGenerator.SolutionGenerator.GenerateConfigurationFixes | audit/solution-generator.php:185-202 | appends the critical database configuration fix |
| SolutionGenerator.SolutionGenerator.GenerateSecurityFixes | audit/solution-generator.php:266-282 | appends the high `.htaccess` security fix |
| SolutionGenerator.SolutionGenerator.PrioritizeFixes | audit/solution-generator.php:336-353 | replaces the fixes by their stable sort by priority |
| SolutionGenerator.SolutionGenerator.OutputSolutions | audit/solution-generator.php:355-379 | returns the critical fixes and the high fixes, each in list order |
| SolutionGenerator.SolutionGenerator.GenerateSolutions | audit/solution-generator.php:13-21 | the whole pipeline: the sorted extracted plus fixed fixes, the load count, and the critical and high selections |
| Translations.WalkWithin | src/hooks/use-language.ts:11-17 | whatever string the walk reaches lies within the tree it started from |
| Translations.LookupAnswers | src/hooks/use-language.ts:7-20 | `t` answers either the key itself or a string stored under the current language, and the key whenever the language has no table |
| Translations.LookupFinds | src/hooks/use-language.ts:7-20 | a string stored along a path of dot-free segments is what `t` answers for the dotted key of that path |
| Translations.WalkStops | src/hooks/use-language.ts:12-16 | once a segment is not a key of an object, the walk fails whatever lies below |
| Translations.Translate | src/hooks/use-language.ts:7-20 | the loop with its early return answers what the lookup specifies |
| Translations.UseLanguage | src/hooks/use-language.ts:4-27 | the hook passes the context's language and setter through, and its `t` is the lookup in the current language |

## Left out

- Output: the progress `echo`/`sprintf` output and the JSON result files written by `file_put_contents` are not modelled. Each checker's report is returned as a value instead.
- File system: `file_exists`, `is_dir`, `scandir`, the recursive directory iterators, `glob`, `fileperms`, `is_readable`, `is_writable`, `filesize` and `file_get_contents` are answered by the `FileSystem` and `Tree` inputs.
- Path names: path strings are taken literally. Nothing normalises `//`, `.` or `..`.
- Paths.Dirname: `dirname` and `basename` are a split at the last `/`. PHP's handling of trailing slashes is not reproduced.
- SecurityAudit.DirPermissionOf: `fileperms` is an integer mode in the metadata. Only its octal rendering is modelled.
- Includes: `require_once`/`include` of the deployed `database.php` and the `Database` class is not modelled. The database constructor's outcome is the `connect` input: PDO success, an exception, or a null connection.
- Queries: the PDO queries are abstract outcomes. A count is read as a PHP integer, so `=== 0` and `> 0` behave as on native integer fetches.
- DatabaseIntegrity: `analyzeRelationships` only echoes and stores raw query rows, so it is not modelled.
- Regular expressions: PCRE is not modelled in general. The fixed patterns are hand-coded in `Patterns`, and the translated sensitive-file globs in `SecurityAudit`.
- Scoring.RoundedTenths: `round(x, 1)` is computed exactly on rationals, with halves rounded up. Floating-point error near a half is not reproduced, and neither is the display of a score.
- Solution templates: the text of the database configuration template and the `.htaccess` template is replaced by placeholder constants. Only their presence and priority matter to the pipeline.
- Saved results: `json_decode` of the saved result files is not modelled. A saved file is its decoded structure, here the records the generator reads.
- Sorting: `usort` is modelled as a stable insertion sort, which is PHP 8's behaviour. Under PHP 7 equal-priority fixes could be reordered.
- StaticAnalysis.ReportOf: with no PHP files `results['files']` is never set, and `count(null)` in `generateReport` (audit/static-code-analysis.php:212) throws a `TypeError` under PHP 8. The model yields no report.
- RoutingTest: the unused `base_url` field is not modelled.
- Translations: the values that are neither strings nor objects (numbers, booleans, `null`, arrays) are collapsed into `Other`. A JavaScript array is an object, so the hook walks into it by index (`t("x.0")` on `{x: ["a"]}` yields `"a"`). The model does not capture that walk: such a lookup yields the key. JavaScript's prototype-chain behaviour of `k in value` is not modelled either.
- ErrorReproduction.FindPhpFiles: when the root directory is missing, `RecursiveDirectoryIterator` throws and the whole script ends, with no report (audit/error-reproduction.php:263). The model's listing is always a tree, so this case is not captured, and neither is its effect on ErrorReproduction.ErrorReproducer.ReproduceReportedErrors.
- SecurityAudit.FindFilesByPattern: when the root directory is missing, `RecursiveDirectoryIterator` throws and the audit ends, with no report (audit/security-audit.php:239). The model's listing is always a tree, so this case is not captured, and neither is its effect on SecurityAudit.SecurityAuditor.RunSecurityAudit.
- Translations.UseLanguage: the React context, `localStorage` and the language selector's rendering are not modelled. The context is a parameter of the hook.
