# DataZone subscription extract and Redshift refresh, modelled in Dafny

The repository holds two AWS Lambda handlers.

- `get_datazone_subscription_details_csv` walks an Amazon DataZone domain. It resolves the approver project by display name and pages through that project's subscriptions. It fetches each subscription's asset, access-scope filters, and the IAM identities of the requester and the last updater. It writes one 13-column CSV row per subscription visit.
- `load_csv_from_s3_to_redshift` refreshes a Redshift table through the Redshift Data API. It runs an existence check, a `TRUNCATE` only when the check's answer is truthy, and then a `COPY` from S3. Each statement is awaited by `wait_for_statement_completion` before the next one is submitted.

The model replaces every AWS call with data:

- The DataZone catalog is a `Catalog.Catalog` value. It holds the project pages, the subscription-id pages per approver project, and maps for subscriptions, assets, filters, subscription requests and user profiles. A key absent from a map stands for the service answering with a `ClientError`.
- The Data API's answers to one statement are a sequence of `describe_statement` polls, or a rejection of the `execute_statement` call.
- The CSV file is the sequence of lines the writer accepted.
- Python exceptions are a `Common.Exc` value.
  - Which exceptions the code catches follows the code: `except ClientError` around the page loop, and `except ClientError` in the refresher.
  - Every other exception escapes: `KeyError`, `IndexError`, `ValueError`, `UnboundLocalError`, and the waiter's bare `Exception`.

Each routine with a loop or a sequence of service calls is a `method`. Its `ensures` ties the result to a specification function, or states element by element what it builds. Lemmas state what those functions mean.

- `KeyPath`: `keys_exists` walking a nested dictionary.
- `SubscriptionExtract`, covering lines 39-150 of the extractor:
  - collecting projects, `dict2`, and the project-resolution loop;
  - the page loop over accumulated subscriptions;
  - the per-filter loop;
  - building the row.
- `ExtractProperties`: what the extract writes.
- `StatementWaiter`: the poll loop.
- `TableRefresher`: the three-statement refresh and its SQL texts.

## Behaviour of the code that the model follows

These are behaviours of the code as written that its names and comments do not suggest. The model keeps them.

- **Project resolution.** The scan over `dict2` has no `break`, so the last project with the name wins. When no project has the name, `selected_value` is never bound and line 58 raises `UnboundLocalError`.
- **Duplicate rows.** Every page re-processes the whole accumulated `subscriptions` list. A subscription listed on page `i` (counting from 0) of `n` is therefore written `n - i` times, not once.
- **Filter fields.**
  - `filter_name` is the string `'Full Access'` when there is no access scope. Otherwise it is the list of filter names.
  - `filter_columns` and `filter_row_expression` are overwritten by each filter that carries the key, so they hold the last such filter's value, while `filter_name` collects every name.
- **Created By / Updated By.** These are assigned only inside the filter loop.
  - A Full Access subscription, or one whose scope lists no filter, reuses the previous subscription's identities.
  - If there are no previous identities, it raises `UnboundLocalError`.
  - So a project whose only subscription has Full Access writes only the header, and then fails.
- **Non-IAM users.** A user profile without `details.iam` raises `KeyError`, which escapes.
- **Empty first page.** A page seen while nothing has accumulated makes the code write `{'Asset Name': '', 'Filters': ''}`. `csv.DictWriter` with its default `extrasaction='raise'` rejects that row with a `ValueError`, which escapes the `except ClientError`.
- **Existence check.** A Data API record cell such as `{'booleanValue': False}` is a non-empty dict, so it is truthy. `TRUNCATE` is then issued whatever the check answered.
- **Refresher failures.** A `FAILED` or `ABORTED` statement raises a bare `Exception`, which escapes `load_csv_from_s3_to_redshift` instead of producing return code 1.

## Model

| member | source | states |
|---|---|---|
| KeyPath.KeysExists | utility_extract_subscription_logs/lambda_extract_datazone_subscription_details.py:9-24 | A non-dict first argument raises AttributeError with the exact message. So does an empty key path. Otherwise the result is True iff the whole path is present. It is False iff a key is missing before any non-dict value is met. Subscripting a non-dict raises TypeError. |
| KeyPath.ReachedIffAllPresent | utility_extract_subscription_logs/lambda_extract_datazone_subscription_details.py:18-24 | The walk reaches a value iff, at every depth, the value reached so far is a dict holding the next key. |
| KeyPath.MissingKeyIsFirstMissing | utility_extract_subscription_logs/lambda_extract_datazone_subscription_details.py:19-23 | The walk reports a missing key at depth `d` iff depth `d` is the first failing depth and the value there is a dict. |
| KeyPath.WalkAppend | utility_extract_subscription_logs/lambda_extract_datazone_subscription_details.py:19-21 | Walking `p + q` is walking `p` and then `q` from where `p` ended, with depths shifted by `|p|`. |
| KeyPath.MissingDepthInRange | utility_extract_subscription_logs/lambda_extract_datazone_subscription_details.py:19-23 | A reported missing or non-subscriptable depth is a valid index into the key path. |
| KeyPath.MissingDepthAtStart | utility_extract_subscription_logs/lambda_extract_datazone_subscription_details.py:19-23 | A walk that misses at depth 0 started on a dict lacking the first key. |
| Catalog.IamArn | utility_extract_subscription_logs/lambda_extract_datazone_subscription_details.py:130-131 | The ARN is returned iff the user exists and is an IAM user. An unknown user gives the `GetUserProfile` ClientError. A user without `details.iam` gives `KeyError('iam')`, which is not caught. |
| Catalog.ScopeProbe | utility_extract_subscription_logs/lambda_extract_datazone_subscription_details.py:99-111 | Probing `subscribedListing.item.assetListing.assetScope` succeeds iff the listing carries an access scope. Otherwise only the last key is missing. |
| SubscriptionExtract.CollectProjects | utility_extract_subscription_logs/lambda_extract_datazone_subscription_details.py:39-42 | `projects` is every page's items, in page order. |
| SubscriptionExtract.ProjectNameIds | utility_extract_subscription_logs/lambda_extract_datazone_subscription_details.py:46-49 | `dict2` has the length and order of `projects`. Each entry keeps only that project's name and id. |
| SubscriptionExtract.ResolveProjectId | utility_extract_subscription_logs/lambda_extract_datazone_subscription_details.py:52-58 | The selected id is the last candidate whose name matches. It is unbound when none matches. |
| SubscriptionExtract.FetchFilter | utility_extract_subscription_logs/lambda_extract_datazone_subscription_details.py:115-131 | One filter pass equals `FilterStep`. It fails on a missing filter, a missing request or a failing profile lookup. Otherwise it appends the name, overwrites the present effective fields and sets both identities. |
| SubscriptionExtract.FetchFilters | utility_extract_subscription_logs/lambda_extract_datazone_subscription_details.py:115-131 | The filter loop equals the fold `FoldFilters` over `filterIds`. It stops at the first exception. |
| SubscriptionExtract.FoldStoppedPersists | utility_extract_subscription_logs/lambda_extract_datazone_subscription_details.py:115-131 | Once the filter loop has raised, later filter ids change nothing. |
| SubscriptionExtract.ProcessSubscription | utility_extract_subscription_logs/lambda_extract_datazone_subscription_details.py:86-150 | One subscription equals `SubscriptionStep`, in this order: `get_subscription` and `get_asset` failures, then the scope probe and the filter loop, then the unbound `created_by_name` / `updated_by_name`, then the 13-field row. |
| SubscriptionExtract.RowDict | utility_extract_subscription_logs/lambda_extract_datazone_subscription_details.py:134-148 | The row dictionary's keys are exactly the 13 fieldnames. `filter_name` is `'Full Access'` or the list of names. |
| SubscriptionExtract.RowAccepted | utility_extract_subscription_logs/lambda_extract_datazone_subscription_details.py:134-150 | The writer rejects no key of a subscription row. |
| SubscriptionExtract.WriterRejects | utility_extract_subscription_logs/lambda_extract_datazone_subscription_details.py:71 | The rejected keys are exactly the given keys that are not fieldnames. |
| SubscriptionExtract.PlaceholderRejected | utility_extract_subscription_logs/lambda_extract_datazone_subscription_details.py:70-83 | Both keys of the placeholder row are outside the fieldnames, so the writer rejects both. |
| SubscriptionExtract.VisitSubscription | utility_extract_subscription_logs/lambda_extract_datazone_subscription_details.py:85-150 | Processing one subscription from a running state extends the run by one visit. |
| SubscriptionExtract.WritePage | utility_extract_subscription_logs/lambda_extract_datazone_subscription_details.py:81-150 | One page's body extends the run by that page's work: the placeholder row, or one visit per accumulated subscription. |
| SubscriptionExtract.WritePages | utility_extract_subscription_logs/lambda_extract_datazone_subscription_details.py:77-150 | The page loop runs the schedule in which page `p` re-visits everything accumulated from pages `0..p`. |
| SubscriptionExtract.GetSubscriptionDetailsCsv | utility_extract_subscription_logs/lambda_extract_datazone_subscription_details.py:39-153 | The whole extraction equals `Extract`. An unmatched name escapes with nothing written. A `ClientError` stops the writing and keeps the lines written so far. Any other exception escapes. |
| SubscriptionExtract.HaltedPersists | utility_extract_subscription_logs/lambda_extract_datazone_subscription_details.py:65-153 | Once an exception has stopped the run, further work changes neither outcome nor lines. |
| SubscriptionExtract.SchedulePrefix | utility_extract_subscription_logs/lambda_extract_datazone_subscription_details.py:77-78 | The work of the first `p` pages is a prefix of the work of all pages. |
| SubscriptionExtract.HaltedAtPage | utility_extract_subscription_logs/lambda_extract_datazone_subscription_details.py:77-153 | A run that halts within the first `p` pages ends as it halted there. |
| ExtractProperties.ResolutionPicksLastMatch | utility_extract_subscription_logs/lambda_extract_datazone_subscription_details.py:52-58 | No id is selected iff no name matches. A matching project with no later match is the one selected. |
| ExtractProperties.UnmatchedProjectRaises | utility_extract_subscription_logs/lambda_extract_datazone_subscription_details.py:39-58 | Nothing is written iff no listed project has the name. In that case `UnboundLocalError('selected_value')` escapes. |
| ExtractProperties.RunStartsWithHeader | utility_extract_subscription_logs/lambda_extract_datazone_subscription_details.py:73 | Every run's lines start with the header. |
| ExtractProperties.FoldFiltersSummary | utility_extract_subscription_logs/lambda_extract_datazone_subscription_details.py:115-123 | A successful filter loop found every filter. It appended one name per filter id, in order. Columns and row expression are those of the last filter carrying the key, or the initial value. |
| ExtractProperties.FoldFiltersIdentities | utility_extract_subscription_logs/lambda_extract_datazone_subscription_details.py:126-131 | With no filter ids the identities are unchanged. Otherwise they are the request creator's and the last updater's IAM ARNs. |
| ExtractProperties.EmittedRowCopiesDetail | utility_extract_subscription_logs/lambda_extract_datazone_subscription_details.py:134-148 | A written row copies the listing name, the asset's external identifier, the subscription id, the project, the status, the request id and the formatted timestamps. |
| ExtractProperties.FullAccessRow | utility_extract_subscription_logs/lambda_extract_datazone_subscription_details.py:99-148 | Without a scope the row does not depend on filters, requests or user profiles. It says `'Full Access'` with empty columns and row expression. It keeps the previous identities, and raises `UnboundLocalError('created_by_name')` if there are none. |
| ExtractProperties.ScopedRow | utility_extract_subscription_logs/lambda_extract_datazone_subscription_details.py:107-147 | With a scope, `filter_name` lists one name per filter id, in order. Columns and row expression come from the last filter carrying each key, or are empty when none does. |
| ExtractProperties.ScopedIdentities | utility_extract_subscription_logs/lambda_extract_datazone_subscription_details.py:126-144 | With at least one filter, Created/Updated By are the looked-up ARNs. With an empty filter list they are carried over, or `created_by_name` is unbound. |
| ExtractProperties.RunRowCount | utility_extract_subscription_logs/lambda_extract_datazone_subscription_details.py:85-150 | A run that did not stop wrote exactly as many rows for an id as it visited that id. |
| ExtractProperties.ScheduleVisitCount | utility_extract_subscription_logs/lambda_extract_datazone_subscription_details.py:77-85 | An id listed once, on page `i` of `n`, is visited `n - i` times. |
| ExtractProperties.RowsPerSubscription | utility_extract_subscription_logs/lambda_extract_datazone_subscription_details.py:77-150 | A completed extraction holds `n - i` rows for a subscription listed once, on page `i` of `n`. |
| ExtractProperties.SingleFullAccessSubscription | utility_extract_subscription_logs/lambda_extract_datazone_subscription_details.py:99-142 | The only subscription has Full Access, so `UnboundLocalError('created_by_name')` escapes after only the header. |
| ExtractProperties.EmptyFirstPageRejected | utility_extract_subscription_logs/lambda_extract_datazone_subscription_details.py:77-83 | An empty first subscription page leads to a `ValueError` naming 'Asset Name' and 'Filters', which escapes after only the header. |
| StatementWaiter.FirstStop | lamda_datazone_subscription_extract_redshift.py:96-110 | The index returned is the first poll that ends the wait. |
| StatementWaiter.WaitForStatementCompletion | lamda_datazone_subscription_extract_redshift.py:92-110 | `describe_statement` is called (first terminal index + 1) times. The result is that poll's outcome. |
| StatementWaiter.AwaitOutcomes | lamda_datazone_subscription_extract_redshift.py:100-108 | A value is returned only from FINISHED: `Records[0][0]` when `Records` is present (IndexError when there is no such cell), and True when it is absent. FAILED raises "Query failed: " plus `Error` or "Unknown error". ABORTED raises "Query was aborted". A failing poll is the only source of a ClientError. |
| StatementWaiter.LaterPollsIgnored | lamda_datazone_subscription_extract_redshift.py:96-110 | Answers after the first terminal one change neither the poll count nor the result. |
| StatementWaiter.RunningRunningFinished | lamda_datazone_subscription_extract_redshift.py:96-103 | For RUNNING, RUNNING, FINISHED without records, the waiter polls three times and returns True. |
| TableRefresher.CheckTableSqlLayout | lamda_datazone_subscription_extract_redshift.py:30-37 | The existence query is the f-string's text: each line on its own, indented by eight spaces, schema and table quoted inside the WHERE and AND lines, and the closing quotes on a line of their own. |
| TableRefresher.TruncateSqlNamesTable | lamda_datazone_subscription_extract_redshift.py:52 | TRUNCATE starts with `TRUNCATE TABLE `, names `<schema>.<table>` right after it, and ends with `;`. |
| TableRefresher.CopySqlLayout | lamda_datazone_subscription_extract_redshift.py:66-72 | The COPY command is the f-string's text: target, S3 source, IAM role, `CSV` and `IGNOREHEADER 1`, each on its own indented line. |
| TableRefresher.CheckSqlQuotesNames | lamda_datazone_subscription_extract_redshift.py:30-37 | The existence query contains `table_schema = '<schema>'` and `table_name = '<table>'`. |
| TableRefresher.CopySqlNamesSourceAndRole | lamda_datazone_subscription_extract_redshift.py:66-72 | The COPY contains `COPY <schema>.<table>`, `FROM 's3://<bucket>/<key>'`, `IAM_ROLE '<role>'`, `CSV` and `IGNOREHEADER 1`. |
| TableRefresher.StatementTextsDiffer | lamda_datazone_subscription_extract_redshift.py:30-72 | The check, TRUNCATE and COPY texts are pairwise distinct. |
| TableRefresher.LinesContain | lamda_datazone_subscription_extract_redshift.py:30-72 | Every line of a triple-quoted query occurs in its text. |
| TableRefresher.Refresh | lamda_datazone_subscription_extract_redshift.py:25-90 | Each statement returns before the next is submitted. The check is first, and every later statement is TRUNCATE or COPY. TRUNCATE is second iff the check returned a truthy value. COPY is last. The outcome is 0 iff the last statement returned, 1 for a ClientError, and otherwise the exception escapes. |
| TableRefresher.RunStatement | lamda_datazone_subscription_extract_redshift.py:39-48 | `execute_statement` followed by the waiter. A rejected submission is the `ExecuteStatement` ClientError. |
| TableRefresher.LoadCsvFromS3ToRedshift | lamda_datazone_subscription_extract_redshift.py:25-90 | The straight-line handler equals `Refresh`. |
| TableRefresher.RefreshSucceeds | lamda_datazone_subscription_extract_redshift.py:39-86 | 0 is returned iff the check returned, TRUNCATE returned whenever the check's answer was truthy, and COPY returned. Every statement of such a run returned. |
| TableRefresher.ReturnCodes | lamda_datazone_subscription_extract_redshift.py:86-90 | The return code is 0 or 1. It is 1 iff the failing step raised a ClientError. An escaping exception is never a ClientError. |
| TableRefresher.MissingTableSkipsTruncate | lamda_datazone_subscription_extract_redshift.py:50-72 | A falsy check answer puts the COPY directly after the check. |
| TableRefresher.WaiterFailureEscapes | lamda_datazone_subscription_extract_redshift.py:104-108 | A FAILED or ABORTED answer to any statement escapes instead of returning 1. |
| TableRefresher.TruncatedTableNotRestored | lamda_datazone_subscription_extract_redshift.py:50-84 | If TRUNCATE completed and COPY failed, the run ends with the COPY. No restoring statement follows, and 0 is not returned. |
| TableRefresher.FalseBooleanCellStillTruncates | lamda_datazone_subscription_extract_redshift.py:48-52 | A check answered with the cell `{'booleanValue': False}` still leads to TRUNCATE. |
| Common.LastSomeIsLast | utility_extract_subscription_logs/lambda_extract_datazone_subscription_details.py:52-56 | The last-overwrite value is None iff no entry is present. Otherwise it is the last present entry. |
| Common.ConcatGrows | utility_extract_subscription_logs/lambda_extract_datazone_subscription_details.py:77-78 | The accumulated list only grows: earlier pages' accumulation is a prefix of later pages' accumulation. |

## Left out

- boto3 clients and sessions, the paginators, and Secrets Manager with `json.loads` are left out. Their answers are input data: the `Catalog`, the pages, and the poll sequences.
- Errors raised by `list_projects` pagination are not modelled. They happen before the `try` at line 65, so they would simply escape.
- An error from `list_subscriptions` is modelled only as an unknown approver project. That is the `ListSubscriptions` ClientError, caught after the header is written.
- Opening `/tmp/subscriptions.csv` in append mode is not modelled. Lines left by earlier invocations are therefore not part of the model.
- CSV quoting and the `str()` rendering of list cells are not modelled. A written line is a `CsvLine` value.
- The S3 `upload_file` after the extraction is not modelled.
- `strftime('%Y-%m-%d %H:%M:%S')` is the opaque parameter `fmt`.
- The datetime fields are left out of the subscription document that `keys_exists` probes, because they are not JSON-like values.
- `time.sleep(2)` and the real-time behaviour of `while True` are left out. `StatementWaiter.WaitForStatementCompletion` requires that some poll is terminal.
- `response['Id']`, and any `KeyError` from answers missing `Status`, are not modelled.
- The catalog's records make mandatory every field the extractor subscripts without checking: `subscribedListing.item.assetListing.entityId` (line 90), `externalIdentifier` (line 93), `assetScope.filterIds` (line 111), the filter's `name` (line 118), `createdBy` and `updatedBy` (lines 126-128), and the fields copied into the row (lines 135-143). The `KeyError` a missing one would raise, which escapes `except ClientError` and skips the upload, is not modelled.
- What Redshift really returns from `describe_statement` is given by the poll data, not modelled.
- Both `lambda_handler`s are not part of this model: they read environment variables, print, and wire arguments.
- All `print` calls are left out.
- The column `filter_columns` is modelled as a list of strings. An `effectiveColumnNames` that is not a list is not represented.
