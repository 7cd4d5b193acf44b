# Change-ticket compliance dashboard, modelled in Dafny

The dashboard serves ServiceNow change tickets from an in-memory store.
Each ticket is checked against five compliance rules:

- Required Fields, Approval Chain and Rollback Plan have severity error.
- Testing Evidence and Change Window have severity warning.

A ticket gets one of three verdicts:

- compliant: every rule passes;
- non-compliant: three or more rules fail, or any error-severity rule fails;
- warning: anything else.

The backend lists, filters, sorts and pages tickets. It looks a ticket up by id, computes dashboard statistics, and prepares the ticket summary that the chat assistant is given. The browser client builds the query string for the list request and turns non-OK responses into errors.

The model has one module per source file:

- `Wrappers`: the `Option` and `Result` types.
- `Models`, for `backend/app/models.py`: the enumerations, the records and the truthiness of optional strings.
- `MockData`, for `backend/app/mock_data.py`: the rule catalog, the verdict, building the store, and five of the store's raw tickets as test vectors.
- `TicketSort`: the sort keys and the rank tables of the list endpoint. Python's sort is modelled as a stable insertion sort.
- `Tickets`, for `backend/app/routers/tickets.py`: listing, lookup and statistics.
- `Chat`, for `backend/app/routers/chat.py`: the ticket-context projection, message conversion, reply extraction and the environment getters.
- `Api`, for `frontend/src/services/api.ts`: query parameters, URLs and the response check. It also encodes and decodes names and values and reads a query string back, so the form can be connected end to end to the server's selection.

The store is a sequence that is passed in. The handlers never mutate it. The environment, the model's response and HTTP responses are parameters, too.

## Model

| member | source | states |
|---|---|---|
| Models.ParsePriority | backend/app/models.py:21 | a string is accepted as a priority exactly when it is the name of that priority |
| Models.ParseStatus | backend/app/models.py:22 | a string is accepted as a status exactly when it is the name of that status |
| MockData.CheckRequiredFields | backend/app/mock_data.py:9-23 | the Required Fields result has severity error and passes iff all six required values are present and non-empty; a suggestion is given exactly when it fails |
| MockData.CheckApprovalChain | backend/app/mock_data.py:25-33 | Approval Chain has severity error and passes iff the approver list is present and non-empty; a suggestion is given exactly when it fails |
| MockData.CheckTestingEvidence | backend/app/mock_data.py:35-43 | Testing Evidence has severity warning and passes iff the evidence is present and non-empty; a suggestion is given exactly when it fails |
| MockData.CheckChangeWindow | backend/app/mock_data.py:45-53 | Change Window has severity warning and passes iff the window is present and non-empty; a suggestion is given exactly when it fails |
| MockData.CheckRollbackPlan | backend/app/mock_data.py:55-63 | Rollback Plan has severity error and passes iff the plan is present and non-empty; a suggestion is given exactly when it fails |
| MockData.Evaluate | backend/app/mock_data.py:17-63 | there are exactly five results, in catalog order and with catalog severities; each one passes iff its condition on the raw ticket holds |
| MockData.FailedCountZero | backend/app/mock_data.py:66 | no failures iff every rule passed |
| MockData.ErrorCountPositive | backend/app/mock_data.py:67 | the error count is positive iff some failed result has severity error |
| MockData.Verdict | backend/app/mock_data.py:69-74 | compliant iff everything passed; non-compliant iff at least three failures or a failed error-severity rule; warning otherwise |
| MockData.ThreeFailuresIncludeAnError | backend/app/mock_data.py:69-74 | with this catalog, three failures always include an error-severity rule |
| MockData.CatalogVerdict | backend/app/mock_data.py:4-76 | the verdict in terms of the ticket's fields alone: a missing required field, approver list or rollback plan gives non-compliant; otherwise a missing testing evidence or change window gives warning; otherwise compliant |
| MockData.ValidateTicket | backend/app/mock_data.py:4-76 | returns the catalog's results and the verdict over them |
| MockData.FromRaw | backend/app/mock_data.py:339-350 | the record is built iff record validation accepts the raw fields; the built record carries the raw values, the results and the status |
| MockData.BuiltIsWellFormed | backend/app/mock_data.py:339-350 | a stored ticket has five results and a compliance status that agrees with them |
| MockData.GetMockTickets | backend/app/mock_data.py:339-350 | succeeds iff every raw ticket can be built; the store has one record per raw ticket, in order, each built from its raw ticket |
| MockData.SchemaMigrationIsCompliant | backend/app/mock_data.py:81-97 | CHG0012345 is compliant |
| MockData.MissingTestingEvidenceIsWarning | backend/app/mock_data.py:98-114 | CHG0012346 fails one rule only and is a warning |
| MockData.CacheExpansionIsNonCompliant | backend/app/mock_data.py:132-148 | CHG0012348 fails exactly Approval Chain and Rollback Plan, and is non-compliant |
| MockData.MissingChangeWindowIsWarning | backend/app/mock_data.py:149-165 | CHG0012349 is a warning |
| MockData.FirewallUpdateIsNonCompliant | backend/app/mock_data.py:200-216 | CHG0012352 fails four rules and is non-compliant |
| TicketSort.KeyLeTotalOrder | backend/app/routers/tickets.py:34-39 | every sort key (date string or rank) is totally ordered in Python's comparison order |
| TicketSort.ParseSortField | backend/app/routers/tickets.py:34-41 | exactly the four names createdAt, priority, compliance and scheduledStartDate select a sort key |
| TicketSort.PriorityRank | backend/app/routers/tickets.py:36 | Critical, High, Medium and Low rank 0 to 3; any other name ranks 4 |
| TicketSort.ComplianceRank | backend/app/routers/tickets.py:37 | non-compliant, warning and compliant rank 0 to 2; any other name ranks 3 |
| TicketSort.PrecedesTotalPreorder | backend/app/routers/tickets.py:41-43 | the order used by the sort is total and transitive; tickets that do not precede each other have different keys |
| TicketSort.StableSort | backend/app/routers/tickets.py:43 | the sorted list is a permutation of its input |
| TicketSort.Insert | backend/app/routers/tickets.py:43 | insertion adds exactly the one element |
| TicketSort.InsertSorted | backend/app/routers/tickets.py:43 | inserting into a sorted list keeps it sorted |
| TicketSort.SortSorted | backend/app/routers/tickets.py:41-43 | the result is sorted by the chosen key, descending iff sort_order is "desc" |
| TicketSort.InsertWithKey | backend/app/routers/tickets.py:43 | insertion keeps the relative order of tickets with equal keys |
| TicketSort.SortStable | backend/app/routers/tickets.py:43 | the sort is stable: for every key, the tickets with that key keep their input order |
| TicketSort.CriticalFirstWhenAscending | backend/app/routers/tickets.py:36-43 | by priority ascending every Critical ticket comes first; descending, every Critical ticket comes last |
| Tickets.Matching | backend/app/routers/tickets.py:24-31 | a ticket survives the filters iff it is in the input and satisfies every constraint |
| Tickets.MatchingCompose | backend/app/routers/tickets.py:24-31 | filtering twice equals filtering once with both constraint lists |
| Tickets.SatisfiesConstraints | backend/app/routers/tickets.py:24-31 | the accumulated constraints hold iff each truthy filter parameter equals the ticket's field |
| Tickets.Selected | backend/app/routers/tickets.py:21-31 | a ticket is selected iff it is in the store and matches every truthy filter |
| Tickets.ApplyFilters | backend/app/routers/tickets.py:21-31 | the four filter steps in place compute exactly the selection |
| Tickets.Arrange | backend/app/routers/tickets.py:34-43 | sorting keeps the multiset; an unknown sort_by leaves the order unchanged; a known one yields a list sorted by that key, descending iff sort_order is "desc", in which tickets with equal keys keep their order |
| Tickets.Slice | backend/app/routers/tickets.py:49 | a Python slice clamped to the list: its length and its elements |
| Tickets.Page | backend/app/routers/tickets.py:46-49 | a page holds at most page_size tickets; it is empty past the end; its i-th ticket is the ((page-1)*page_size+i)-th |
| Tickets.PagesUpToPrefix | backend/app/routers/tickets.py:46-49 | the first k pages joined equal the first k*page_size tickets |
| Tickets.AllPagesReassemble | backend/app/routers/tickets.py:46-49 | enough pages reassemble the whole list with no loss or duplication |
| Tickets.ListTickets | backend/app/routers/tickets.py:9-56 | the total counts the whole selection; the page is the requested page of the sorted selection; page and size are echoed; every listed ticket is in the store and matches the filters |
| Tickets.ListedTicketsMatch | backend/app/routers/tickets.py:21-49 | every ticket on any page is a stored ticket that matches the filters |
| Tickets.UnfilteredTotalIsStoreSize | backend/app/routers/tickets.py:21-46 | with no filters the total is the store size |
| Tickets.FindTicket | backend/app/routers/tickets.py:59-65 | found iff some stored ticket has the id, and then it is the first such ticket; otherwise the error is 404 "Ticket not found" |
| Tickets.GetTicket | backend/app/routers/tickets.py:59-65 | the scan returns what FindTicket specifies |
| Tickets.CountIsFilteredTotal | backend/app/routers/tickets.py:74-79 | a count equals the size of the list filtered on that value |
| Tickets.CompliancePartition | backend/app/routers/tickets.py:74-76 | the compliant, warning and non-compliant counts sum to the number of tickets |
| Tickets.CountAtMostTotal | backend/app/routers/tickets.py:74-79 | no count exceeds the number of tickets |
| Tickets.FrequencySum | backend/app/routers/tickets.py:82-89 | the entries of a frequency table sum to the number of tickets tallied |
| Tickets.Tally | backend/app/routers/tickets.py:82-89 | the loop builds the frequency table: one key per value that occurs, mapped to its number of occurrences |
| Tickets.GetStats | backend/app/routers/tickets.py:68-99 | the totals and counts are right; the three compliance counts sum to the total; pending approval never exceeds it; both tables are exact frequency tables whose entries sum to the total |
| Chat.FailedRules | backend/app/routers/chat.py:62 | one name per failed result; a rule is named iff some failed result has that rule |
| Chat.Summarize | backend/app/routers/chat.py:63-78 | the summary copies id, number, short description, assignee, requester, priority, status, compliance status and scheduled start, and lists the failed rules; approval flag iff an approver list is present and non-empty; the other flags iff the field is present |
| Chat.GetTicketsContext | backend/app/routers/chat.py:58-78 | one summary per stored ticket, in store order |
| Chat.FailedValidationsOfStoredTicket | backend/app/routers/chat.py:62 | for a stored ticket, a catalog rule is listed iff it failed, and the number listed is the failure count |
| Chat.ApprovalFlagAgreesWithRule | backend/app/routers/chat.py:74 | the approval flag is set iff Approval Chain is not listed as failed |
| Chat.PresenceFlagsVersusRules | backend/app/routers/chat.py:75-77 | each presence flag is set iff its rule passed or the field is an empty string; the flags test presence, while the rules test non-emptiness |
| Chat.EmptyRollbackPlanIsReportedPresent | backend/app/routers/chat.py:76 | an empty rollback plan is reported as present while Rollback Plan is listed as failed and the ticket is non-compliant |
| Chat.ConvertMessages | backend/app/routers/chat.py:129-132 | one converted message per input message, with the same role and exactly one content block whose text is the message content |
| Chat.ConcatTextsEmpty | backend/app/routers/chat.py:155-158 | the concatenation is empty iff no block carries non-empty text |
| Chat.TextlessBlockSkipped | backend/app/routers/chat.py:157 | a block without text contributes nothing |
| Chat.ReplyText | backend/app/routers/chat.py:155-161 | the reply is never empty: it is the concatenated text when that is non-empty, and the fallback sentence otherwise |
| Chat.ReplyOfConvertedMessage | backend/app/routers/chat.py:129-161 | extracting text from a converted message gives back its content |
| Chat.ConvertMessagesRoundTrip | backend/app/routers/chat.py:129-132 | role and concatenated text of each converted message give back the original message |
| Chat.ContentOf | backend/app/routers/chat.py:150-152 | a missing output, message or content gives no blocks; otherwise the blocks are the content |
| Chat.ExtractReply | backend/app/routers/chat.py:150-161 | the loop computes the reply of the response's content, which is never empty |
| Chat.Getenv | backend/app/routers/chat.py:14 | a variable is read iff it is set, and then it has its value |
| Chat.FirstNonEmpty | backend/app/routers/chat.py:14 | Some iff a candidate is present and non-empty, and then the result is such a candidate |
| Chat.GetBedrockRegion | backend/app/routers/chat.py:12-14 | the region is never empty: it is the first non-empty of AWS_DEFAULT_REGION, AWS_REGION and "us-east-1" |
| Chat.GetBedrockProfile | backend/app/routers/chat.py:17-19 | a usable profile is the first non-empty of AWS_PROFILE and BEDROCK_PROFILE; otherwise the result is what BEDROCK_PROFILE holds (unset or empty) |
| Chat.GetBedrockModel | backend/app/routers/chat.py:22-29 | a set BEDROCK_MODEL_ID is used as is, even when empty; an unset one gives the Nova Pro default |
| Chat.EmptyVariableHandling | backend/app/routers/chat.py:14-29 | an empty region variable falls through to the default, while an empty model variable yields an empty model id |
| Api.ParamOf | frontend/src/services/api.ts:8-13 | a field yields a parameter iff it is present and non-empty, and the parameter carries its name and value |
| Api.QueryParamsOf | frontend/src/services/api.ts:6-13 | at most six parameters are sent, none with an empty value |
| Api.Lookup | frontend/src/services/api.ts:8-13 | the server finds a value for a name iff a parameter with that name was sent |
| Api.LookupQueryParams | frontend/src/services/api.ts:8-13 | the server reads each form field back exactly when it is non-empty |
| Api.NoPagingSent | frontend/src/services/api.ts:5-16 | the client never sends page or page_size |
| Api.SearchParams.constructor | frontend/src/services/api.ts:6 | a new parameter list is empty |
| Api.SearchParams.Append | frontend/src/services/api.ts:8-13 | appending adds one pair at the end and changes nothing else |
| Api.SearchParams.ToString | frontend/src/services/api.ts:15 | the query string is empty iff no pair was appended, and it reads back into exactly the appended pairs |
| Api.QueryString | frontend/src/services/api.ts:15 | the joined string is empty iff there are no parameters |
| Api.Escape | frontend/src/services/api.ts:15 | an encoded name or value contains no `&` and no `=` |
| Api.UnescapeEscape | frontend/src/services/api.ts:15 | decoding an encoded string gives back the original, whatever its characters |
| Api.ParseRendered | frontend/src/services/api.ts:15 | a serialised `name=value` pair reads back as the same pair |
| Api.ParseQueryString | frontend/src/services/api.ts:15 | the query string reads back into exactly the parameters it was built from, for every name and value |
| Api.TicketsUrl | frontend/src/services/api.ts:16 | "?" and the query string follow the list path only when the query string is non-empty |
| Api.FetchTicketsUrl | frontend/src/services/api.ts:5-16 | appending in place gives the URL of the form's parameter list |
| Api.QueryOfTicketsUrl | frontend/src/services/api.ts:16 | the part of the list URL after its first "?" is exactly the query string it was built with |
| Api.TicketIdOfTicketUrl | frontend/src/services/api.ts:26 | for a non-empty id of ASCII letters, digits, `-`, `_` and `~`, the server reads from the single-ticket URL exactly that id |
| Api.SlashInIdLeavesTheRoute | frontend/src/services/api.ts:26 | because the id is not encoded, the id "a/b" spans two path segments and reaches no ticket route |
| Api.QuestionMarkInIdCutsItShort | frontend/src/services/api.ts:26 | an id containing `?` reaches the server cut short at the `?` |
| Api.EscapeInIdIsDecoded | frontend/src/services/api.ts:26 | an escape written in an id reaches the server decoded |
| Api.ParseNat | backend/app/routers/tickets.py:17-18 | an integer query value is read exactly from a non-empty string of decimal digits, and is non-negative |
| Api.ParseNatString | backend/app/routers/tickets.py:17-18 | a number written in decimal reads back as itself |
| Api.ServerQuery | backend/app/routers/tickets.py:10-18 | the query is accepted iff page and page_size are absent or integers, with page at least 1 and size from 1 to 100, and is otherwise rejected with 422; absent paging takes the defaults 1 and 20; an accepted query has valid paging |
| Api.PagingSentIsRead | backend/app/routers/tickets.py:17-18 | page and page_size sent in decimal are accepted exactly when in range, and are then read as sent |
| Api.ServerReadsForm | frontend/src/services/api.ts:5-13 | the server accepts the form's parameters; because no paging is sent, it uses the first page of the default size; it reads the form's sort and selects exactly the stored tickets matching every non-empty form field |
| Api.FormReachesServer | frontend/src/services/api.ts:5-16 | from the list URL the page requests, the server accepts the query, uses the form's sort and the first page of the default size, and selects exactly the stored tickets that match every non-empty form field |
| Api.CheckResponse | frontend/src/services/api.ts:19-22 | a non-OK response becomes "Failed to fetch <what>: <statusText>"; an OK response yields its body, or "Invalid response body" when the body is not JSON |
| Api.ServeTicket | backend/app/routers/tickets.py:59-65 | the response is OK iff a ticket has the id |
| Api.ServeTicketAt | backend/app/routers/tickets.py:59-65 | a URL whose path has no single `{ticket_id}` segment gets 404; otherwise the response is the lookup of the id read from the path |
| Api.FetchTicketEndToEnd | frontend/src/services/api.ts:25-31 | fetching from the single-ticket URL of a non-empty id of ASCII letters, digits, `-`, `_` and `~` yields the stored ticket iff it exists, and otherwise "Failed to fetch ticket: Not Found" |

## Left out

- Constructing the Bedrock client and calling the model are left out (`backend/app/routers/chat.py:32-42,135-147`). So is the mapping of client errors to HTTP 500 (`chat.py:165-187`). These are calls into the AWS SDK. The model's reply enters as a `ModelResponse` value.
- The JSON text of the ticket context and the system prompt are left out (`chat.py:79,82-126`). The context is modelled as the list of summaries that would be serialised.
- The web framework is left out: routing, CORS, the root and health endpoints, and `backend/app/main.py`. `main.py` mounts only the tickets router, so the chat endpoint is not reachable in the running app. Its logic is modelled all the same.
- `Query(ge=1, le=100)` validation is modelled in `Api.ServerQuery`, which answers 422 for paging it does not accept. The handler body `ListTickets` is reached only after that validation, so it takes `ValidPaging` as a precondition.
- Api.ServerQuery: an integer is read only from a string of decimal digits. Pydantic also accepts a sign, surrounding whitespace and underscores. FastAPI's 422 body, a list of error details, is modelled as one `HttpError` with the reason phrase "Unprocessable Entity".
- The React components and hooks are left out, as is `fetchStats`. `fetchStats` differs from `fetchTicket` only in its path. Its error path is the generic `CheckResponse`.
- `fetch` and `response.json()` are parameters. `response.json()` rejects only a body that is not JSON. A JSON body of another shape is returned as it is, because TypeScript types are not checked at run time. The model's absent body stands only for the non-JSON case, which becomes `Failure("Invalid response body")`. A JSON body of the wrong shape is not modelled.
- Api.Escape: only `%`, `&` and `=` are percent-encoded, and `Api.Unescape` decodes only `%25`, `%26` and `%3D`. These are the characters that carry meaning in a query string. `URLSearchParams` also encodes spaces as `+` and other characters as `%XX`, and the server decodes them back. The model keeps those characters as they are. This does not change which parameters the server reads back.
- Api.TicketUrl: `fetchTicket` puts the id into the path without encoding it. An id with other characters than ASCII letters, digits, `-`, `_` and `~` need not reach `get_ticket` unchanged. The cases with `/`, `?` and `%` are proved on concrete ids (`Api.SlashInIdLeavesTheRoute`, `Api.QuestionMarkInIdCutsItShort`, `Api.EscapeInIdIsDecoded`). The server's percent-decoding of the path is modelled by `Api.Unescape`, which decodes only `%25`, `%26` and `%3D`.
- Api.TicketIdOf: the rewriting that `fetch`'s URL parser applies before the request is sent is not modelled. It strips leading and trailing spaces and control characters, removes tabs and line breaks, reads `\` as `/`, and resolves `.` and `..` segments. So `fetchTicket("1 ")` reaches ticket "1" in the program, while the model reads the id "1 ". `Api.PathSafe` excludes every such id.
- Api.ServeTicketAt: the framework's trailing-slash redirect is not modelled. The program answers ".../tickets/" and ".../tickets/1/" with a 307 redirect, to the list and to ticket 1. The model answers both with 404.
- FetchTicketEndToEnd: stated only for non-empty ids of ASCII letters, digits, `-`, `_` and `~` (`Api.PathSafe`), because the client does not encode the id and the URL parser and router rewrite or redirect other ids. The ticket ids of the store are decimal numbers, which are among them.
- Api.Lookup: when a name repeats, the last value wins. The client never repeats a name, so this choice does not affect any lemma about the form.
- `list.sort` is a library call. Its contract is modelled as a stable insertion sort over a total preorder, not as Timsort.
- Date fields are compared as strings, as Python compares them. No calendar semantics are modelled.
- Record validation on building the store is modelled as success or failure (`MockData.Constructible`). Pydantic's error messages are not modelled.
- Behaviour of the code worth knowing:
  - the order is descending only when `sort_order` is exactly "desc";
  - tickets with equal keys keep their order and are not tie-broken by number;
  - an unknown filter value matches nothing and raises no error;
  - CHG0012348's raw record has neither an approval chain nor a rollback plan, so it fails both rules.
- Only five of the fifteen raw tickets of the store are written out as test vectors. The store is otherwise a parameter.
- The "Not Found" reason phrase of the 404 response follows section 15.5.5 of RFC 9110.
