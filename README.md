# Donation-tracking chaincode, modelled in Dafny

The chaincode keeps projects, their milestones and the activities of each
milestone in the flat key-value world state of a permissioned ledger, and lets
donors fund projects. A donation is added to the project's unallocated pool. In
automatic allocation mode (`FundAllocationType` "2") one greedy pass over the
project's activities fully funds each activity in turn and stops at the first
one the running balance cannot cover.

The model has one module per concern:

- `Ledger` has the stored entities (`Project`, `Milestone`, `Activity`, any
  other bytes), the world state `Store = map<string, Record>`, ledger iterators
  and the transaction stub, a class whose `state` field `PutState`/`DelState`
  update in place.
- `GoText` has Go's byte length of a string, `strconv.Itoa`/`Atoi`,
  `FormatBool`/`ParseBool` and the decimal forms `ParseFloat` accepts. `JsonText`
  has the JSON array text the result builders write.
- `Lib` is lib.go: argument sanitation, the result-array builders (loops over
  the iterator with the "already written" flag) and the query helpers.
- `Queries` is query.go: the `get*` lookups, `getHistory` and `query`.
- `Projects` is project.go's create, update and delete handlers. `Funding` is
  `fundProject`: the allocation pass is a method over the decoded activity array
  with loop invariants.
- `Chaincode` is comgo.go: `Init`, the `Invoke` routing chain and the
  legacy `Query`.

Every handler is a method on the stub. Its `ensures` equates the response and
the new state with an `...Outcome` function of the old state. The source's
promises are stated on those functions and in lemmas beside them. Writes cannot
fail in the model, and every refusal happens before the first write. So a
refused call leaves the store unchanged, just as the platform discards the
writes of a failed transaction.

Where the code and its design description differ, the model follows the code:

- `query_all` returns Key/Record-wrapped results, not raw records.
- `fundProject` overwrites FundRaised with the amount plus the old
  FundNotAllocated; it does not add to it.
- In automatic mode, if the first activity cannot be funded, the whole pool is
  added to the old FundNotAllocated. That counts the old amount twice.
- With no activities at all, automatic mode drops the donation from
  FundNotAllocated.
- Invoke does not route `fundProject`, the delete handlers, `updateMilestoneStatus`,
  `updateActivityStatus`, `submitProof` or `query_all`, so these cannot be reached
  through it. Of the status handlers only `updateProjectStatus` is routed.

## Model

| member | source | states |
|---|---|---|
| GoText.ByteLen | lib.go:22-25 | Go's `len` of an argument counts UTF-8 bytes: one to four per character, exactly one per ASCII character |
| GoText.ByteLenEmpty | lib.go:22 | an argument has byte length 0 exactly when it is the empty string |
| GoText.ByteLenConcat | lib.go:22-25 | byte length adds up over concatenation |
| GoText.NatToString | comgo.go:139 | the decimal form of a number is a non-empty digit string with no leading zero |
| GoText.NatToStringValue | comgo.go:139 | the decimal digits written for a number denote that number |
| GoText.IntToString | comgo.go:139 | Itoa's text is non-empty, starts with '-' exactly for a negative number, and is decimal digits after the sign |
| GoText.Atoi | comgo.go:127-130 | Atoi accepts only an optional sign followed by at least one digit, with a value in the int64 range |
| GoText.AtoiOfIntToString | comgo.go:127-139 | Atoi reads Itoa's text of any int64 back as the same integer |
| GoText.AtoiCanonical | comgo.go:127-139 | re-rendering an integer Init accepted and parsing it again gives the same integer |
| GoText.ParseBool | lib.go:41-46 | parseBool drops strconv.ParseBool's error: it is true exactly for the six spellings strconv reads as true, and false for every other text, errors included |
| GoText.ParseBoolOfFormatBool | lib.go:41-46 | parseBool reads "true"/"false" back as the boolean they name |
| GoText.ParseFloat | lib.go:33-38 | parseFloat drops strconv.ParseFloat's error: a non-zero amount comes only from text strconv accepts, and rejected text gives 0 |
| GoText.ParseFloatOfIntToString | lib.go:33-38 | a decimal integer text parses to that amount |
| GoText.ParseFloatOfDigits | lib.go:33-38 | a plain string of decimal digits reads as the number it denotes |
| GoText.ParseFloatOfNonNumber | lib.go:33-38 | the parse error is dropped: text that starts with none of a digit, a sign, a point, or the i/I/n/N that begin the infinity and NaN spellings reads as amount 0 |
| GoText.ParseFloatOfDanglingExponent | lib.go:33-38 | "1e", a digit then an exponent marker with no exponent digits, is unparseable and reads as 0 |
| GoText.ParseOfEmpty | lib.go:33-46 | an empty argument reads as amount 0 and as flag false |
| JsonText.JoinedAppend | lib.go:216-219 | joining two non-empty runs of elements puts exactly one comma at the seam |
| JsonText.JsonArrayLength | lib.go:205-234 | the array text is as long as its elements plus one comma between each neighbouring pair plus the two brackets |
| JsonText.JsonArrayEmpty | lib.go:205-234 | no elements give the text "[]" |
| Ledger.PutKeepsWellKeyed | project.go:92 | storing an entity under its own ID keeps every entity document under its own ID |
| Ledger.PutExisting | project.go:175 | writing a key the document it already holds leaves the store unchanged |
| Ledger.DrainFailureSticks | lib.go:211-215 | once an iterator step fails, later steps do not change the outcome |
| Ledger.DrainMeaning | lib.go:211-215 | reading an iterator succeeds exactly when no step fails, and then gives every item in order; otherwise it gives the error of the first failing step |
| Lib.FirstInvalidFrom | lib.go:21-27 | the first argument from a given index on that is empty or longer than 2000 bytes |
| Lib.SanitizeError | lib.go:21-27 | the error names the first offending argument, and says "empty" exactly when that argument is empty |
| Lib.SanitizeArguments | lib.go:20-30 | succeeds exactly when every argument has 1 to 2000 bytes; otherwise returns the error for the first offending argument |
| Lib.WriteKeyRecord | lib.go:220-228 | appends `{"Key":"<key>", "Record":<value>}` to the buffer |
| Lib.Advance | lib.go:216-229 | one loop round over a result extends the drained items and the array text by that one element |
| Lib.Halt | lib.go:212-215 | a failing step ends the loop with that step's error |
| Lib.ConstructQueryResponseFromIterator | lib.go:205-234 | returns the Key/Record array of every result, or the first iterator error |
| Lib.MyFunctions | lib.go:343-372 | the same array shape, but each element is the stored value with no Key wrapper |
| Lib.GetQueryResultForQueryString | lib.go:87-127 | its own copy of the loop gives the same result as constructQueryResponseFromIterator: the Key/Record array, or the query's or the iterator's first error |
| Lib.GetQueryResultForQueryStringCouch | lib.go:319-337 | a query error or an iterator error is returned as is; otherwise the Key/Record array |
| Lib.GetQueryResultInBytesForQueryStringCouch | lib.go:157-175 | the same result as the Couch variant |
| Lib.GetQueryResultInStringForQueryStringCouch | lib.go:133-151 | the same array as text, or the text "nil" together with the error |
| Lib.Myfunction | lib.go:181-199 | the query run through myFunctions: raw values, or the first error |
| Lib.QueryAll | lib.go:295-313 | the selector is built from args[1], not args[0]; the answer is the Key/Record array; fewer than two arguments panics |
| Lib.EmptyResultsGiveEmptyArray | lib.go:205-234 | an empty result set gives "[]" from every builder |
| Lib.BrokenStepMeansNoOutput | lib.go:212-215 | an iterator error gives only that error and no partial array |
| Lib.AllStepsGiveEveryEntry | lib.go:205-234 | without iterator errors the array has every result in order, with commas only between elements |
| Queries.GetProject | query.go:21-34 | a project exists exactly when the stored document under the key decodes to a non-empty ProjectID; the error message for a missing one |
| Queries.GetMilestone | query.go:39-52 | the same, judged by the decoded MilestoneID |
| Queries.GetActivity | query.go:57-70 | the same, judged by the decoded ActivityID |
| Queries.PresentKeyIsNotExistence | query.go:27-31 | a key that is present but holds a project with an empty ID is not found |
| Queries.FoundUnderOwnKey | query.go:21-70 | in a well-keyed store, a found entity carries the ID it was looked up by |
| Queries.WriteHistoryEntry | query.go:116-141 | appends one entry: TxId, Value (null for a delete), Timestamp, IsDelete as quoted text |
| Queries.WriteHistoryElement | query.go:113-141 | writes the comma the flag calls for, then the entry |
| Queries.GetHistory | query.go:78-151 | exactly one argument is required; the response is the bracketed, comma-separated entries of the key's history, or the first error |
| Queries.DeletedEntry | query.go:121-139 | a delete entry has Value `null` and IsDelete `"true"` |
| Queries.HistoryInOrder | query.go:102-146 | without iterator errors there is one entry per version, in iterator order |
| Queries.HistoryOfDeletedKey | query.go:102-146 | a history holding only a delete renders as one entry with Value null |
| Queries.HistoryErrorAborts | query.go:106-110 | a history iterator error aborts with that error and no payload |
| Queries.HistoryResponse | query.go:91-151 | the response for the ledger's answer: an error from GetHistoryForKey is passed on; the answer is Ok exactly when every iterator step succeeds; it never panics |
| Queries.Query | query.go:154-166 | args[0] is passed verbatim as the selector, and the answer is the Key/Record array |
| Projects.Refusal | project.go:20-36 | the checks before any read: no certificate, then a wrong count, then the first unsanitary argument; no refusal exactly when all pass |
| Projects.Admit | project.go:20-36 | the shared prologue refuses exactly as Refusal says |
| Projects.SdgOf | project.go:54-59 | one SDG entry per decoded string, in order |
| Projects.BuildSdg | project.go:54-59 | the loop builds exactly that list |
| Projects.ProjectDetails | project.go:143-168 | takes the fund amounts and the allocation type from the arguments; identity, kind, approval and remarks are kept |
| Projects.NewProject | project.go:61-86 | a new project is keyed by args[0], of kind "Project", not approved, with no remarks |
| Projects.ProjectStatus | project.go:215-219 | Status becomes args[1], Flag args[2], IsPublished and IsApproved the booleans of args[3] and args[4], Remarks args[5]; nothing else changes |
| Projects.Flagged | project.go:329-330 | the parent project gets the given Status and Flag; nothing else changes |
| Projects.NewMilestone | project.go:319-327 | a new milestone is keyed by args[1] and refers to project args[0] |
| Projects.MilestoneDetails | project.go:391-395 | the update keeps the milestone's kind, ID, project reference and approval |
| Projects.NewActivity | project.go:590-605 | a new activity has IDs from args[0..2], the budget from args[6], and nothing allocated |
| Projects.ActivityDetails | project.go:685-696 | the update keeps kind, ID, both back-references and the allocated amount |
| Projects.ActivityStatus | project.go:779-781 | Status becomes args[1], IsApproved the boolean of args[2], Remarks args[3]; nothing else of the activity changes |
| Projects.ProjectDetailsIdempotent | project.go:143-168 | applying the update arguments twice is the same as once |
| Projects.UpdateOfNewProject | project.go:104-184 | updating a fresh project with its own creation arguments gives it back |
| Projects.AddProjectOutcome | project.go:16-101 | success exactly when admitted and the ID is not found; a found ID panics with no write; success writes only the project key |
| Projects.AddProject | project.go:16-101 | the handler's response and new store are those of AddProjectOutcome |
| Projects.UpdateProjectOutcome | project.go:104-184 | success exactly when admitted and found; only the found project's own key is rewritten |
| Projects.UpdateProject | project.go:104-184 | the handler's response and new store are those of UpdateProjectOutcome |
| Projects.UpdateProjectStatusOutcome | project.go:187-235 | success exactly when admitted and found; only the one project changes, taking Status, Flag, IsPublished, IsApproved and Remarks from args[1..5]; IDs and fund amounts are kept |
| Projects.UpdateProjectStatus | project.go:187-235 | the handler's response and new store are those of UpdateProjectStatusOutcome |
| Projects.DeleteProjectOutcome | project.go:238-276 | success exactly when admitted and found; exactly the key args[0] is removed |
| Projects.DeleteProject | project.go:238-276 | the handler's response and new store are those of DeleteProjectOutcome |
| Projects.UpdateProjectIdempotent | project.go:104-184 | a second identical updateProject leaves the store as the first left it |
| Projects.UpdateRewritesSame | project.go:175 | an update whose result is already stored changes nothing |
| Projects.AddThenDeleteProject | project.go:238-276 | deleting a project just added gives back the store from before |
| Projects.DeleteOfAdded | project.go:238-276 | deleting a stored project by its own ID succeeds and removes just it |
| Projects.AddMilestoneOutcome | project.go:281-352 | an existing milestone ID panics; a missing project fails with no write; success writes exactly the flagged project and the new milestone |
| Projects.AddMilestone | project.go:281-352 | the handler's response and new store are those of AddMilestoneOutcome |
| Projects.UpdateMilestoneOutcome | project.go:355-420 | the parent is found by the stored milestone's ProjectID; exactly that project and the milestone change, and the milestone keeps its IDs |
| Projects.UpdateMilestone | project.go:355-420 | the handler's response and new store are those of UpdateMilestoneOutcome |
| Projects.UpdateMilestoneStatusOutcome | project.go:423-490 | the milestone's Status and IsApproved change, and so do its project's Status, Flag and IsApproved; nothing else |
| Projects.UpdateMilestoneStatus | project.go:423-490 | the handler's response and new store are those of UpdateMilestoneStatusOutcome |
| Projects.DeleteMilestoneOutcome | project.go:493-541 | both lookups must succeed; exactly one key goes and the project is not rewritten |
| Projects.DeleteMilestone | project.go:493-541 | the handler's response and new store are those of DeleteMilestoneOutcome |
| Projects.AddActivityOutcome | project.go:546-640 | an existing activity ID panics; the milestone and the project must exist; success writes exactly the project, the milestone and the new activity |
| Projects.ActivityWrites | project.go:606-635 | the three writes change only the project, milestone and activity keys, each to its new document |
| Projects.AddActivity | project.go:546-640 | the handler's response and new store are those of AddActivityOutcome |
| Projects.UpdateActivityOutcome | project.go:643-732 | the parents are found by the stored activity's MilestoneID and ProjectID; exactly those three keys change |
| Projects.UpdateActivity | project.go:643-732 | the handler's response and new store are those of UpdateActivityOutcome |
| Projects.UpdateActivityStatusOutcome | project.go:735-818 | the stored activity takes Status args[1], IsApproved from args[2] and Remarks args[3] and keeps everything else; the milestone and project get their new statuses; nothing else changes |
| Projects.UpdateActivityStatus | project.go:735-818 | the handler's response and new store are those of UpdateActivityStatusOutcome |
| Projects.DeleteActivityOutcome | project.go:821-880 | all three lookups must succeed; exactly one key goes and the parents are not rewritten |
| Projects.DeleteActivity | project.go:821-880 | the handler's response and new store are those of DeleteActivityOutcome |
| Projects.SubmitProof | project.go:981-998 | the argument count is checked before the certificate; success exactly when both pass |
| Funding.FirstShort | project.go:928-939 | the first activity from a given index on that the running balance cannot cover; every one before it is covered |
| Funding.FundedCount | project.go:928-939 | the funded activities are exactly the longest prefix the running balance covers |
| Funding.AllocateAutomatically | project.go:926-956 | the pass funds exactly the first FundedCount activities, leaves the rest untouched, writes each funded activity in order, and returns the project AutoAllocated gives |
| Funding.FundActivity | project.go:929-954 | one funded activity: FundAllocated becomes the budget, Status "Fund Allocated", the balance falls by the remainder, and FundNotAllocated is zeroed, or set to the balance at the last index |
| Funding.BalanceNeverNegative | project.go:929-942 | after every funded activity the running balance is non-negative |
| Funding.BalanceWithinPool | project.go:940-942 | when no activity is over-funded already, the balance never increases and stays within the pool |
| Funding.MoreMoneyFundsMore | project.go:928-939 | a larger pool funds at least as many activities |
| Funding.AutoAllocatedTotals | project.go:928-948 | FundAllocated grows by the funded remainders; FNA (FundNotAllocated) ends as the leftover balance, or old FNA plus the pool if the first activity is unaffordable, or old FNA with no activities |
| Funding.AutoAllocated | project.go:928-948 | the project the pass leaves: FundAllocated grows by what the funded activities still needed, and only FundAllocated, Status and FundNotAllocated change |
| Funding.AutoDonationConservation | project.go:912-948 | allocated plus unallocated grows by exactly the donation only when an activity is funded, or when the first activity is unaffordable and nothing was unallocated before, or when there are no activities and the donation is zero |
| Funding.TwoActivitiesExample | project.go:928-948 | two activities of budget 400 and a pool of 500: one is funded, 400 is allocated and 100 stays unallocated |
| Funding.WriteFundedFrame | project.go:950-952 | keys other than the funded activities' IDs keep their documents |
| Funding.WriteFundedStores | project.go:950-952 | each funded activity is stored funded under its ActivityID unless a later one has the same ID |
| Funding.WriteFundedKeepsWellKeyed | project.go:950-952 | the activity writes keep every entity document under its own ID |
| Funding.AutoDonate | project.go:919-925 | a failing activity query is an error with no write; otherwise success |
| Funding.Donate | project.go:912-968 | success unless automatic mode's activity query fails; a failure writes nothing |
| Funding.FundProjectOutcome | project.go:885-973 | success exactly when admitted, found and, in automatic mode, the query succeeds; a missing project fails with no write |
| Funding.DonateWrites | project.go:917-968 | automatic mode writes the funded activities and then the project; manual mode writes only the project |
| Funding.ManualDonation | project.go:912-968 | manual mode: FundRaised and FundNotAllocated both become old FNA plus the amount, Flag is replaced, nothing else changes |
| Funding.ManualDonationExample | project.go:912-968 | 200 donated manually to a project with 50 unallocated gives 250 raised and 250 unallocated |
| Funding.AutoDonation | project.go:912-968 | automatic mode stores the project with FundRaised equal to the pool, the new Flag and its allocation type kept |
| Funding.DonateKeepsWellKeyed | project.go:912-968 | a donation keeps every entity document under its own ID |
| Funding.AutoFundedKeepsWellKeyed | project.go:950-968 | the activity writes and the project write of automatic mode keep every entity document under its own ID |
| Funding.FundProjectKeepsWellKeyed | project.go:885-973 | fundProject keeps every entity document under its own ID |
| Funding.FundProject | project.go:885-973 | the handler's response and new store are those of FundProjectOutcome |
| Funding.DonateTo | project.go:912-968 | the donation part of the handler matches Donate |
| Funding.FundAutomatically | project.go:917-968 | automatic mode queries, decodes, runs the pass and stores the project, as AutoDonate says |
| Chaincode.InitOutcome | comgo.go:116-146 | exactly one argument is required, and Atoi must accept it; otherwise an error with no write; success exactly when both hold |
| Chaincode.Init | comgo.go:116-146 | the entry's response and new store are those of InitOutcome |
| Chaincode.InitWrites | comgo.go:132-145 | a successful Init changes exactly "projects_ui" (to "3.5.0") and "selftest", which reads back as the integer passed |
| Chaincode.InitIdempotent | comgo.go:116-146 | a second Init with the same argument leaves the store as the first |
| Chaincode.Route | comgo.go:161-211 | a name is routed exactly when it is one of the 25 names of the chain |
| Chaincode.UnroutedHandlersAreUnknown | comgo.go:161-215 | fundProject, deleteProject, deleteMilestone, deleteActivity, updateMilestoneStatus, updateActivityStatus, submitProof, query_all and fund are not routed names |
| Chaincode.InvokeOutcome | comgo.go:151-216 | an empty argument list is refused before routing; an unknown name is refused with an error naming it; neither writes |
| Chaincode.HandlerOutcome | comgo.go:161-211 | getHistory and query never write, and every modelled handler that refuses leaves the store unchanged |
| Chaincode.ReadEntriesDoNotWrite | comgo.go:205-210 | reached through Invoke, getHistory and query leave the store unchanged |
| Chaincode.Invoke | comgo.go:151-216 | the entry's response and new store are those of InvokeOutcome |
| Chaincode.Dispatch | comgo.go:161-211 | runs the selected handler with the same arguments |
| Chaincode.Query | comgo.go:221-223 | the legacy entry always refuses |

## Left out

- Certificate extraction (`get_cert`, lib.go:51-81) parses PEM and X.509 with a foreign library. The stub carries the caller's common name as `identity`, and `None` stands for a certificate that cannot be read.
- Float arithmetic: amounts are `real`. `ParseFloat` covers the decimal forms with an optional exponent. Rounding to float64, infinities, NaN, hexadecimal forms and underscores are not modelled.
- GoText.ParseFloat: Go reads "inf", "infinity" and "nan" in any case, with an optional sign, as ±Inf or NaN. It also returns ±Inf together with a range error for a number too large for float64, and parseFloat keeps that value. The model gives 0 for the first group and the exact real for the second. So its "non-zero only from accepted text" holds for the decimal forms alone.
- JSON marshalling of records is not modelled; records are datatypes. Decoding a stored document as a different kind gives the zero record. The struct declarations and their JSON tags are not part of this model.
- Queries.FoundUnderOwnKey: it depends on that zero-record choice. A Milestone or Activity document also holds a `projectId` field, so Go might decode it as a Project carrying its parent's ID. `getProject` on a milestone's key would then succeed with a ProjectID other than the key. The WellKeyed preservation lemmas and the success conditions of the lookups rely on the same choice.
- Decoding of the SDG list (project.go:48-53) and of the activity array (project.go:924-925) are parameters in `Library`. The activity array is decoded from the Key/Record-wrapped query text, so what it yields depends on struct tags that are not part of this model.
- The query selector language and the order of results belong to the external store. A rich query and a key history are functions of the stub from the query text or the key to a sequence of iterator steps.
- Time rendering (`time.Unix(...).String()`, query.go:133) depends on the peer's time zone. It is the parameter `localTime`.
- Read failures: `GetState` always succeeds, so the "Failed to get project by id", "Failed to get milestone by id" and "Failed to get activity by id" errors (query.go:24-25, 42-43, 60-61) do not arise. In the source such a read error would also let the duplicate checks of addProject, addMilestone and addActivity pass.
- Write failures: `PutState` and `DelState` always succeed. So the `err` branches after writes, and the ignored errors of the activity writes (project.go:953-955), do not arise.
- The duplicate-ID branches call `err.Error()` on a nil error (project.go:43-45, 305-307, 569-571). They are modelled as a `Panic` response with no write; the panic message is not modelled.
- user.go (actor registration and `write`) and the `read` and `invke` entries are not part of this model. Invoke hands these routed names to the parameter `outside`.
- `fund` (project.go:976-978) is a stub that returns success, and no name routes to it. It is named only in `UnroutedHandlersAreUnknown`.
- Logging, `defer` of iterator closing, concurrency, and the ledger's commit and consensus are not modelled.
- Chaincode.Route: its contract states which names are routed, not which handler each name reaches. The handler for each name is visible in its body.
- Chaincode.InvokeOutcome: for routed names its contract only says which handler runs, through `HandlerOutcome`. Each handler's own contract holds the rest.
- Funding.DonateTo takes the amount already parsed as a `real`. The source calls parseFloat(args[1]) twice (project.go:912 and 958), and both calls give the same value; FundProject parses it once and passes it on.
