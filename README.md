# PBX call-flow engine

This project models the call-flow engine of an IVR (interactive voice
response) server for small-business customers. A telephone exchange (the
PBX) calls the server over HTTP once when a call arrives, and again after
every answer the caller keys in. Each time, the server answers with a
*menu descriptor*: the next prompt to play, its name, and the keys it
accepts. The PBX sends the caller's answer back under that name.

The engine keeps one *session* per call: a dictionary keyed by call id,
holding the PBX parameters and every answer given so far. It reads and
writes a customer database. The engine drives:

- a **profile wizard**: registration, then the first missing field among
  national id, owner age, gender and child count;
- a **main menu**;
- a **receipt flow**: amount, client phone, client id, save-contact choice,
  description, then the call to the receipt provider;
- a **personal-details flow**: child count, one birth year per child, then
  the workplace counts of two spouses, persisted in one write;
- a **message service** and an **annual-report service**.

Modules:

| module | contents |
|---|---|
| `Wrappers`, `Digits` | `Option`; digit strings and the integer parsing `int()` does on them |
| `Sessions` | session values (`Str`, `Int`, `IntList`, `Null`), Python truthiness, the session-shape invariant |
| `Menus` | every menu descriptor the server builds, with its kind, name, keys and length bounds |
| `Database` | the database as a value (customers by phone, details, contacts, receipts, messages, report requests, call log, call-data writes), the key constraints of its customer tables, and the writes the handler issues |
| `Flow` | the engine as functions on values. Each step maps a `State` (sessions and database) to the next state and an `Outcome` (a menu, or an exception that escapes to the route). It also holds the profile wizard `ProfileNext`, the dispatch by input name, and both routes |
| `Handler` | class `PBXHandler`. Its fields `currentCalls` and `db` are updated in place by one method per handler step, and each method is proved to end in the state and answer of its `Flow` function. The route loops are methods with loop invariants |
| `Routing` | which prompt's answer reaches which step |
| `ProfileFlow`, `ReceiptSteps`, `DetailsWizard`, `Services`, `Routes` | what each answer does, as seen from the dispatch entry point |
| `Invariants` | properties of every hit: the session-shape invariant, the raw input kept and logged once, each step writing only its own session keys, the key constraints of the customer tables kept |

Some inputs are parameters of each hit, collected in `Env`:

- the current year;
- the receipt provider's answer;
- the two database predicates `is_profile_complete` and
  `is_subscription_active`, whose bodies are not part of this model.

The database is a real field of the handler, not ghost state, because the
handler's decisions read it: customer lookup, contact lookup, profile
completeness.

Some of the menus promise more than the code that answers them does. The model follows the code:

- The amount-error and receipt-failure menus (`invalidAmount`,
  `receiptFailed`, pbx_server.py:266-270 and 357-361) say "press 1 to
  retry". `handle_user_input` has no branch
  for those names, so any answer to them only stores the value and returns
  the main menu (`Routing.RetryPromptsFallThrough`).
- The client-id prompt offers `#` to skip, and a skip sends the empty value
  (pbx_server.py:275-280).
  `handle_menu_choice` rejects an empty value as `invalidChoice` before any
  step runs (pbx_server.py:541-546) (`Routes.ClientIdSkipRejected`). The fallback search is guarded
  by the same check, so the skip never reaches the client-id step, and the
  step's branch that stores `None` for an empty id is unreachable from the
  routes.
- Both routes wrap their work in `except Exception` and answer HTTP 500
  with an error body (pbx_server.py:513-515 and 550-552), so an exception
  escaping a step ends the call's menu flow. Exceptions that escape
  include:
  - an answer to the renewal menu, whose handler method does not exist;
  - a non-integer amount reaching the description step;
  - a session value of the wrong type.

  The model has them as the `Raise` outcome.

## Model

| member | source | states |
|---|---|---|
| Flow.ProfileNext | pbx_server.py:100-132 | Registration exactly when the phone has no customer. Otherwise, when the profile is reported incomplete, the national-id, owner-age, gender or child-count prompt exactly when that field is the first missing one in that order. The main menu exactly when the profile is complete or none of the four checks fires |
| ProfileFlow.ProfileNextReadsProfile | pbx_server.py:100-132 | The wizard's answer depends only on the customers and details tables, so call logging and call-data writes do not change it |
| ProfileFlow.ProfileNextReadsOwnRows | pbx_server.py:100-132 | The wizard's answer for a phone depends only on that phone's customer row and that customer's details row |
| Flow.RouteOfCases | pbx_server.py:143-178 | A name falls through to the final `else` exactly when it is none of the dispatched names and lacks the `child_birth_year_` prefix. The birth-year step is chosen exactly for prefixed names, the spouse step exactly for the two spouse keys |
| Flow.DispatchedNamesLackPrefix | pbx_server.py:143-160 | No name tested before the prefix test carries the prefix, so the prefix test sees every prefixed name |
| Flow.NewCustomerChoice | pbx_server.py:181-190 | The national-id prompt exactly when the choice is "1", and the main menu exactly when it is anything else |
| Flow.MainMenuChoice | pbx_server.py:236-251 | Each of "1" to "6" gives its own service menu (receipt amount, cancel receipt, child count, benefits, recording, annual report), each exactly for that choice; the main menu exactly for any answer outside "1".."6" |
| Flow.ReceiptAmount | pbx_server.py:253-270 | The main menu exactly for "SKIP", the client-phone prompt exactly for any other answer that parses to a positive integer, and the `invalidAmount` menu exactly for the remaining answers |
| Flow.ReceiptRows | pbx_server.py:332-356 | Exactly one receipt row is appended and every earlier row is kept. The row is linked to the contact when there is one and finalised from the provider's answer; no other table changes |
| Flow.DescriptionStep | pbx_server.py:309-361 | With no amount or no known caller, the error menu and no change. Any other menu answer follows exactly one new receipt. The sessions never change |
| Flow.CallParams | pbx_server.py:477-490 | The logged parameters are the eight PBX names, each with its value or `None`, plus every argument whose name does not start with "PBX", and nothing else |
| Flow.CoreArgs | pbx_server.py:497-499 | The merged parameters are exactly the core PBX names sent with a non-empty value, with those values |
| Flow.CoreOfParams | pbx_server.py:498-499 | Filtering the collected parameters by the core names and truthiness gives exactly `CoreArgs` |
| Flow.PbxRequest | pbx_server.py:474-512 | HTTP 400 exactly when the phone is missing or empty. Registration exactly for an unknown phone, renewal exactly for an inactive subscription. The new state is the session with the core parameters merged in and the call logged |
| Flow.FirstPresent | pbx_server.py:531-539 | The index returned names a present argument and no earlier name is present; with no index, no name is present |
| Flow.ChosenInput | pbx_server.py:529-539 | An argument named after the menu is the input. Any value found is that of a present argument under the name returned |
| Handler.CollectCallParams | pbx_server.py:477-490 | The loop builds exactly `CallParams(args)` |
| Handler.FindFallbackInput | pbx_server.py:531-539 | The loop's result is a present fallback name with no earlier one present, or none present at all |
| Handler.FirstPresentUnique | pbx_server.py:531-539 | Any index meeting that description is the one `FirstPresent` returns, so the loop and the function agree |
| Handler.PBXHandler.constructor | pbx_server.py:70-77 | No sessions, and the given database |
| Handler.PBXHandler.SetField | pbx_server.py:137-138 | `setdefault` then item assignment: the call's session, created empty if missing, gets the key; nothing else changes |
| Handler.PBXHandler.ProcessNewCustomerId | pbx_server.py:192-212 | The new state and answer are those of `NewCustomerIdStep` |
| Handler.PBXHandler.ProcessOwnerAge | pbx_server.py:214-225 | The new state and answer are those of `OwnerAgeStep` |
| Handler.PBXHandler.ProcessGender | pbx_server.py:227-233 | The new state and answer are those of `GenderStep` |
| Handler.PBXHandler.ProcessClientPhone | pbx_server.py:272-280 | The new state and answer are those of `ClientPhoneStep` |
| Handler.PBXHandler.ProcessClientId | pbx_server.py:282-289 | The new state and answer are those of `ClientIdStep` |
| Handler.PBXHandler.ProcessSaveContactChoice | pbx_server.py:291-307 | The new state and answer are those of `SaveContactStep` |
| Handler.PBXHandler.ProcessReceiptDescription | pbx_server.py:309-361 | The new state and answer are those of `DescriptionStep` |
| Handler.PBXHandler.SaveReceipt | pbx_server.py:332-361 | The create-then-update sequence leaves the database as `ReceiptRows` says and the sessions unchanged; the answer reports the provider's outcome |
| Handler.PBXHandler.ProcessChildrenCount | pbx_server.py:364-380 | The new state and answer are those of `ChildrenCountStep` |
| Handler.PBXHandler.ProcessChildBirthYear | pbx_server.py:382-403 | The new state and answer are those of `BirthYearStep`; the accepted branch is stated by `StoredBirthYearEffect` and the rejection branch by `BirthYearRejected` |
| Handler.PBXHandler.AppendChildBirthYear | pbx_server.py:388-401 | The in-place append to the year list and the cursor update end in the state and answer of `AppendBirthYear` |
| Handler.PBXHandler.ProcessSpouseWorkplaces | pbx_server.py:413-440 | The new state and answer are those of `SpouseStep` |
| Handler.PBXHandler.ProcessCustomerMessage | pbx_server.py:442-452 | The new state and answer are those of `MessageStep` |
| Handler.PBXHandler.ProcessAnnualReportChoice | pbx_server.py:454-466 | The new state and answer are those of `AnnualReportStep` |
| Handler.PBXHandler.HandleUserInput | pbx_server.py:135-178 | Storing the raw input and dispatching ends in the state and answer of `HandleInput` |
| Handler.PBXHandler.DispatchInput | pbx_server.py:142-178 | The `elif` chain ends in the state and answer of `Dispatch` |
| Handler.PBXHandler.DispatchReceiptInput | pbx_server.py:165-178 | The receipt part of the chain and its final `else` end in the state and answer of `Dispatch` |
| Handler.PBXHandler.HandlePbxRequest | pbx_server.py:474-512 | Collecting, logging, merging and deciding end in the state and response of `PbxRequest` |
| Handler.PBXHandler.HandleMenuChoice | pbx_server.py:519-552 | Merging, the fallback search, the empty-value check and the dispatch end in the state and response of `MenuChoice` |
| Routing.BirthYearPromptRoutes | pbx_server.py:157-158 | The answer to every birth-year prompt reaches the birth-year step |
| Routing.FirstSpousePromptName | pbx_server.py:405-411 | The prompt for spouse 1 is named `spouse1_workplaces` |
| Routing.SecondSpousePromptName | pbx_server.py:405-411 | The prompt for spouse 2 is named `spouse2_workplaces` |
| Routing.SpouseKeysRoute | pbx_server.py:159-160 | Both spouse-workplace names reach the spouse step |
| Routing.ProfilePromptsRouteBack | pbx_server.py:143-154 | The answers to the registration, national-id, renewal, age and gender prompts reach their own steps |
| Routing.MenuPromptsRouteBack | pbx_server.py:149-164 | The answers to the main menu, the child-count prompt, the recording and the annual-report menu reach their own steps |
| Routing.ReceiptPromptsRouteBack | pbx_server.py:166-171 | The answers to the amount, client-phone and client-id prompts reach their own steps |
| Routing.ContactPromptsRouteBack | pbx_server.py:172-175 | The answers to the save-contact and description prompts reach their own steps |
| Routing.RetryPromptsFallThrough | pbx_server.py:176-178 | The answers to `invalidAmount` and `receiptFailed` reach no step |
| Routing.OtherPromptsFallThrough | pbx_server.py:176-178 | The answers to the cancel-receipt, details-updated, benefits and system-error prompts reach no step |
| Routing.UnrecognizedOnlyStores | pbx_server.py:135-178 | An undispatched name gives the main menu. The only effects are the raw value stored under its name and one call-data write |
| ProfileFlow.NewCustomerChoiceEffect | pbx_server.py:143-144 | Through the dispatch entry point, the registration answer "1" gets the national-id prompt exactly, anything else the main menu; the only effects are the raw value stored and one call-data write |
| ProfileFlow.NewCustomerIdEffect | pbx_server.py:192-212 | Without a caller phone, the main menu and no profile write. With one, the caller's customer exists afterwards with this national id and its other fields kept, and no other customer row changes. The answer is the wizard's, never registration, and never the id prompt again for a non-empty id. Under the key constraints, they still hold afterwards, no details row of an already assigned id changes, and the wizard answers every other phone as before |
| ProfileFlow.NewCustomerIdForCaller | pbx_server.py:192-212 | The caller's part of that effect: the main menu without a phone; otherwise the caller's row with the new id, every other customer row kept, and the wizard's reply |
| ProfileFlow.NewCustomerIdKeepsOthers | pbx_server.py:196-205 | Under the key constraints, the step keeps them, leaves every details row of an already assigned id as it was, and leaves the wizard's answer for every other phone unchanged |
| ProfileFlow.NewCustomerIdHitKeepsOthers | pbx_server.py:135-140 | The same holds for the whole hit, after the raw input is stored and logged |
| ProfileFlow.OwnerAgeEffect | pbx_server.py:214-225 | An age in [14, 99] for a known caller is written to that customer alone and the wizard moves past the age question. Any other answer writes nothing and the wizard answers from the unchanged profile |
| ProfileFlow.InvalidAgeReasks | pbx_server.py:214-225 | A rejected age while the wizard is on the age question asks for the age again |
| ProfileFlow.GenderEffect | pbx_server.py:227-233 | "1" and "2" write male and female to a known caller alone, and the wizard moves past the gender question. Any other choice writes nothing |
| ReceiptSteps.AmountEffect | pbx_server.py:253-270 | The amount is kept under `receiptAmount`. The reply is the client-phone prompt exactly for a positive integer, and "SKIP" gives the main menu |
| ReceiptSteps.ClientPhoneEffect | pbx_server.py:272-280 | The phone is kept as `client_phone` and the client-id prompt follows; the database only gets the call-data write |
| ReceiptSteps.ClientIdEffect | pbx_server.py:282-289 | The id is kept as `client_tz`, an empty id as `None`; the save-contact menu follows |
| ReceiptSteps.SaveContactEffect | pbx_server.py:291-307 | "1" from a known caller leaves a contact for (caller, client phone) noted `added_via_ivr`, carrying the client id when one was given, with no other contact changed. Any other answer changes nothing but the call-data write. The description prompt follows in every case |
| ReceiptSteps.DescriptionOf | pbx_server.py:327 | The skip value gives the default description; any other value is kept |
| ReceiptSteps.ReceiptIssued | pbx_server.py:309-361 | With an amount and a known caller, exactly one receipt is appended and every earlier one kept. It has the caller, call, amount, description, client fields and saved contact, is `completed` with the provider's document exactly when the provider succeeded, and `failed` otherwise. The reply reports the outcome; customers and contacts are unchanged |
| ReceiptSteps.NoReceiptWithout | pbx_server.py:309-326 | No amount or no known caller gives the error menu; a non-integer amount raises. Neither writes a receipt |
| DetailsWizard.ChildrenCountEffect | pbx_server.py:364-380 | A count in [0, 20] sets `children_count` and `current_child` = 1. The next prompt is spouse 1 for zero and the first birth year otherwise. Other input gives the error menu and sets neither. The year list is never reset |
| DetailsWizard.BirthYearDispatch | pbx_server.py:157-158 | A prefixed name stores the raw input and then runs the birth-year step |
| DetailsWizard.AppendBirthYearEffect | pbx_server.py:388-401 | The year is appended to the list. The cursor goes up by exactly one while below the count, with the prompt for that child; otherwise spouse 1 is asked. The database is untouched |
| DetailsWizard.StoredBirthYearEffect | pbx_server.py:382-401 | After the raw input is stored, an accepted year extends the list by exactly that year, keeps the wizard ready for the next answer and keeps the caller's phone and profile (rejected years: `BirthYearRejected`) |
| DetailsWizard.BirthYearRejected | pbx_server.py:382-403 | A prefixed answer that is not a year from 50 years back up to the current year stores the raw input, logs it once, leaves the year list and cursor unchanged and gives the error menu |
| DetailsWizard.BirthYearAdvance | pbx_server.py:382-403 | One accepted birth year, through the dispatch entry point: the list grows by that year, the cursor moves by one up to the count, and the next prompt is the next child's or spouse 1's |
| DetailsWizard.BirthYearRun | pbx_server.py:382-403 | Answering the remaining children's prompts in turn gets each next child's prompt and finally spouse 1's. The list grows by exactly the years given, in order, and the caller's phone and profile are kept |
| DetailsWizard.RunReplies | pbx_server.py:393-401 | For any step that advances the cursor as the birth-year step does, a run of answers gets the next child's prompt after each and spouse 1's after the last |
| DetailsWizard.RunSession | pbx_server.py:388-394 | For any such step, a run appends exactly the years given and leaves the cursor at the count |
| DetailsWizard.AnswersAreHits | pbx_server.py:382-403 | Feeding accepted years to the dispatch entry point is a run of the birth-year step |
| DetailsWizard.ChildCountReady | pbx_server.py:364-378 | A child count in [1, 20] asks for child 1, puts the wizard at child 1 of that count and keeps the years collected so far |
| DetailsWizard.BirthYearsFromFirstChild | pbx_server.py:382-403 | From child 1 of n, answering n accepted years gets each next child's prompt and finally spouse 1's; the list grows by exactly those years and the cursor ends at n |
| DetailsWizard.ChildrenThenBirthYears | pbx_server.py:364-403 | A child count n followed by n accepted years: the prompt for child 1, then each next child's, then spouse 1's, with exactly those years appended in order |
| DetailsWizard.SpouseDispatch | pbx_server.py:159-160 | Either spouse name stores the raw input, then runs the spouse step |
| DetailsWizard.SpouseWorkplacesEffect | pbx_server.py:413-440 | A count in [0, 10] is kept under its name. Spouse 1 leads to the spouse 2 prompt with no database write. Spouse 2 writes the collected details (with the 0 and empty-list defaults) for an existing customer and confirms. Other input gives the error menu and writes nothing |
| Invariants.UntypedKeysHoldStrings | pbx_server.py:137-138 | In a well-shaped session store, every key other than the typed ones holds a string or `None` |
| Invariants.DispatchKeepsShape | pbx_server.py:142-178 | Every step keeps the session store well shaped and only adds calls and keys |
| Invariants.HandleInputKeepsShape | pbx_server.py:135-178 | Every answer keeps the session store well shaped and only adds calls and keys |
| Invariants.PbxRequestKeepsShape | pbx_server.py:497-499 | The first request of a call keeps the session store well shaped and only adds |
| Invariants.MenuChoiceKeepsShape | pbx_server.py:519-548 | Every menu answer keeps the session store well shaped and only adds |
| Invariants.StepsKeepCallData | pbx_server.py:142-178 | No step writes to the call-data record |
| Invariants.RawInputLogged | pbx_server.py:139-140 | Every answer is written to the call-data record exactly once, as (call, name, value) |
| Invariants.RawInputKept | pbx_server.py:137-138 | After any answer the raw value is in the session under its name, unless the name is a spouse key and the count was accepted; that case is stated by `SpouseWorkplacesEffect` |
| Invariants.StepWritesOnly | pbx_server.py:142-178 | A step changes no session key outside the ones its own branch writes |
| Invariants.ProfileStepsKeepDbValid | pbx_server.py:192-233 | The registration, age and gender steps keep the key constraints of the customer tables |
| Invariants.DetailsStepsKeepDbValid | pbx_server.py:364-440 | The child-count, birth-year and spouse steps keep the key constraints; the details write goes to the caller's own id |
| Invariants.ServiceStepsKeepCustomers | pbx_server.py:291-466 | The save-contact, description, message and report steps leave the customers, the details rows and the id counter as they were |
| Invariants.DispatchKeepsDbValid | pbx_server.py:142-178 | Every step of the dispatch chain keeps the key constraints |
| Invariants.HandleInputKeepsDbValid | pbx_server.py:135-178 | Every answer keeps the key constraints |
| Invariants.PbxRequestKeepsDbValid | pbx_server.py:474-499 | The first request of a call keeps the key constraints |
| Invariants.MenuChoiceKeepsDbValid | pbx_server.py:519-548 | Every menu answer keeps the key constraints |
| Routes.PbxRequestSession | pbx_server.py:474-499 | The first request of a call stores every core parameter sent non-empty and keeps every other session field and every other call. The call is logged with all its parameters and nothing else in the database changes |
| Routes.ActiveCallerStartsInWizard | pbx_server.py:504-512 | A known caller with an active subscription starts where the wizard says, judged on the database before the request |
| Routes.MenuChoiceDelegates | pbx_server.py:519-552 | A non-empty value named after the menu is dispatched under that name after the merge. The step's menu is returned as JSON, and an escaping exception becomes HTTP 500 |
| Routes.FallbackDelegates | pbx_server.py:528-552 | Without an argument named after the menu, the first present fallback name is the input: an empty value there gets `invalidChoice` after the merge, a non-empty one is dispatched under that name, its menu returned as JSON and an escaping exception as HTTP 500 |
| Routes.FallbackIsFirstPresent | pbx_server.py:528-539 | Without an argument named after the menu, a value is found exactly when some fallback name is present, and it is the first present one in the fixed order |
| Routes.NoValueIsInvalid | pbx_server.py:541-546 | With no value at all, `invalidChoice` is returned and the database is untouched |
| Routes.ClientIdSkipRejected | pbx_server.py:541-546 | The client-id prompt's own skip value gets `invalidChoice` and reaches no step |
| Routes.RenewalAnswerFails | pbx_server.py:147-148 | A non-empty answer sent under the renewal menu's own name ends in HTTP 500 (an empty one gets `invalidChoice`, see `NoValueIsInvalid`) |
| Services.MessageEffect | pbx_server.py:442-452 | A non-empty recording from a known caller is saved once; otherwise nothing is saved. The confirmation follows either way |
| Services.AnnualReportEffect | pbx_server.py:454-466 | "1" files exactly one request for a known caller and confirms; any other choice files nothing and returns to the main menu |
| Services.MainMenuEffect | pbx_server.py:149-150 | Through the dispatch entry point, each main-menu choice "1" to "6" gets its own service menu exactly for that choice and any other the main menu; the only effects are the raw value stored and one call-data write |
| Database.SameCustomersKeepDbValid | database_handler.py:63-65 | A write that leaves the customers, the details rows and the id counter alone keeps the key constraints: distinct ids below the counter, each customer under its own unique phone |
| Database.CreateCustomer | pbx_server.py:200 | A new row under the phone with the next id and no profile fields, plus its empty details row, every earlier customer kept. Under the key constraints, they still hold and no earlier details row changes |
| Database.SetTzId | pbx_server.py:204 | Only the caller's row changes, only in its national id; the key constraints are kept |
| Database.SetOwnerAge | pbx_server.py:222 | Only the caller's row changes, only in its age; the key constraints are kept |
| Database.SetGender | pbx_server.py:232 | Only the caller's row changes, only in its gender; the key constraints are kept |
| Database.UpdateDetails | pbx_server.py:427-432 | Only that customer's details row changes, to the given row; the key constraints are kept when the id is already assigned |
| Menus.NewCustomerMenu | pbx_server.py:556-564 | A well-formed choice menu accepting 1 and 2 |
| Menus.SubscriptionRenewalMenu | pbx_server.py:567-575 | A well-formed choice menu accepting 1 and 2 |
| Menus.MainMenu | pbx_server.py:578-586 | A well-formed choice menu accepting 1 to 6 and 0 |
| Menus.CreateReceiptMenu | pbx_server.py:589-594 | A well-formed digit entry of 1 to 7 digits |
| Menus.CancelReceiptMenu | pbx_server.py:597-602 | A well-formed digit entry of 1 to 10 digits |
| Menus.UpdatePersonalDetailsMenu | pbx_server.py:605-610 | A well-formed digit entry of 1 to 2 digits |
| Menus.ShowBenefitsMenu | pbx_server.py:613-618 | A well-formed choice menu accepting 1 and 0 |
| Menus.LeaveMessageMenu | pbx_server.py:621-627 | A well-formed recording of 3 to 180 seconds |
| Menus.AnnualReportMenu | pbx_server.py:630-635 | A well-formed choice menu accepting 1 and 0 |
| Menus.SystemErrorMenu | pbx_server.py:86-97 | A well-formed choice menu accepting 0 |
| Menus.NewCustomerIdPrompt | pbx_server.py:106-112 | A well-formed digit entry of 8 to 10 digits |
| Menus.OwnerAgePrompt | pbx_server.py:114-119 | A well-formed digit entry of 1 to 2 digits |
| Menus.GenderMenu | pbx_server.py:121-126 | A well-formed choice menu accepting 1 and 2 |
| Menus.ClientPhonePrompt | pbx_server.py:260-264 | A well-formed digit entry of 9 to 11 digits |
| Menus.InvalidAmountMenu | pbx_server.py:266-270 | A well-formed choice menu accepting 1 and 0 |
| Menus.ClientIdPrompt | pbx_server.py:275-280 | A well-formed digit entry of 0 to 10 digits, skipped with `#`, which sends the empty value |
| Menus.SaveContactMenu | pbx_server.py:285-289 | A well-formed choice menu accepting 1 and 2 |
| Menus.DescriptionPrompt | pbx_server.py:302-307 | A well-formed digit entry of 1 to 20 digits, skipped with `#`, which sends `NO_DESCRIPTION` |
| Menus.ReceiptSuccessMenu | pbx_server.py:345-350 | A well-formed choice menu accepting 0 that reads out the provider's document number, or "not available" without one |
| Menus.ReceiptFailedMenu | pbx_server.py:357-361 | A well-formed choice menu accepting 1 and 0 |
| Menus.BirthYearPrompt | pbx_server.py:374-378 | A well-formed 4-digit entry whose name is the birth-year prefix followed by the child's number |
| Menus.SpouseWorkplacesPrompt | pbx_server.py:405-411 | A well-formed digit entry of 1 to 2 digits named `spouse{n}_workplaces` |
| Menus.DetailsUpdatedMenu | pbx_server.py:434-438 | A well-formed choice menu accepting 0 |
| Menus.MessageReceivedMenu | pbx_server.py:448-452 | A well-formed choice menu accepting 0 |
| Menus.ReportRequestedMenu | pbx_server.py:461-465 | A well-formed choice menu accepting 0 |
| Menus.InvalidChoiceMenu | pbx_server.py:542-546 | A well-formed choice menu accepting 0 |

## Left out

- HTTP and Flask: `jsonify`, the HTTP status codes as anything more than a number, the error bodies, and logging. The routes are modelled as their decisions over a map of request arguments.
- The database is a value with one function per query or write the handler issues; SQL and `database_handler.py`'s migrations are not modelled. Of the schema, only the keys of the customers table (the autoincrement id and the unique phone, database_handler.py:63-65) are modelled, as the predicate `DbValid`; its clause that every details row belongs to an assigned id follows how the flow creates and writes those rows. The query methods the handler calls are not part of this model, so their effects are the natural ones stated in module `Database`.
- Database failures are not modelled. Registration therefore never fails, and the `registrationFail` menu (pbx_server.py:206-212) is unreachable in the model.
- `is_profile_complete` and `is_subscription_active` are uninterpreted: they are fields of `Env`, and the properties hold for every choice of them.
- The receipt provider is its answer, given per hit. The mock provider's clock-derived document ids (pbx_server.py:50-61) and the recording's timestamped file name (pbx_server.py:625) are not modelled. The current year is a parameter.
- Python's `int()` is modelled as an optional integer over ASCII digit strings with an optional leading `-`. Surrounding whitespace, `+`, underscores and non-ASCII decimal digits (for example Arabic-Indic digits), which `int()` also accepts, are not modelled: the model rejects such input where Python would parse it.
- Menu texts (Hebrew prompts), `times`, `timeout`, `setMusic` and `confirmType` are not modelled. Because the texts are not modelled, the two national-id prompts (pbx_server.py:107-112 and 183-189) are the same descriptor.
- `process_renewal_choice` does not exist in the handler, so an answer to the renewal menu is modelled only as the exception it raises; no renewal behaviour is modelled.
- Concurrency: hits are processed one at a time, and the session store is never evicted, as in the source.
- Flow.DescriptionStep: its own contract states only the error case, the receipt count and that the sessions are unchanged; the full effect is stated by `ReceiptSteps.ReceiptIssued` and `ReceiptSteps.NoReceiptWithout`.
- Handler.PBXHandler.SaveReceipt: the receipt's database id is its position in the receipt list, so the provider's own ids play no part.
