/**
 * The call-flow engine of `PBXHandler` as functions on values: for each
 * HTTP hit, the session store and the database before it, and the session
 * store, the database and the answer after it. The class in module Handler
 * performs the same steps in place and is proved equal to these functions.
 */
module Flow {
  import opened Wrappers
  import opened Digits
  import opened Sessions
  import opened Menus
  import opened Database

  /**
   * What a hit depends on besides the stored state: the current year, the
   * answer the receipt provider gives if it is called, and the two database
   * predicates whose bodies are not part of this model.
   */
  datatype Env = Env(
    currentYear: int,
    provider: ProviderResult,
    profileComplete: (Customer, Option<Details>) -> bool,
    subscriptionActive: Customer -> bool)

  datatype State = State(calls: Calls, db: Db)

  /** How a handler step ends: a menu, or an exception that escapes to the route. */
  datatype Outcome = Respond(menu: Menu) | Raise

  /** What a route sends back: a JSON menu, or an HTTP error status. */
  datatype Response = Json(menu: Menu) | HttpError(status: int)

  datatype Next = Next(state: State, outcome: Outcome)

  datatype RouteNext = RouteNext(state: State, response: Response)

  /** Python truthiness of an optional string column. */
  predicate Present(o: Option<string>)
  {
    o.Some? && o.value != []
  }

  /** `db.is_profile_complete(customer)`, which reads the customer's row and its details row. */
  predicate Complete(db: Db, env: Env, c: Customer)
  {
    env.profileComplete(c, DetailsOf(db, c.id))
  }

  /** The details row exists and has its child count set. */
  predicate HasChildCount(db: Db, c: Customer)
  {
    DetailsOf(db, c.id).Some? && DetailsOf(db, c.id).value.numChildren != Null
  }

  // ---------------------------------------------------------------- profile wizard

  /**
   * `require_profile_or_main`: registration when the phone has no customer;
   * otherwise, when the profile is reported incomplete, the prompt for the
   * first missing field in the order national id, owner age, gender, child
   * count; otherwise the main menu.
   */
  function ProfileNext(db: Db, env: Env, phone: Value): (m: Menu)
    ensures m == NewCustomerMenu() <==> Lookup(db, phone).None?
    ensures m == NewCustomerIdPrompt() <==>
              var c := Lookup(db, phone);
              c.Some? && !Complete(db, env, c.value) && !Present(c.value.tzId)
    ensures m == OwnerAgePrompt() <==>
              var c := Lookup(db, phone);
              c.Some? && !Complete(db, env, c.value) && Present(c.value.tzId) && c.value.ownerAge.None?
    ensures m == GenderMenu() <==>
              var c := Lookup(db, phone);
              c.Some? && !Complete(db, env, c.value) && Present(c.value.tzId) && c.value.ownerAge.Some?
              && !Present(c.value.gender)
    ensures m == UpdatePersonalDetailsMenu() <==>
              var c := Lookup(db, phone);
              c.Some? && !Complete(db, env, c.value) && Present(c.value.tzId) && c.value.ownerAge.Some?
              && Present(c.value.gender) && !HasChildCount(db, c.value)
    ensures m == MainMenu() <==>
              var c := Lookup(db, phone);
              c.Some? && (Complete(db, env, c.value) ||
                          (Present(c.value.tzId) && c.value.ownerAge.Some? && Present(c.value.gender)
                           && HasChildCount(db, c.value)))
  {
    match Lookup(db, phone)
    case None => NewCustomerMenu()
    case Some(c) =>
      if Complete(db, env, c) then MainMenu()
      else if !Present(c.tzId) then NewCustomerIdPrompt()
      else if c.ownerAge.None? then OwnerAgePrompt()
      else if !Present(c.gender) then GenderMenu()
      else if !HasChildCount(db, c) then UpdatePersonalDetailsMenu()
      else MainMenu()
  }

  // ---------------------------------------------------------------- dispatch

  /** The branch of `handle_user_input`'s dispatch chain an input name takes. */
  datatype Route =
    | NewCustomerRoute | NewCustomerIdRoute | RenewalRoute | MainMenuRoute
    | OwnerAgeRoute | GenderRoute | ChildrenCountRoute | BirthYearRoute | SpouseRoute
    | MessageRoute | AnnualReportRoute
    | AmountRoute | ClientPhoneRoute | ClientIdRoute | SaveContactRoute | DescriptionRoute
    | Unrecognized

  /** The names the chain compares against with `==` or `in`. */
  const DispatchedNames: set<string> := {
    "newCustomer", "newCustomerID", "renewSubscription", "mainMenu", "ownerAge", "gender",
    "numChildren", Spouse1Key, Spouse2Key, "customerMessage", "annualReport",
    "receiptAmount", "clientPhone", "clientIdNumber", "saveContactChoice", "receiptDescription"}

  function RouteOf(name: string): Route
  {
    if name == "newCustomer" then NewCustomerRoute
    else if name == "newCustomerID" then NewCustomerIdRoute
    else if name == "renewSubscription" then RenewalRoute
    else if name == "mainMenu" then MainMenuRoute
    else if name == "ownerAge" then OwnerAgeRoute
    else if name == "gender" then GenderRoute
    else if name == "numChildren" then ChildrenCountRoute
    else if StartsWith(name, BirthYearPrefix) then BirthYearRoute
    else if name == Spouse1Key || name == Spouse2Key then SpouseRoute
    else if name == "customerMessage" then MessageRoute
    else if name == "annualReport" then AnnualReportRoute
    else if name == "receiptAmount" then AmountRoute
    else if name == "clientPhone" then ClientPhoneRoute
    else if name == "clientIdNumber" then ClientIdRoute
    else if name == "saveContactChoice" then SaveContactRoute
    else if name == "receiptDescription" then DescriptionRoute
    else Unrecognized
  }

  /** No name the chain tests by equality carries the birth-year prefix. */
  lemma DispatchedNamesLackPrefix(name: string)
    ensures name in DispatchedNames ==> !StartsWith(name, BirthYearPrefix)
  {
    if StartsWith(name, BirthYearPrefix) {
      assert name[0] == 'c' && name[1] == 'h';
    }
  }

  /**
   * A name falls through the dispatch chain exactly when it is none of the
   * names the chain tests and lacks the birth-year prefix; the prefix alone
   * selects the birth-year step.
   */
  lemma RouteOfCases(name: string)
    ensures RouteOf(name) == Unrecognized <==> name !in DispatchedNames && !StartsWith(name, BirthYearPrefix)
    ensures RouteOf(name) == BirthYearRoute <==> StartsWith(name, BirthYearPrefix)
    ensures RouteOf(name) == SpouseRoute <==> name == Spouse1Key || name == Spouse2Key
  {
    DispatchedNamesLackPrefix(name);
  }

  // ---------------------------------------------------------------- profile steps

  /** `process_new_customer_choice`: "1" starts registration, anything else goes to the main menu. */
  function NewCustomerChoice(choice: string): (m: Menu)
    ensures m == NewCustomerIdPrompt() <==> choice == "1"
    ensures m == MainMenu() <==> choice != "1"
  {
    if choice == "1" then NewCustomerIdPrompt() else MainMenu()
  }

  /**
   * `process_new_customer_id`: without a caller phone in the session, the
   * main menu; otherwise the caller's customer (created first if needed)
   * gets this national id and the profile wizard decides what comes next.
   */
  function NewCustomerIdStep(st: State, env: Env, callId: string, tz: string): (n: Next)
  {
    var phone := Get(SessionOf(st.calls, callId), PhoneKey);
    // The session shape keeps PBXphone a string, so this is `if not phone`.
    if !phone.Str? || phone.s == [] then Next(st, Respond(MainMenu()))
    else
      var db1 := if phone.s in st.db.customers then st.db else CreateCustomer(st.db, phone.s);
      var db2 := SetTzId(db1, phone.s, tz);
      Next(State(st.calls, db2), Respond(ProfileNext(db2, env, phone)))
  }

  /** The owner age the step accepts: an int in [14, 99]. */
  predicate ValidAge(age: string)
  {
    ParseInt(age).Some? && 14 <= ParseInt(age).value <= 99
  }

  /**
   * `process_owner_age`: a valid age is written for the caller's customer;
   * either way the profile wizard answers.
   */
  function OwnerAgeStep(st: State, env: Env, callId: string, age: string): (n: Next)
  {
    var phone := Get(SessionOf(st.calls, callId), PhoneKey);
    var db1 := if ValidAge(age) && Lookup(st.db, phone).Some? then SetOwnerAge(st.db, phone.s, ParseInt(age).value)
               else st.db;
    Next(State(st.calls, db1), Respond(ProfileNext(db1, env, phone)))
  }

  /** The gender a menu choice stands for. */
  function GenderOf(choice: string): Option<string>
  {
    if choice == "1" then Some("male") else if choice == "2" then Some("female") else None
  }

  /** `process_gender`: "1"/"2" is written for the caller's customer; the profile wizard answers. */
  function GenderStep(st: State, env: Env, callId: string, choice: string): (n: Next)
  {
    var phone := Get(SessionOf(st.calls, callId), PhoneKey);
    var db1 := if Lookup(st.db, phone).Some? && GenderOf(choice).Some? then SetGender(st.db, phone.s, GenderOf(choice).value)
               else st.db;
    Next(State(st.calls, db1), Respond(ProfileNext(db1, env, phone)))
  }

  // ---------------------------------------------------------------- main menu and receipt flow

  /** `process_main_menu_choice`: options 1 to 6 open their service; "0" and anything else give the main menu. */
  function MainMenuChoice(choice: string): (m: Menu)
    ensures m == CreateReceiptMenu() <==> choice == "1"
    ensures m == CancelReceiptMenu() <==> choice == "2"
    ensures m == UpdatePersonalDetailsMenu() <==> choice == "3"
    ensures m == ShowBenefitsMenu() <==> choice == "4"
    ensures m == LeaveMessageMenu() <==> choice == "5"
    ensures m == AnnualReportMenu() <==> choice == "6"
    ensures m == MainMenu() <==> choice !in {"1", "2", "3", "4", "5", "6"}
  {
    if choice == "1" then CreateReceiptMenu()
    else if choice == "2" then CancelReceiptMenu()
    else if choice == "3" then UpdatePersonalDetailsMenu()
    else if choice == "4" then ShowBenefitsMenu()
    else if choice == "5" then LeaveMessageMenu()
    else if choice == "6" then AnnualReportMenu()
    else MainMenu()
  }

  /** `process_receipt_amount`: "SKIP" aborts, a positive int continues, anything else is invalid. */
  function ReceiptAmount(amount: string): (m: Menu)
    ensures m == MainMenu() <==> amount == "SKIP"
    ensures m == ClientPhonePrompt() <==> amount != "SKIP" && ParseInt(amount).Some? && ParseInt(amount).value > 0
    ensures m == InvalidAmountMenu() <==> amount != "SKIP" && !(ParseInt(amount).Some? && ParseInt(amount).value > 0)
  {
    if amount == "SKIP" then MainMenu()
    else if ParseInt(amount).Some? && ParseInt(amount).value > 0 then ClientPhonePrompt()
    else InvalidAmountMenu()
  }

  /** `process_client_phone`: the phone is kept as `client_phone`. */
  function ClientPhoneStep(st: State, callId: string, phone: string): (n: Next)
  {
    var cd := SessionOf(st.calls, callId)[ClientPhoneKey := Str(phone)];
    Next(State(st.calls[callId := cd], st.db), Respond(ClientIdPrompt()))
  }

  /** `process_client_id`: the id is kept as `client_tz`, an empty one as `None`. */
  function ClientIdStep(st: State, callId: string, tz: string): (n: Next)
  {
    var cd := SessionOf(st.calls, callId)[ClientTzKey := if tz == [] then Null else Str(tz)];
    Next(State(st.calls[callId := cd], st.db), Respond(SaveContactMenu()))
  }

  const IvrNote := Str("added_via_ivr")

  /**
   * `process_save_contact_choice`: "1" with a known caller saves the client
   * as the caller's contact; the description prompt follows in every case.
   */
  function SaveContactStep(st: State, callId: string, choice: string): (n: Next)
  {
    var cd := SessionOf(st.calls, callId);
    var issuer := Lookup(st.db, Get(cd, PhoneKey));
    var db1 := if issuer.Some? && choice == "1" then
                 UpsertContact(st.db, issuer.value.id, Get(cd, ClientPhoneKey), Get(cd, ClientTzKey), IvrNote)
               else st.db;
    Next(State(st.calls, db1), Respond(DescriptionPrompt()))
  }

  /** The description value that means "skipped", and the default that replaces it. */
  const NoDescription := "NO_DESCRIPTION"
  const DefaultDescription := "קבלה"

  /** The contact a new receipt is linked to: a saved contact for the client phone, if any. */
  function ReceiptContact(db: Db, issuerId: nat, clientPhone: Value): Option<nat>
  {
    if Truthy(clientPhone) && ContactByPhone(db, issuerId, clientPhone).Some?
       && ContactByPhone(db, issuerId, clientPhone).value.id != 0
    then Some(ContactByPhone(db, issuerId, clientPhone).value.id)
    else None
  }

  /** The receipt row after the provider answered. */
  function Finalized(r: Receipt, p: ProviderResult): Receipt
  {
    if p.status then r.(status := Completed, docId := p.docId, docNum := p.docNum, response := Some(p))
    else r.(status := Failed, response := Some(p))
  }

  /**
   * The receipt rows a description step writes: the new row is created
   * pending, linked to the contact if there is one, and finalised from the
   * provider's answer; earlier rows and the other tables are untouched.
   */
  function ReceiptRows(db: Db, r0: Receipt, contactId: Option<nat>, p: ProviderResult): (db': Db)
    ensures |db'.receipts| == |db.receipts| + 1
    ensures db'.receipts[..|db.receipts|] == db.receipts
    ensures db'.receipts[|db.receipts|] == Finalized(if contactId.Some? then r0.(contactId := contactId) else r0, p)
    ensures db' == db.(receipts := db'.receipts)
  {
    var id := |db.receipts| + 1;
    var r1 := if contactId.Some? then r0.(contactId := contactId) else r0;
    var db1 := AddReceipt(db, r0);
    var db2 := if contactId.Some? then UpdateReceipt(db1, id, r1) else db1;
    UpdateReceipt(db2, id, Finalized(r1, p))
  }

  /** The reply once the provider answered. */
  function ProviderMenu(p: ProviderResult): Menu
  {
    if p.status then ReceiptSuccessMenu(p.docNum) else ReceiptFailedMenu()
  }

  /**
   * `process_receipt_description`: without an amount in the session or a
   * known caller, the error menu and no receipt; an amount that is not an
   * integer raises; otherwise one receipt is stored, linked to a saved
   * contact when there is one, and finalised from the provider's answer.
   */
  function DescriptionStep(st: State, env: Env, callId: string, description: string): (n: Next)
    ensures var cd := SessionOf(st.calls, callId);
            var issuer := Lookup(st.db, Get(cd, PhoneKey));
            !Truthy(Get(cd, AmountKey)) || issuer.None? ==>
              n == Next(st, Respond(SystemErrorMenu()))
    ensures n.outcome.Respond? && n.outcome.menu != SystemErrorMenu() ==>
              |n.state.db.receipts| == |st.db.receipts| + 1
    ensures n.state.calls == st.calls
  {
    var cd := SessionOf(st.calls, callId);
    var amount := Get(cd, AmountKey);
    var issuer := Lookup(st.db, Get(cd, PhoneKey));
    if !(Truthy(amount) && issuer.Some?) then Next(st, Respond(SystemErrorMenu()))
    else
      var clientPhone := Get(cd, ClientPhoneKey);
      var contactId := ReceiptContact(st.db, issuer.value.id, clientPhone);
      match IntOf(amount)
      case None => Next(st, Raise)
      case Some(amt) =>
        var desc := if description != NoDescription then description else DefaultDescription;
        var r0 := Receipt(issuer.value.id, callId, amt, desc, clientPhone, Get(cd, ClientTzKey),
                          None, Pending, None, None, None);
        Next(State(st.calls, ReceiptRows(st.db, r0, contactId, env.provider)), Respond(ProviderMenu(env.provider)))
  }

  // ---------------------------------------------------------------- personal details

  /** A child count the step accepts: an int in [0, 20]. */
  predicate ValidChildCount(input: string)
  {
    ParseInt(input).Some? && 0 <= ParseInt(input).value <= 20
  }

  /**
   * `process_children_count`: a valid count is kept with the cursor at the
   * first child; the next prompt is the first birth year, or spouse 1 when
   * there are no children.
   */
  function ChildrenCountStep(st: State, callId: string, input: string): (n: Next)
  {
    if !ValidChildCount(input) then Next(st, Respond(SystemErrorMenu()))
    else
      var count := ParseInt(input).value;
      var cd := SessionOf(st.calls, callId)[ChildrenCountKey := Int(count)][CurrentChildKey := Int(1)];
      Next(State(st.calls[callId := cd], st.db),
           Respond(if count == 0 then SpouseWorkplacesPrompt(1) else BirthYearPrompt(1)))
  }

  /** A birth year the step accepts: an int within the last fifty years. */
  predicate ValidBirthYear(input: string, currentYear: int)
  {
    ParseInt(input).Some? && currentYear - 50 <= ParseInt(input).value <= currentYear
  }

  /**
   * `process_child_birth_year`: a valid year is appended to the session's
   * list; while the cursor is below the child count it advances by one and
   * the next birth year is asked, otherwise spouse 1's workplaces are asked.
   * A session value of the wrong type raises, as the Python does.
   */
  function BirthYearStep(st: State, env: Env, callId: string, input: string): (n: Next)
  {
    if !ValidBirthYear(input, env.currentYear) then Next(st, Respond(SystemErrorMenu()))
    else AppendBirthYear(st, callId, ParseInt(input).value)
  }

  /** The part of `process_child_birth_year` after the year is accepted. */
  function AppendBirthYear(st: State, callId: string, year: int): (n: Next)
  {
    var cd := SessionOf(st.calls, callId);
    var list := GetOr(cd, BirthYearsKey, IntList([]));
    if !list.IntList? then Next(State(st.calls[callId := cd], st.db), Raise)
    else
      var cd1 := cd[BirthYearsKey := IntList(list.items + [year])];
      var current := GetOr(cd1, CurrentChildKey, Int(1));
      var total := GetOr(cd1, ChildrenCountKey, Int(0));
      var appended := State(st.calls[callId := cd1], st.db);
      match PyLess(current, total)
      case None => Next(appended, Raise)
      case Some(false) => Next(appended, Respond(SpouseWorkplacesPrompt(1)))
      case Some(true) =>
        if current.Int? then
          Next(State(st.calls[callId := cd1[CurrentChildKey := Int(current.n + 1)]], st.db),
               Respond(BirthYearPrompt(current.n + 1)))
        else Next(appended, Raise)
  }

  /** A workplace count the step accepts: an int in [0, 10]. */
  predicate ValidWorkplaces(input: string)
  {
    ParseInt(input).Some? && 0 <= ParseInt(input).value <= 10
  }

  /** The details row the flow writes from a session, with the Python defaults. */
  function CollectedDetails(cd: Session): Details
  {
    Details(GetOr(cd, ChildrenCountKey, Int(0)), GetOr(cd, BirthYearsKey, IntList([])),
            GetOr(cd, Spouse1Key, Int(0)), GetOr(cd, Spouse2Key, Int(0)))
  }

  /**
   * `process_spouse_workplaces`: a valid count is kept under its own name;
   * spouse 1 leads to spouse 2, and spouse 2 writes the collected details
   * for the caller's customer and confirms.
   */
  function SpouseStep(st: State, callId: string, name: string, input: string): (n: Next)
  {
    if !ValidWorkplaces(input) then Next(st, Respond(SystemErrorMenu()))
    else
      var cd := SessionOf(st.calls, callId)[name := Int(ParseInt(input).value)];
      var calls1 := st.calls[callId := cd];
      if name == Spouse1Key then Next(State(calls1, st.db), Respond(SpouseWorkplacesPrompt(2)))
      else
        var cust := Lookup(st.db, Get(cd, PhoneKey));
        var db1 := if cust.Some? then UpdateDetails(st.db, cust.value.id, CollectedDetails(cd)) else st.db;
        Next(State(calls1, db1), Respond(DetailsUpdatedMenu()))
  }

  /** `process_customer_message`: the recording is saved for a known caller. */
  function MessageStep(st: State, callId: string, result: string): (n: Next)
  {
    var cust := Lookup(st.db, Get(SessionOf(st.calls, callId), PhoneKey));
    var db1 := if cust.Some? && result != [] then SaveMessage(st.db, cust.value.id, callId, result) else st.db;
    Next(State(st.calls, db1), Respond(MessageReceivedMenu()))
  }

  /** `process_annual_report_choice`: "1" files a request for a known caller. */
  function AnnualReportStep(st: State, callId: string, choice: string): (n: Next)
  {
    if choice != "1" then Next(st, Respond(MainMenu()))
    else
      var cust := Lookup(st.db, Get(SessionOf(st.calls, callId), PhoneKey));
      var db1 := if cust.Some? then RequestAnnualReport(st.db, cust.value.id) else st.db;
      Next(State(st.calls, db1), Respond(ReportRequestedMenu()))
  }

  // ---------------------------------------------------------------- input routing

  /** The state after `handle_user_input` stored the raw input, before it dispatches. */
  function Stored(st: State, callId: string, name: string, value: string): State
  {
    State(st.calls[callId := SessionOf(st.calls, callId)[name := Str(value)]],
          RecordCallData(st.db, callId, name, value))
  }

  /**
   * `handle_user_input`: the raw input is stored under its name in the
   * call's session and in the call record, then the step its name selects
   * runs.
   */
  function HandleInput(st: State, env: Env, callId: string, name: string, value: string): (n: Next)
  {
    Dispatch(Stored(st, callId, name, value), env, callId, name, value)
  }

  /** The routes after the "receipt flow" mark of the dispatch chain, and its final `else`. */
  predicate ReceiptFlow(r: Route)
  {
    r.AmountRoute? || r.ClientPhoneRoute? || r.ClientIdRoute? || r.SaveContactRoute?
    || r.DescriptionRoute? || r.Unrecognized?
  }

  /**
   * The dispatch chain of `handle_user_input` once the input is stored.
   * `renewSubscription` calls a method the class does not define, so it
   * raises.
   */
  function Dispatch(s: State, env: Env, callId: string, name: string, value: string): (n: Next)
  {
    match RouteOf(name)
    case NewCustomerRoute => Next(s, Respond(NewCustomerChoice(value)))
    case NewCustomerIdRoute => NewCustomerIdStep(s, env, callId, value)
    case RenewalRoute => Next(s, Raise)
    case MainMenuRoute => Next(s, Respond(MainMenuChoice(value)))
    case OwnerAgeRoute => OwnerAgeStep(s, env, callId, value)
    case GenderRoute => GenderStep(s, env, callId, value)
    case ChildrenCountRoute => ChildrenCountStep(s, callId, value)
    case BirthYearRoute => BirthYearStep(s, env, callId, value)
    case SpouseRoute => SpouseStep(s, callId, name, value)
    case MessageRoute => MessageStep(s, callId, value)
    case AnnualReportRoute => AnnualReportStep(s, callId, value)
    case AmountRoute => Next(s, Respond(ReceiptAmount(value)))
    case ClientPhoneRoute => ClientPhoneStep(s, callId, value)
    case ClientIdRoute => ClientIdStep(s, callId, value)
    case SaveContactRoute => SaveContactStep(s, callId, value)
    case DescriptionRoute => DescriptionStep(s, env, callId, value)
    case Unrecognized => Next(s, Respond(MainMenu()))
  }

  // ---------------------------------------------------------------- routes

  /** The eight PBX parameters `handle_pbx_request` always records. */
  const PbxParamKeys: set<string> := {
    "PBXphone", "PBXnum", "PBXdid", "PBXcallId", "PBXcallType", "PBXcallStatus",
    "PBXextensionId", "PBXextensionPath"}

  /** The PBX parameters both routes keep in the session: all but the call id. */
  const CoreKeys: set<string> := PbxParamKeys - {CallIdKey}

  /** `request.args.get(k)`. */
  function Arg(args: map<string, string>, k: string): Value
  {
    if k in args then Str(args[k]) else Null
  }

  /**
   * `call_params`: the eight PBX parameters (`None` when absent) and every
   * argument whose name does not start with "PBX".
   */
  function CallParams(args: map<string, string>): (p: map<string, Value>)
    ensures forall k | k in PbxParamKeys :: k in p && p[k] == Arg(args, k)
    ensures forall k | k in args && !StartsWith(k, "PBX") :: k in p && p[k] == Str(args[k])
    ensures forall k | k in p :: k in PbxParamKeys || (k in args && !StartsWith(k, "PBX"))
  {
    (map k | k in PbxParamKeys :: Arg(args, k)) + (map k | k in args && !StartsWith(k, "PBX") :: Str(args[k]))
  }

  /** The core parameters with a non-empty value, as the routes merge them into the session. */
  function CoreArgs(args: map<string, string>): (core: Session)
    ensures forall k | k in core :: k in CoreKeys && k in args && args[k] != [] && core[k] == Str(args[k])
    ensures forall k | k in CoreKeys && k in args && args[k] != [] :: k in core
  {
    map k | k in CoreKeys && k in args && args[k] != [] :: Str(args[k])
  }

  /** The comprehension over the collected parameters keeps exactly `CoreArgs`. */
  lemma CoreOfParams(args: map<string, string>)
    ensures (map k | k in CoreKeys && Truthy(CallParams(args)[k]) :: CallParams(args)[k]) == CoreArgs(args)
  {
  }

  /** `request.args.get('PBXcallId') or ''`. */
  function CallIdOf(args: map<string, string>): string
  {
    if CallIdKey in args then args[CallIdKey] else ""
  }

  /**
   * `handle_pbx_request`: log the call, merge the core parameters into the
   * session, then answer 400 without a phone, registration for an unknown
   * phone, renewal for an inactive subscription, and the profile wizard
   * otherwise.
   */
  function PbxRequest(st: State, env: Env, args: map<string, string>): (n: RouteNext)
    ensures n.response == HttpError(400) <==> PhoneKey !in args || args[PhoneKey] == []
    ensures n.response == Json(NewCustomerMenu()) <==>
              PhoneKey in args && args[PhoneKey] != [] && args[PhoneKey] !in st.db.customers
    ensures n.response == Json(SubscriptionRenewalMenu()) <==>
              PhoneKey in args && args[PhoneKey] != [] && args[PhoneKey] in st.db.customers
              && !env.subscriptionActive(st.db.customers[args[PhoneKey]])
    ensures n.state == State(st.calls[CallIdOf(args) := SessionOf(st.calls, CallIdOf(args)) + CoreArgs(args)],
                             LogCall(st.db, CallParams(args)))
  {
    var params := CallParams(args);
    var db1 := LogCall(st.db, params);
    var callId := CallIdOf(args);
    var st1 := State(st.calls[callId := SessionOf(st.calls, callId) + CoreArgs(args)], db1);
    var phone := params[PhoneKey];
    if !Truthy(phone) then RouteNext(st1, HttpError(400))
    else match Lookup(db1, phone)
      case None => RouteNext(st1, Json(NewCustomerMenu()))
      case Some(c) =>
        if !env.subscriptionActive(c) then RouteNext(st1, Json(SubscriptionRenewalMenu()))
        else RouteNext(st1, Json(ProfileNext(db1, env, phone)))
  }

  /** The argument names `handle_menu_choice` tries, in order, when none is named after the menu. */
  const FallbackKeys: seq<string> := [
    "newCustomer", "renewSubscription", "mainMenu", "newCustomerID", "ownerAge", "gender",
    "receiptAmount", "clientPhone", "clientIdNumber", "saveContactChoice", "receiptDescription",
    "cancelReceiptId", "numChildren", Spouse1Key, Spouse2Key,
    "annualReport", "customerMessage"]

  /** The first of `keys` that is an argument name. */
  function FirstPresent(keys: seq<string>, args: map<string, string>): (r: Option<nat>)
    ensures r.Some? ==> r.value < |keys| && keys[r.value] in args
    ensures r.Some? ==> forall j | 0 <= j < r.value :: keys[j] !in args
    ensures r.None? ==> forall j | 0 <= j < |keys| :: keys[j] !in args
  {
    if keys == [] then None
    else if keys[0] in args then Some(0)
    else match FirstPresent(keys[1..], args)
      case None => None
      case Some(i) => Some(i + 1)
  }

  /** The input name and value `handle_menu_choice` passes on, if any. */
  function ChosenInput(menuName: string, args: map<string, string>): (r: (string, Option<string>))
    ensures menuName in args ==> r == (menuName, Some(args[menuName]))
    ensures r.1.Some? ==> r.0 in args && r.1.value == args[r.0]
  {
    if menuName in args then (menuName, Some(args[menuName]))
    else match FirstPresent(FallbackKeys, args)
      case Some(i) => (FallbackKeys[i], Some(args[FallbackKeys[i]]))
      case None => (menuName, None)
  }

  /**
   * `handle_menu_choice`: with a call id, merge the core parameters into the
   * session; find the value; answer `invalidChoice` for a missing or empty
   * value, otherwise hand it to `handle_user_input`, an escaping exception
   * becoming HTTP 500.
   */
  function MenuChoice(st: State, env: Env, menuName: string, args: map<string, string>): (n: RouteNext)
  {
    var callId := CallIdOf(args);
    var st1 := if callId != [] then State(st.calls[callId := SessionOf(st.calls, callId) + CoreArgs(args)], st.db)
               else st;
    var (name, value) := ChosenInput(menuName, args);
    if value.None? || value.value == [] then RouteNext(st1, Json(InvalidChoiceMenu()))
    else
      var n := HandleInput(st1, env, callId, name, value.value);
      RouteNext(n.state, if n.outcome.Respond? then Json(n.outcome.menu) else HttpError(500))
  }
}
