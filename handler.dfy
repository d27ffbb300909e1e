/**
 * `PBXHandler` and the two HTTP routes, step by step as the server runs
 * them: the session dictionary and the database are fields updated in
 * place, and every method is proved to leave exactly the state, and give
 * exactly the answer, that the matching function of module Flow describes.
 */
module Handler {
  import opened Wrappers
  import opened Digits
  import opened Sessions
  import opened Menus
  import opened Database
  import opened Flow

  /**
   * The loop at the top of `handle_pbx_request`: the eight PBX parameters,
   * then every request argument whose name does not start with "PBX".
   */
  method CollectCallParams(args: map<string, string>) returns (params: map<string, Value>)
    ensures params == CallParams(args)
  {
    params := map k | k in PbxParamKeys :: Arg(args, k);
    var pending := args.Keys;
    while pending != {}
      invariant pending <= args.Keys
      invariant forall k | k in params :: k in PbxParamKeys || (k in args && k !in pending && !StartsWith(k, "PBX"))
      invariant forall k | k in PbxParamKeys :: k in params
      invariant forall k | k in PbxParamKeys && !(k in args && k !in pending && !StartsWith(k, "PBX")) ::
                  params[k] == Arg(args, k)
      invariant forall k | k in args && k !in pending && !StartsWith(k, "PBX") :: k in params && params[k] == Str(args[k])
      decreases |pending|
    {
      var k :| k in pending;
      if !StartsWith(k, "PBX") {
        params := params[k := Str(args[k])];
      }
      pending := pending - {k};
    }
    CallParamsPointwise(args, params);
  }

  /** A map that agrees with `CallParams` key by key is `CallParams`. */
  lemma CallParamsPointwise(args: map<string, string>, p: map<string, Value>)
    requires forall k | k in p :: k in PbxParamKeys || (k in args && !StartsWith(k, "PBX"))
    requires forall k | k in PbxParamKeys :: k in p
    requires forall k | k in PbxParamKeys && !(k in args && !StartsWith(k, "PBX")) :: p[k] == Arg(args, k)
    requires forall k | k in args && !StartsWith(k, "PBX") :: k in p && p[k] == Str(args[k])
    ensures p == CallParams(args)
  {
  }

  /**
   * The search at the heart of `handle_menu_choice`: the first fallback
   * name that is a request argument, as its index in `FallbackKeys`.
   */
  method FindFallbackInput(args: map<string, string>) returns (found: Option<nat>)
    ensures found.Some? ==> found.value < |FallbackKeys| && FallbackKeys[found.value] in args
    ensures found.Some? ==> forall j | 0 <= j < found.value :: FallbackKeys[j] !in args
    ensures found.None? ==> forall j | 0 <= j < |FallbackKeys| :: FallbackKeys[j] !in args
  {
    found := None;
    var i := 0;
    while i < |FallbackKeys|
      invariant 0 <= i <= |FallbackKeys|
      invariant forall j | 0 <= j < i :: FallbackKeys[j] !in args
    {
      if FallbackKeys[i] in args {
        found := Some(i);
        return;
      }
      i := i + 1;
    }
  }

  class PBXHandler {
    /** `current_calls`: call id to that call's session. */
    var currentCalls: Calls
    /** The database behind `self.db`. */
    var db: Db

    constructor(store: Db)
      ensures currentCalls == map[] && db == store
    {
      currentCalls := map[];
      db := store;
    }

    function Snapshot(): State
      reads this
    {
      State(currentCalls, db)
    }

    /** `current_calls.setdefault(call_id, {})[key] = v`. */
    method SetField(callId: string, key: string, v: Value)
      modifies this
      ensures currentCalls == old(currentCalls)[callId := old(SessionOf(currentCalls, callId))[key := v]]
      ensures db == old(db)
    {
      var cd := SessionOf(currentCalls, callId);
      currentCalls := currentCalls[callId := cd[key := v]];
    }

    method ProcessNewCustomerId(env: Env, callId: string, tz: string) returns (o: Outcome)
      modifies this
      ensures Snapshot() == NewCustomerIdStep(old(Snapshot()), env, callId, tz).state
      ensures o == NewCustomerIdStep(old(Snapshot()), env, callId, tz).outcome
    {
      var phone := Get(SessionOf(currentCalls, callId), PhoneKey);
      if !phone.Str? || phone.s == [] {
        return Respond(MainMenu());
      }
      var cust := Lookup(db, phone);
      if cust.None? {
        db := CreateCustomer(db, phone.s);
        cust := Lookup(db, phone);
      }
      if cust.Some? {
        db := SetTzId(db, phone.s, tz);
      }
      o := Respond(ProfileNext(db, env, phone));
    }

    method ProcessOwnerAge(env: Env, callId: string, age: string) returns (o: Outcome)
      modifies this
      ensures Snapshot() == OwnerAgeStep(old(Snapshot()), env, callId, age).state
      ensures o == OwnerAgeStep(old(Snapshot()), env, callId, age).outcome
    {
      var phone := Get(SessionOf(currentCalls, callId), PhoneKey);
      var ageValue := ParseInt(age);
      if ageValue.Some? && 14 <= ageValue.value <= 99 {
        var cust := Lookup(db, phone);
        if cust.Some? {
          db := SetOwnerAge(db, phone.s, ageValue.value);
        }
      }
      o := Respond(ProfileNext(db, env, phone));
    }

    method ProcessGender(env: Env, callId: string, choice: string) returns (o: Outcome)
      modifies this
      ensures Snapshot() == GenderStep(old(Snapshot()), env, callId, choice).state
      ensures o == GenderStep(old(Snapshot()), env, callId, choice).outcome
    {
      var phone := Get(SessionOf(currentCalls, callId), PhoneKey);
      var gender := if choice == "1" then Some("male") else if choice == "2" then Some("female") else None;
      var cust := Lookup(db, phone);
      if cust.Some? && gender.Some? {
        db := SetGender(db, phone.s, gender.value);
      }
      o := Respond(ProfileNext(db, env, phone));
    }

    method ProcessClientPhone(callId: string, phone: string) returns (o: Outcome)
      modifies this
      ensures Snapshot() == ClientPhoneStep(old(Snapshot()), callId, phone).state
      ensures o == ClientPhoneStep(old(Snapshot()), callId, phone).outcome
    {
      SetField(callId, ClientPhoneKey, Str(phone));
      o := Respond(ClientIdPrompt());
    }

    method ProcessClientId(callId: string, tz: string) returns (o: Outcome)
      modifies this
      ensures Snapshot() == ClientIdStep(old(Snapshot()), callId, tz).state
      ensures o == ClientIdStep(old(Snapshot()), callId, tz).outcome
    {
      SetField(callId, ClientTzKey, if tz == [] then Null else Str(tz));
      o := Respond(SaveContactMenu());
    }

    method ProcessSaveContactChoice(callId: string, choice: string) returns (o: Outcome)
      modifies this
      ensures Snapshot() == SaveContactStep(old(Snapshot()), callId, choice).state
      ensures o == SaveContactStep(old(Snapshot()), callId, choice).outcome
    {
      var cd := SessionOf(currentCalls, callId);
      var issuer := Lookup(db, Get(cd, PhoneKey));
      if issuer.Some? && choice == "1" {
        db := UpsertContact(db, issuer.value.id, Get(cd, ClientPhoneKey), Get(cd, ClientTzKey), IvrNote);
      }
      o := Respond(DescriptionPrompt());
    }

    method ProcessReceiptDescription(env: Env, callId: string, description: string) returns (o: Outcome)
      modifies this
      ensures Snapshot() == DescriptionStep(old(Snapshot()), env, callId, description).state
      ensures o == DescriptionStep(old(Snapshot()), env, callId, description).outcome
    {
      var cd := SessionOf(currentCalls, callId);
      var amount := Get(cd, AmountKey);
      var issuer := Lookup(db, Get(cd, PhoneKey));
      if !(Truthy(amount) && issuer.Some?) {
        return Respond(SystemErrorMenu());
      }
      var clientPhone := Get(cd, ClientPhoneKey);
      var contactId: Option<nat> := None;
      if Truthy(clientPhone) {
        var contact := ContactByPhone(db, issuer.value.id, clientPhone);
        if contact.Some? && contact.value.id != 0 {
          contactId := Some(contact.value.id);
        }
      }
      var amountValue := IntOf(amount);
      if amountValue.None? {
        return Raise;
      }
      var desc := if description != NoDescription then description else DefaultDescription;
      var receipt := Receipt(issuer.value.id, callId, amountValue.value, desc, clientPhone, Get(cd, ClientTzKey),
                             None, Pending, None, None, None);
      o := SaveReceipt(receipt, contactId, env.provider);
    }

    /**
     * `create_receipt`, the contact link, the provider call and the final
     * `update_receipt` of `process_receipt_description`.
     */
    method SaveReceipt(receipt: Receipt, contactId: Option<nat>, result: ProviderResult) returns (o: Outcome)
      modifies this
      ensures db == ReceiptRows(old(db), receipt, contactId, result)
      ensures currentCalls == old(currentCalls)
      ensures o == Respond(ProviderMenu(result))
    {
      var id := |db.receipts| + 1;
      var row := receipt;
      db := AddReceipt(db, row);
      if contactId.Some? {
        row := row.(contactId := contactId);
        db := UpdateReceipt(db, id, row);
      }
      if result.status {
        db := UpdateReceipt(db, id, row.(status := Completed, docId := result.docId,
                                         docNum := result.docNum, response := Some(result)));
        o := Respond(ReceiptSuccessMenu(result.docNum));
      } else {
        db := UpdateReceipt(db, id, row.(status := Failed, response := Some(result)));
        o := Respond(ReceiptFailedMenu());
      }
    }

    method ProcessChildrenCount(callId: string, numChildren: string) returns (o: Outcome)
      modifies this
      ensures Snapshot() == ChildrenCountStep(old(Snapshot()), callId, numChildren).state
      ensures o == ChildrenCountStep(old(Snapshot()), callId, numChildren).outcome
    {
      var n := ParseInt(numChildren);
      if n.None? || n.value < 0 || n.value > 20 {
        return Respond(SystemErrorMenu());
      }
      SetField(callId, ChildrenCountKey, Int(n.value));
      SetField(callId, CurrentChildKey, Int(1));
      if n.value == 0 {
        return Respond(SpouseWorkplacesPrompt(1));
      }
      o := Respond(BirthYearPrompt(1));
    }

    method ProcessChildBirthYear(env: Env, callId: string, birthYear: string) returns (o: Outcome)
      modifies this
      ensures Snapshot() == BirthYearStep(old(Snapshot()), env, callId, birthYear).state
      ensures o == BirthYearStep(old(Snapshot()), env, callId, birthYear).outcome
    {
      var year := ParseInt(birthYear);
      if year.None? || year.value < env.currentYear - 50 || year.value > env.currentYear {
        return Respond(SystemErrorMenu());
      }
      o := AppendChildBirthYear(callId, year.value);
    }

    /** `lst.append(year)`, then either advance to the next child or move on to spouse 1. */
    method AppendChildBirthYear(callId: string, year: int) returns (o: Outcome)
      modifies this
      ensures Snapshot() == AppendBirthYear(old(Snapshot()), callId, year).state
      ensures o == AppendBirthYear(old(Snapshot()), callId, year).outcome
    {
      // cd = current_calls.setdefault(call_id, {}); lst = cd.setdefault('children_birth_years', [])
      var cd := SessionOf(currentCalls, callId);
      var list := GetOr(cd, BirthYearsKey, IntList([]));
      if !list.IntList? {
        // `lst.append` on a value that is not a list
        currentCalls := currentCalls[callId := cd];
        return Raise;
      }
      cd := cd[BirthYearsKey := IntList(list.items + [year])];
      var current := GetOr(cd, CurrentChildKey, Int(1));
      var total := GetOr(cd, ChildrenCountKey, Int(0));
      var less := PyLess(current, total);
      if less.Some? && less.value && current.Int? {
        cd := cd[CurrentChildKey := Int(current.n + 1)];
      }
      currentCalls := currentCalls[callId := cd];
      if less.None? {
        return Raise;
      }
      if !less.value {
        return Respond(SpouseWorkplacesPrompt(1));
      }
      if !current.Int? {
        // `current_child + 1` on a string
        return Raise;
      }
      o := Respond(BirthYearPrompt(current.n + 1));
    }

    method ProcessSpouseWorkplaces(callId: string, name: string, workplaces: string) returns (o: Outcome)
      modifies this
      ensures Snapshot() == SpouseStep(old(Snapshot()), callId, name, workplaces).state
      ensures o == SpouseStep(old(Snapshot()), callId, name, workplaces).outcome
    {
      var count := ParseInt(workplaces);
      if count.None? || count.value < 0 || count.value > 10 {
        return Respond(SystemErrorMenu());
      }
      SetField(callId, name, Int(count.value));
      if name == Spouse1Key {
        return Respond(SpouseWorkplacesPrompt(2));
      }
      var cd := currentCalls[callId];
      var cust := Lookup(db, Get(cd, PhoneKey));
      if cust.Some? {
        db := UpdateDetails(db, cust.value.id,
                            Details(GetOr(cd, ChildrenCountKey, Int(0)), GetOr(cd, BirthYearsKey, IntList([])),
                                    GetOr(cd, Spouse1Key, Int(0)), GetOr(cd, Spouse2Key, Int(0))));
      }
      o := Respond(DetailsUpdatedMenu());
    }

    method ProcessCustomerMessage(callId: string, result: string) returns (o: Outcome)
      modifies this
      ensures Snapshot() == MessageStep(old(Snapshot()), callId, result).state
      ensures o == MessageStep(old(Snapshot()), callId, result).outcome
    {
      var cust := Lookup(db, Get(SessionOf(currentCalls, callId), PhoneKey));
      if cust.Some? && result != [] {
        db := SaveMessage(db, cust.value.id, callId, result);
      }
      o := Respond(MessageReceivedMenu());
    }

    method ProcessAnnualReportChoice(callId: string, choice: string) returns (o: Outcome)
      modifies this
      ensures Snapshot() == AnnualReportStep(old(Snapshot()), callId, choice).state
      ensures o == AnnualReportStep(old(Snapshot()), callId, choice).outcome
    {
      if choice != "1" {
        return Respond(MainMenu());
      }
      var cust := Lookup(db, Get(SessionOf(currentCalls, callId), PhoneKey));
      if cust.Some? {
        db := RequestAnnualReport(db, cust.value.id);
      }
      o := Respond(ReportRequestedMenu());
    }

    /** `handle_user_input`: store the raw input, then dispatch on its name. */
    method HandleUserInput(env: Env, callId: string, name: string, value: string) returns (o: Outcome)
      modifies this
      ensures Snapshot() == HandleInput(old(Snapshot()), env, callId, name, value).state
      ensures o == HandleInput(old(Snapshot()), env, callId, name, value).outcome
    {
      var cd := SessionOf(currentCalls, callId);
      currentCalls := currentCalls[callId := cd[name := Str(value)]];
      db := RecordCallData(db, callId, name, value);
      o := DispatchInput(env, callId, name, value);
    }

    /** The dispatch chain: the step `RouteOf` selects for the input's name. */
    method DispatchInput(env: Env, callId: string, name: string, value: string) returns (o: Outcome)
      modifies this
      ensures Snapshot() == Dispatch(old(Snapshot()), env, callId, name, value).state
      ensures o == Dispatch(old(Snapshot()), env, callId, name, value).outcome
    {
      match RouteOf(name)
      case NewCustomerRoute => o := Respond(NewCustomerChoice(value));
      case NewCustomerIdRoute => o := ProcessNewCustomerId(env, callId, value);
      case RenewalRoute =>
        // `self.process_renewal_choice` does not exist: AttributeError
        o := Raise;
      case MainMenuRoute => o := Respond(MainMenuChoice(value));
      case OwnerAgeRoute => o := ProcessOwnerAge(env, callId, value);
      case GenderRoute => o := ProcessGender(env, callId, value);
      case ChildrenCountRoute => o := ProcessChildrenCount(callId, value);
      case BirthYearRoute => o := ProcessChildBirthYear(env, callId, value);
      case SpouseRoute => o := ProcessSpouseWorkplaces(callId, name, value);
      case MessageRoute => o := ProcessCustomerMessage(callId, value);
      case AnnualReportRoute => o := ProcessAnnualReportChoice(callId, value);
      case _ => o := DispatchReceiptInput(env, callId, name, value);
    }

    /** The receipt-flow part of the dispatch chain, and its final `else`. */
    method DispatchReceiptInput(env: Env, callId: string, name: string, value: string) returns (o: Outcome)
      requires ReceiptFlow(RouteOf(name))
      modifies this
      ensures Snapshot() == Dispatch(old(Snapshot()), env, callId, name, value).state
      ensures o == Dispatch(old(Snapshot()), env, callId, name, value).outcome
    {
      match RouteOf(name)
      case AmountRoute => o := Respond(ReceiptAmount(value));
      case ClientPhoneRoute => o := ProcessClientPhone(callId, value);
      case ClientIdRoute => o := ProcessClientId(callId, value);
      case SaveContactRoute => o := ProcessSaveContactChoice(callId, value);
      case DescriptionRoute => o := ProcessReceiptDescription(env, callId, value);
      case _ =>
        // logger.warning(...) and the main menu
        o := Respond(MainMenu());
    }

    /** The `/pbx` route. */
    method HandlePbxRequest(env: Env, args: map<string, string>) returns (resp: Response)
      modifies this
      ensures Snapshot() == PbxRequest(old(Snapshot()), env, args).state
      ensures resp == PbxRequest(old(Snapshot()), env, args).response
    {
      var params := CollectCallParams(args);
      db := LogCall(db, params);
      var phone := params[PhoneKey];
      var callId := if params[CallIdKey].Str? then params[CallIdKey].s else "";
      var core := map k | k in CoreKeys && Truthy(params[k]) :: params[k];
      CoreOfParams(args);
      var cd := SessionOf(currentCalls, callId);
      currentCalls := currentCalls[callId := cd + core];
      if !Truthy(phone) {
        return HttpError(400);
      }
      var customer := Lookup(db, phone);
      if customer.None? {
        return Json(NewCustomerMenu());
      }
      if !env.subscriptionActive(customer.value) {
        return Json(SubscriptionRenewalMenu());
      }
      resp := Json(ProfileNext(db, env, phone));
    }

    /** The `/pbx/menu/<menu_name>` route. */
    method HandleMenuChoice(env: Env, menuName: string, args: map<string, string>) returns (resp: Response)
      modifies this
      ensures Snapshot() == MenuChoice(old(Snapshot()), env, menuName, args).state
      ensures resp == MenuChoice(old(Snapshot()), env, menuName, args).response
    {
      var callId := if CallIdKey in args then args[CallIdKey] else "";
      var core := map k | k in CoreKeys && k in args && args[k] != [] :: Str(args[k]);
      if callId != [] {
        var cd := SessionOf(currentCalls, callId);
        currentCalls := currentCalls[callId := cd + core];
      }
      var name := menuName;
      var value: Option<string> := if menuName in args then Some(args[menuName]) else None;
      if value.None? {
        var found := FindFallbackInput(args);
        assert found == FirstPresent(FallbackKeys, args) by {
          FirstPresentUnique(FallbackKeys, args, found);
        }
        if found.Some? {
          name := FallbackKeys[found.value];
          value := Some(args[name]);
        }
      }
      if value.None? || value.value == [] {
        return Json(InvalidChoiceMenu());
      }
      var o := HandleUserInput(env, callId, name, value.value);
      resp := if o.Respond? then Json(o.menu) else HttpError(500);
    }
  }

  /** Any answer with `FirstPresent`'s contract is `FirstPresent`'s answer. */
  lemma FirstPresentUnique(keys: seq<string>, args: map<string, string>, r: Option<nat>)
    requires r.Some? ==> r.value < |keys| && keys[r.value] in args
    requires r.Some? ==> forall j | 0 <= j < r.value :: keys[j] !in args
    requires r.None? ==> forall j | 0 <= j < |keys| :: keys[j] !in args
    ensures r == FirstPresent(keys, args)
  {
  }
}
