/**
 * What every hit keeps true of the session store: each session holds only
 * the kinds of value the flow itself writes under each key, and no session
 * and no field is ever removed. Under the first, the caller's phone and the
 * receipt amount are strings whenever they are present, which is what the
 * steps' `if not phone` and `int(amount)` take for granted.
 */
module Invariants {
  import opened Wrappers
  import opened Digits
  import opened Sessions
  import opened Menus
  import opened Database
  import opened Flow
  import opened DetailsWizard

  /** The keys under which the flow only ever stores strings (or nothing). */
  const TypedKeys: set<string> := {ChildrenCountKey, CurrentChildKey, Spouse1Key, Spouse2Key, BirthYearsKey, ClientTzKey}

  /**
   * In a well-shaped store, a key the flow never types (the caller's phone,
   * the client phone, the amount, every raw input name) reads back as a
   * string or as `None`.
   */
  lemma UntypedKeysHoldStrings(calls: Calls, callId: string, key: string)
    requires WellShaped(calls)
    requires key !in TypedKeys
    ensures Get(SessionOf(calls, callId), key).Str? || Get(SessionOf(calls, callId), key).Null?
  {
    if callId in calls && key in calls[callId] {
      assert SessionShaped(calls[callId]);
      assert ShapeOk(key, calls[callId][key]);
    }
  }

  /** `Grows` chains. */
  lemma GrowsTrans(a: Calls, b: Calls, c: Calls)
    requires Grows(a, b) && Grows(b, c)
    ensures Grows(a, c)
  {
    forall id | id in a
      ensures a[id].Keys <= c[id].Keys
    {
      assert a[id].Keys <= b[id].Keys;
    }
  }

  /** The session a step reads is well shaped when the store is. */
  lemma SessionOfShaped(calls: Calls, callId: string)
    requires WellShaped(calls)
    ensures SessionShaped(SessionOf(calls, callId))
  {
    if callId in calls {
      assert SessionShaped(calls[callId]);
    }
  }

  /** Putting back a well-shaped session that kept every field keeps the store well shaped, and grows it. */
  lemma PutSession(calls: Calls, callId: string, cd: Session)
    requires WellShaped(calls) && SessionShaped(cd)
    requires SessionOf(calls, callId).Keys <= cd.Keys
    ensures WellShaped(calls[callId := cd]) && Grows(calls, calls[callId := cd])
  {
    var calls' := calls[callId := cd];
    forall id | id in calls'
      ensures SessionShaped(calls'[id])
    {
      if id != callId {
        assert SessionShaped(calls[id]);
      }
    }
  }

  /** Writing one field with a value of an allowed kind. */
  lemma SetField(calls: Calls, callId: string, key: string, v: Value)
    requires WellShaped(calls) && ShapeOk(key, v)
    ensures var calls' := calls[callId := SessionOf(calls, callId)[key := v]];
            WellShaped(calls') && Grows(calls, calls')
  {
    SessionOfShaped(calls, callId);
    PutSession(calls, callId, SessionOf(calls, callId)[key := v]);
  }

  /** Writing two fields with values of allowed kinds. */
  lemma SetFields(calls: Calls, callId: string, k1: string, v1: Value, k2: string, v2: Value)
    requires WellShaped(calls) && ShapeOk(k1, v1) && ShapeOk(k2, v2)
    ensures var calls' := calls[callId := SessionOf(calls, callId)[k1 := v1][k2 := v2]];
            WellShaped(calls') && Grows(calls, calls')
  {
    var cd := SessionOf(calls, callId);
    SessionOfShaped(calls, callId);
    assert SessionShaped(cd[k1 := v1]);
    PutSession(calls, callId, cd[k1 := v1][k2 := v2]);
  }

  /** Storing the raw input, as every hit of `handle_user_input` does first. */
  lemma StoredKeepsShape(st: State, callId: string, name: string, value: string)
    requires WellShaped(st.calls)
    ensures WellShaped(Stored(st, callId, name, value).calls) && Grows(st.calls, Stored(st, callId, name, value).calls)
  {
    SetField(st.calls, callId, name, Str(value));
  }

  /** The birth-year step only writes the list and the cursor. */
  lemma AppendBirthYearKeepsShape(st: State, callId: string, year: int)
    requires WellShaped(st.calls)
    ensures var n := AppendBirthYear(st, callId, year);
            WellShaped(n.state.calls) && Grows(st.calls, n.state.calls)
  {
    var cd := SessionOf(st.calls, callId);
    SessionOfShaped(st.calls, callId);
    PutSession(st.calls, callId, cd);
    var list := GetOr(cd, BirthYearsKey, IntList([]));
    if list.IntList? {
      SetField(st.calls, callId, BirthYearsKey, IntList(list.items + [year]));
      var current := GetOr(cd[BirthYearsKey := IntList(list.items + [year])], CurrentChildKey, Int(1));
      if current.Int? {
        SetFields(st.calls, callId, BirthYearsKey, IntList(list.items + [year]), CurrentChildKey, Int(current.n + 1));
      }
    }
  }

  /** The routes of the personal-details wizard. */
  predicate DetailsRoute(r: Route)
  {
    r.ChildrenCountRoute? || r.BirthYearRoute? || r.SpouseRoute?
  }

  /** `process_children_count` writes ints under the count and the cursor only. */
  lemma ChildrenCountKeepsShape(s: State, callId: string, value: string)
    requires WellShaped(s.calls)
    ensures var n := ChildrenCountStep(s, callId, value);
            WellShaped(n.state.calls) && Grows(s.calls, n.state.calls)
  {
    if ValidChildCount(value) {
      SetFields(s.calls, callId, ChildrenCountKey, Int(ParseInt(value).value), CurrentChildKey, Int(1));
    }
  }

  /** `process_child_birth_year` writes the list and the cursor only. */
  lemma BirthYearKeepsShape(s: State, env: Env, callId: string, value: string)
    requires WellShaped(s.calls)
    ensures var n := BirthYearStep(s, env, callId, value);
            WellShaped(n.state.calls) && Grows(s.calls, n.state.calls)
  {
    if ValidBirthYear(value, env.currentYear) {
      AppendBirthYearKeepsShape(s, callId, ParseInt(value).value);
    }
  }

  /** `process_spouse_workplaces` writes an int under a workplace key only. */
  lemma SpouseKeepsShape(s: State, callId: string, name: string, value: string)
    requires WellShaped(s.calls) && (name == Spouse1Key || name == Spouse2Key)
    ensures var n := SpouseStep(s, callId, name, value);
            WellShaped(n.state.calls) && Grows(s.calls, n.state.calls)
  {
    if ValidWorkplaces(value) {
      SetField(s.calls, callId, name, Int(ParseInt(value).value));
    }
  }

  /** The steps of the personal-details wizard keep the store well shaped and grow it. */
  lemma DetailsStepsKeepShape(s: State, env: Env, callId: string, name: string, value: string)
    requires WellShaped(s.calls) && DetailsRoute(RouteOf(name))
    ensures var n := Dispatch(s, env, callId, name, value);
            WellShaped(n.state.calls) && Grows(s.calls, n.state.calls)
  {
    var n := Dispatch(s, env, callId, name, value);
    if RouteOf(name) == ChildrenCountRoute {
      assert n == ChildrenCountStep(s, callId, value);
      ChildrenCountKeepsShape(s, callId, value);
    } else if RouteOf(name) == BirthYearRoute {
      assert n == BirthYearStep(s, env, callId, value);
      BirthYearKeepsShape(s, env, callId, value);
    } else {
      assert n == SpouseStep(s, callId, name, value);
      RouteOfCases(name);
      SpouseKeepsShape(s, callId, name, value);
    }
  }

  /** The other steps before the receipt-flow mark leave the session store as it is. */
  lemma ProfileStepsKeepCalls(s: State, env: Env, callId: string, name: string, value: string)
    requires !DetailsRoute(RouteOf(name)) && !ReceiptFlow(RouteOf(name))
    ensures Dispatch(s, env, callId, name, value).state.calls == s.calls
  {
    var n := Dispatch(s, env, callId, name, value);
    match RouteOf(name)
    case NewCustomerIdRoute => assert n == NewCustomerIdStep(s, env, callId, value);
    case OwnerAgeRoute => assert n == OwnerAgeStep(s, env, callId, value);
    case GenderRoute => assert n == GenderStep(s, env, callId, value);
    case MessageRoute => assert n == MessageStep(s, callId, value);
    case AnnualReportRoute => assert n == AnnualReportStep(s, callId, value);
    case _ =>
  }

  /** The receipt-flow steps other than the two that save client fields leave the session store as it is. */
  lemma ReceiptStepsKeepCalls(s: State, env: Env, callId: string, name: string, value: string)
    requires ReceiptFlow(RouteOf(name)) && !RouteOf(name).ClientPhoneRoute? && !RouteOf(name).ClientIdRoute?
    ensures Dispatch(s, env, callId, name, value).state.calls == s.calls
  {
    var n := Dispatch(s, env, callId, name, value);
    match RouteOf(name)
    case SaveContactRoute => assert n == SaveContactStep(s, callId, value);
    case DescriptionRoute => assert n == DescriptionStep(s, env, callId, value);
    case _ =>
  }

  /** The receipt-flow steps and the final `else` keep the store well shaped and grow it. */
  lemma ReceiptStepsKeepShape(s: State, env: Env, callId: string, name: string, value: string)
    requires WellShaped(s.calls) && ReceiptFlow(RouteOf(name))
    ensures var n := Dispatch(s, env, callId, name, value);
            WellShaped(n.state.calls) && Grows(s.calls, n.state.calls)
  {
    var n := Dispatch(s, env, callId, name, value);
    if RouteOf(name) == ClientPhoneRoute {
      assert n == ClientPhoneStep(s, callId, value);
      SetField(s.calls, callId, ClientPhoneKey, Str(value));
    } else if RouteOf(name) == ClientIdRoute {
      assert n == ClientIdStep(s, callId, value);
      SetField(s.calls, callId, ClientTzKey, if value == [] then Null else Str(value));
    } else {
      ReceiptStepsKeepCalls(s, env, callId, name, value);
    }
  }

  /** Every step of the dispatch chain keeps the store well shaped and removes nothing from it. */
  lemma DispatchKeepsShape(s: State, env: Env, callId: string, name: string, value: string)
    requires WellShaped(s.calls)
    ensures var n := Dispatch(s, env, callId, name, value);
            WellShaped(n.state.calls) && Grows(s.calls, n.state.calls)
  {
    if ReceiptFlow(RouteOf(name)) {
      ReceiptStepsKeepShape(s, env, callId, name, value);
    } else if DetailsRoute(RouteOf(name)) {
      DetailsStepsKeepShape(s, env, callId, name, value);
    } else {
      ProfileStepsKeepCalls(s, env, callId, name, value);
    }
  }

  /** `handle_user_input` keeps the store well shaped and removes nothing from it. */
  lemma HandleInputKeepsShape(st: State, env: Env, callId: string, name: string, value: string)
    requires WellShaped(st.calls)
    ensures var n := HandleInput(st, env, callId, name, value);
            WellShaped(n.state.calls) && Grows(st.calls, n.state.calls)
  {
    var s := Stored(st, callId, name, value);
    StoredKeepsShape(st, callId, name, value);
    DispatchKeepsShape(s, env, callId, name, value);
    GrowsTrans(st.calls, s.calls, Dispatch(s, env, callId, name, value).state.calls);
  }

  /** Merging the core call parameters into a session keeps it well shaped. */
  lemma MergeKeepsShape(calls: Calls, callId: string, args: map<string, string>)
    requires WellShaped(calls)
    ensures var calls' := calls[callId := SessionOf(calls, callId) + CoreArgs(args)];
            WellShaped(calls') && Grows(calls, calls')
  {
    var cd := SessionOf(calls, callId);
    SessionOfShaped(calls, callId);
    var core := CoreArgs(args);
    forall key | key in cd + core
      ensures ShapeOk(key, (cd + core)[key])
    {
      if key in core {
        assert core[key].Str?;
      }
    }
    PutSession(calls, callId, cd + core);
  }

  /** `handle_pbx_request` keeps the store well shaped and removes nothing from it. */
  lemma PbxRequestKeepsShape(st: State, env: Env, args: map<string, string>)
    requires WellShaped(st.calls)
    ensures var n := PbxRequest(st, env, args);
            WellShaped(n.state.calls) && Grows(st.calls, n.state.calls)
  {
    MergeKeepsShape(st.calls, CallIdOf(args), args);
  }

  /** `handle_menu_choice` keeps the store well shaped and removes nothing from it. */
  lemma MenuChoiceKeepsShape(st: State, env: Env, menuName: string, args: map<string, string>)
    requires WellShaped(st.calls)
    ensures var n := MenuChoice(st, env, menuName, args);
            WellShaped(n.state.calls) && Grows(st.calls, n.state.calls)
  {
    var callId := CallIdOf(args);
    var st1 := if callId != [] then State(st.calls[callId := SessionOf(st.calls, callId) + CoreArgs(args)], st.db)
               else st;
    if callId != [] {
      MergeKeepsShape(st.calls, callId, args);
    }
    var (name, value) := ChosenInput(menuName, args);
    if value.Some? && value.value != [] {
      HandleInputKeepsShape(st1, env, callId, name, value.value);
      GrowsTrans(st.calls, st1.calls, HandleInput(st1, env, callId, name, value.value).state.calls);
    }
  }

  // ---------------------------------------------------------------- the raw input

  /** The wizard steps do not write to the call-data log: only `handle_user_input` itself does. */
  lemma DetailsStepsKeepCallData(s: State, env: Env, callId: string, name: string, value: string)
    requires DetailsRoute(RouteOf(name))
    ensures Dispatch(s, env, callId, name, value).state.db.callData == s.db.callData
  {
  }

  /** Neither do the profile steps. */
  lemma ProfileStepsKeepCallData(s: State, env: Env, callId: string, name: string, value: string)
    requires !ReceiptFlow(RouteOf(name)) && !DetailsRoute(RouteOf(name))
    ensures Dispatch(s, env, callId, name, value).state.db.callData == s.db.callData
  {
    var n := Dispatch(s, env, callId, name, value);
    match RouteOf(name)
    case NewCustomerIdRoute => assert n == NewCustomerIdStep(s, env, callId, value);
    case OwnerAgeRoute => assert n == OwnerAgeStep(s, env, callId, value);
    case GenderRoute => assert n == GenderStep(s, env, callId, value);
    case MessageRoute => assert n == MessageStep(s, callId, value);
    case AnnualReportRoute => assert n == AnnualReportStep(s, callId, value);
    case _ =>
  }

  /** Nor the receipt-flow steps. */
  lemma ReceiptStepsKeepCallData(s: State, env: Env, callId: string, name: string, value: string)
    requires ReceiptFlow(RouteOf(name))
    ensures Dispatch(s, env, callId, name, value).state.db.callData == s.db.callData
  {
    var n := Dispatch(s, env, callId, name, value);
    match RouteOf(name)
    case ClientPhoneRoute => assert n == ClientPhoneStep(s, callId, value);
    case ClientIdRoute => assert n == ClientIdStep(s, callId, value);
    case SaveContactRoute => assert n == SaveContactStep(s, callId, value);
    case DescriptionRoute => assert n == DescriptionStep(s, env, callId, value);
    case _ =>
  }

  /** No step writes to the call-data log. */
  lemma StepsKeepCallData(s: State, env: Env, callId: string, name: string, value: string)
    ensures Dispatch(s, env, callId, name, value).state.db.callData == s.db.callData
  {
    if ReceiptFlow(RouteOf(name)) {
      ReceiptStepsKeepCallData(s, env, callId, name, value);
    } else if DetailsRoute(RouteOf(name)) {
      DetailsStepsKeepCallData(s, env, callId, name, value);
    } else {
      ProfileStepsKeepCallData(s, env, callId, name, value);
    }
  }

  /** The session fields a step may write, by route. */
  function WrittenKeys(r: Route, name: string): set<string>
  {
    match r
    case ChildrenCountRoute => {ChildrenCountKey, CurrentChildKey}
    case BirthYearRoute => {BirthYearsKey, CurrentChildKey}
    case SpouseRoute => {name}
    case ClientPhoneRoute => {ClientPhoneKey}
    case ClientIdRoute => {ClientTzKey}
    case _ => {}
  }

  /** The wizard steps leave the session's other fields as they were. */
  lemma DetailsStepsWriteOnly(s: State, env: Env, callId: string, name: string, value: string, key: string)
    requires DetailsRoute(RouteOf(name))
    requires key in SessionOf(s.calls, callId) && key !in WrittenKeys(RouteOf(name), name)
    ensures var cd := SessionOf(Dispatch(s, env, callId, name, value).state.calls, callId);
            key in cd && cd[key] == SessionOf(s.calls, callId)[key]
  {
    var n := Dispatch(s, env, callId, name, value);
    if RouteOf(name) == BirthYearRoute {
      assert n == BirthYearStep(s, env, callId, value);
    } else if RouteOf(name) == ChildrenCountRoute {
      assert n == ChildrenCountStep(s, callId, value);
    } else {
      assert n == SpouseStep(s, callId, name, value);
    }
  }

  /** The receipt-flow steps leave the session's other fields as they were. */
  lemma ReceiptStepsWriteOnly(s: State, env: Env, callId: string, name: string, value: string, key: string)
    requires ReceiptFlow(RouteOf(name))
    requires key in SessionOf(s.calls, callId) && key !in WrittenKeys(RouteOf(name), name)
    ensures var cd := SessionOf(Dispatch(s, env, callId, name, value).state.calls, callId);
            key in cd && cd[key] == SessionOf(s.calls, callId)[key]
  {
    var n := Dispatch(s, env, callId, name, value);
    if RouteOf(name) == ClientPhoneRoute {
      assert n == ClientPhoneStep(s, callId, value);
    } else if RouteOf(name) == ClientIdRoute {
      assert n == ClientIdStep(s, callId, value);
    } else {
      ReceiptStepsKeepCalls(s, env, callId, name, value);
    }
  }

  /** Every step leaves the session's fields other than `WrittenKeys` as they were. */
  lemma StepWritesOnly(s: State, env: Env, callId: string, name: string, value: string, key: string)
    requires key in SessionOf(s.calls, callId) && key !in WrittenKeys(RouteOf(name), name)
    ensures var cd := SessionOf(Dispatch(s, env, callId, name, value).state.calls, callId);
            key in cd && cd[key] == SessionOf(s.calls, callId)[key]
  {
    if ReceiptFlow(RouteOf(name)) {
      ReceiptStepsWriteOnly(s, env, callId, name, value, key);
    } else if DetailsRoute(RouteOf(name)) {
      DetailsStepsWriteOnly(s, env, callId, name, value, key);
    } else {
      ProfileStepsKeepCalls(s, env, callId, name, value);
    }
  }

  /** `handle_user_input` records every input in the call-data log exactly once. */
  lemma RawInputLogged(st: State, env: Env, callId: string, name: string, value: string)
    ensures HandleInput(st, env, callId, name, value).state.db.callData
            == st.db.callData + [CallDataWrite(callId, name, value)]
  {
    StepsKeepCallData(Stored(st, callId, name, value), env, callId, name, value);
  }

  /**
   * `handle_user_input` keeps the raw value in the session under the
   * input's name; only a workplace count the spouse step accepts replaces
   * it, by its integer.
   */
  lemma RawInputKept(st: State, env: Env, callId: string, name: string, value: string)
    ensures var cd := SessionOf(HandleInput(st, env, callId, name, value).state.calls, callId);
            && name in cd
            && (!((name == Spouse1Key || name == Spouse2Key) && ValidWorkplaces(value)) ==> cd[name] == Str(value))
  {
    var s := Stored(st, callId, name, value);
    RouteOfCases(name);
    if StartsWith(name, BirthYearPrefix) {
      PrefixedNameIsNoKey(name);
    }
    if RouteOf(name) == SpouseRoute {
      assert Dispatch(s, env, callId, name, value) == SpouseStep(s, callId, name, value);
    } else {
      StepWritesOnly(s, env, callId, name, value, name);
    }
  }

  // ---------------------------------------------------------------- database keys

  /**
   * The profile steps keep the key constraints: a new customer takes the
   * next id, and the profile writes keep every id and phone.
   */
  lemma ProfileStepsKeepDbValid(s: State, env: Env, callId: string, value: string)
    requires DbValid(s.db)
    ensures DbValid(NewCustomerIdStep(s, env, callId, value).state.db)
    ensures DbValid(OwnerAgeStep(s, env, callId, value).state.db)
    ensures DbValid(GenderStep(s, env, callId, value).state.db)
  {
  }

  /** The details steps keep the key constraints: the details write goes to the caller's own id. */
  lemma DetailsStepsKeepDbValid(s: State, env: Env, callId: string, name: string, value: string)
    requires DbValid(s.db)
    ensures DbValid(ChildrenCountStep(s, callId, value).state.db)
    ensures DbValid(BirthYearStep(s, env, callId, value).state.db)
    ensures DbValid(SpouseStep(s, callId, name, value).state.db)
  {
    var phone := Get(SessionOf(s.calls, callId)[name := Int(0)], PhoneKey);
    if Lookup(s.db, phone).Some? {
      assert Lookup(s.db, phone).value.id < s.db.nextCustomerId;
    }
  }

  /** The receipt, message and report steps touch neither customers, nor details, nor the id counter. */
  lemma ServiceStepsKeepCustomers(s: State, env: Env, callId: string, value: string)
    ensures SameCustomers(s.db, SaveContactStep(s, callId, value).state.db)
    ensures SameCustomers(s.db, DescriptionStep(s, env, callId, value).state.db)
    ensures SameCustomers(s.db, MessageStep(s, callId, value).state.db)
    ensures SameCustomers(s.db, AnnualReportStep(s, callId, value).state.db)
  {
  }

  /** Every step of the dispatch chain keeps the key constraints of the customer tables. */
  lemma DispatchKeepsDbValid(s: State, env: Env, callId: string, name: string, value: string)
    requires DbValid(s.db)
    ensures DbValid(Dispatch(s, env, callId, name, value).state.db)
  {
    var n := Dispatch(s, env, callId, name, value);
    match RouteOf(name)
    case NewCustomerIdRoute =>
      assert n == NewCustomerIdStep(s, env, callId, value);
      ProfileStepsKeepDbValid(s, env, callId, value);
    case OwnerAgeRoute =>
      assert n == OwnerAgeStep(s, env, callId, value);
      ProfileStepsKeepDbValid(s, env, callId, value);
    case GenderRoute =>
      assert n == GenderStep(s, env, callId, value);
      ProfileStepsKeepDbValid(s, env, callId, value);
    case ChildrenCountRoute =>
      assert n == ChildrenCountStep(s, callId, value);
      DetailsStepsKeepDbValid(s, env, callId, name, value);
    case BirthYearRoute =>
      assert n == BirthYearStep(s, env, callId, value);
      DetailsStepsKeepDbValid(s, env, callId, name, value);
    case SpouseRoute =>
      assert n == SpouseStep(s, callId, name, value);
      DetailsStepsKeepDbValid(s, env, callId, name, value);
    case SaveContactRoute =>
      assert n == SaveContactStep(s, callId, value);
      ServiceStepsKeepCustomers(s, env, callId, value);
      SameCustomersKeepDbValid(s.db, n.state.db);
    case DescriptionRoute =>
      assert n == DescriptionStep(s, env, callId, value);
      ServiceStepsKeepCustomers(s, env, callId, value);
      SameCustomersKeepDbValid(s.db, n.state.db);
    case MessageRoute =>
      assert n == MessageStep(s, callId, value);
      ServiceStepsKeepCustomers(s, env, callId, value);
      SameCustomersKeepDbValid(s.db, n.state.db);
    case AnnualReportRoute =>
      assert n == AnnualReportStep(s, callId, value);
      ServiceStepsKeepCustomers(s, env, callId, value);
      SameCustomersKeepDbValid(s.db, n.state.db);
    case _ =>
      assert n.state.db == s.db;
  }

  /** `handle_user_input` keeps the key constraints. */
  lemma HandleInputKeepsDbValid(st: State, env: Env, callId: string, name: string, value: string)
    requires DbValid(st.db)
    ensures DbValid(HandleInput(st, env, callId, name, value).state.db)
  {
    DispatchKeepsDbValid(Stored(st, callId, name, value), env, callId, name, value);
  }

  /** `handle_pbx_request` keeps the key constraints: it only logs the call. */
  lemma PbxRequestKeepsDbValid(st: State, env: Env, args: map<string, string>)
    requires DbValid(st.db)
    ensures DbValid(PbxRequest(st, env, args).state.db)
  {
  }

  /** `handle_menu_choice` keeps the key constraints. */
  lemma MenuChoiceKeepsDbValid(st: State, env: Env, menuName: string, args: map<string, string>)
    requires DbValid(st.db)
    ensures DbValid(MenuChoice(st, env, menuName, args).state.db)
  {
    var callId := CallIdOf(args);
    var st1 := if callId != [] then State(st.calls[callId := SessionOf(st.calls, callId) + CoreArgs(args)], st.db)
               else st;
    var (name, value) := ChosenInput(menuName, args);
    if value.Some? && value.value != [] {
      HandleInputKeepsDbValid(st1, env, callId, name, value.value);
    }
  }
}
