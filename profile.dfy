/**
 * The registration and profile steps as a caller experiences them: each
 * answer under its prompt's name writes at most one profile field of the
 * caller's own customer, and the reply is the profile wizard's next
 * question, so an accepted answer moves the wizard past its question and a
 * rejected one asks it again.
 */
module ProfileFlow {
  import opened Wrappers
  import opened Digits
  import opened Sessions
  import opened Menus
  import opened Database
  import opened Flow

  /**
   * The profile wizard reads only the customers and the details rows: call
   * logging and call-data writes never change its answer.
   */
  lemma ProfileNextReadsProfile(db: Db, db': Db, env: Env, phone: Value)
    requires db'.customers == db.customers && db'.details == db.details
    ensures ProfileNext(db', env, phone) == ProfileNext(db, env, phone)
  {
    match Lookup(db, phone)
    case None =>
    case Some(c) =>
      assert Complete(db', env, c) == Complete(db, env, c);
      assert HasChildCount(db', c) == HasChildCount(db, c);
  }

  /**
   * The wizard's answer for one phone reads only that phone's customer row
   * and that customer's details row.
   */
  lemma ProfileNextReadsOwnRows(db: Db, db': Db, env: Env, phone: Value)
    requires Lookup(db', phone) == Lookup(db, phone)
    requires Lookup(db, phone).Some? ==>
               DetailsOf(db', Lookup(db, phone).value.id) == DetailsOf(db, Lookup(db, phone).value.id)
    ensures ProfileNext(db', env, phone) == ProfileNext(db, env, phone)
  {
    match Lookup(db, phone)
    case None =>
    case Some(c) =>
      assert Complete(db', env, c) == Complete(db, env, c);
      assert HasChildCount(db', c) == HasChildCount(db, c);
  }

  /** The caller's phone as the steps read it. */
  function PhoneOf(st: State, callId: string): Value
  {
    Get(SessionOf(st.calls, callId), PhoneKey)
  }

  /** Only the customer with phone `phone` may differ between `db` and `db'`. */
  predicate OthersKept(db: Db, db': Db, phone: string)
  {
    && db'.customers.Keys == db.customers.Keys + {phone}
    && (forall p | p in db.customers && p != phone :: db'.customers[p] == db.customers[p])
  }

  /**
   * The answer to the registration menu: "1" asks for the national id and
   * anything else returns to the main menu. Nothing is registered yet; the
   * answer is only stored under its name and logged.
   */
  lemma NewCustomerChoiceEffect(st: State, env: Env, callId: string, choice: string)
    ensures var n := HandleInput(st, env, callId, "newCustomer", choice);
            && (n.outcome == Respond(NewCustomerIdPrompt()) <==> choice == "1")
            && (choice != "1" ==> n.outcome == Respond(MainMenu()))
            && n.state.calls == st.calls[callId := SessionOf(st.calls, callId)["newCustomer" := Str(choice)]]
            && n.state.db == RecordCallData(st.db, callId, "newCustomer", choice)
  {
    assert RouteOf("newCustomer") == NewCustomerRoute;
  }

  /**
   * Under the key constraints, registering or updating the caller touches
   * no other customer: the constraints still hold, no details row of an
   * id assigned before changes (a new customer takes a fresh id), and the
   * wizard answers every other phone as before.
   */
  lemma NewCustomerIdKeepsOthers(s: State, env: Env, callId: string, tz: string)
    requires DbValid(s.db)
    ensures var db' := NewCustomerIdStep(s, env, callId, tz).state.db;
            var phone := PhoneOf(s, callId);
            && DbValid(db')
            && (forall id: nat | id < s.db.nextCustomerId :: DetailsOf(db', id) == DetailsOf(s.db, id))
            && (forall p | p in s.db.customers && Str(p) != phone :: ProfileNext(db', env, Str(p)) == ProfileNext(s.db, env, Str(p)))
  {
    var db' := NewCustomerIdStep(s, env, callId, tz).state.db;
    var phone := PhoneOf(s, callId);
    if phone.Str? && phone.s != [] {
      var db1 := if phone.s in s.db.customers then s.db else CreateCustomer(s.db, phone.s);
      assert db' == SetTzId(db1, phone.s, tz);
      forall id: nat | id < s.db.nextCustomerId
        ensures DetailsOf(db', id) == DetailsOf(s.db, id)
      {
        assert id in db'.details <==> id in s.db.details;
      }
      forall p | p in s.db.customers && Str(p) != phone
        ensures ProfileNext(db', env, Str(p)) == ProfileNext(s.db, env, Str(p))
      {
        assert db'.customers[p] == s.db.customers[p];
        ProfileNextReadsOwnRows(s.db, db', env, Str(p));
      }
    }
  }

  /**
   * `process_new_customer_id` reached through the dispatch chain, as the
   * caller sees it. Without a caller phone: the main menu and no profile
   * write. With one: the caller's customer exists afterwards (created if it
   * did not), carries the given national id and keeps its other fields, no
   * other customer row changes, and the reply is the wizard's next
   * question, which is never registration and, for a non-empty id, never
   * the id prompt again.
   */
  lemma NewCustomerIdForCaller(st: State, env: Env, callId: string, tz: string)
    ensures var n := HandleInput(st, env, callId, "newCustomerID", tz);
            var phone := PhoneOf(st, callId);
            && (!phone.Str? || phone.s == [] ==>
                  n.outcome == Respond(MainMenu()) && n.state.db == RecordCallData(st.db, callId, "newCustomerID", tz))
            && (phone.Str? && phone.s != [] ==>
                  && Lookup(n.state.db, phone).Some?
                  && Lookup(n.state.db, phone).value.tzId == Some(tz)
                  && (phone.s in st.db.customers ==>
                        n.state.db.customers[phone.s] == st.db.customers[phone.s].(tzId := Some(tz)))
                  && OthersKept(st.db, n.state.db, phone.s)
                  && n.outcome == Respond(ProfileNext(n.state.db, env, phone))
                  && n.outcome != Respond(NewCustomerMenu())
                  && (tz != [] ==> n.outcome != Respond(NewCustomerIdPrompt())))
  {
    assert RouteOf("newCustomerID") == NewCustomerIdRoute;
    var s := Stored(st, callId, "newCustomerID", tz);
    assert PhoneOf(s, callId) == PhoneOf(st, callId);
  }

  /**
   * The whole effect of `process_new_customer_id` reached through the
   * dispatch chain: what the caller sees, and, under the key constraints,
   * that no other customer is touched: the constraints still hold, no
   * details row of an already assigned id changes, and the wizard answers
   * every other phone as before.
   */
  lemma NewCustomerIdEffect(st: State, env: Env, callId: string, tz: string)
    ensures var n := HandleInput(st, env, callId, "newCustomerID", tz);
            var phone := PhoneOf(st, callId);
            && (!phone.Str? || phone.s == [] ==>
                  n.outcome == Respond(MainMenu()) && n.state.db == RecordCallData(st.db, callId, "newCustomerID", tz))
            && (phone.Str? && phone.s != [] ==>
                  && Lookup(n.state.db, phone).Some?
                  && Lookup(n.state.db, phone).value.tzId == Some(tz)
                  && (phone.s in st.db.customers ==>
                        n.state.db.customers[phone.s] == st.db.customers[phone.s].(tzId := Some(tz)))
                  && OthersKept(st.db, n.state.db, phone.s)
                  && n.outcome == Respond(ProfileNext(n.state.db, env, phone))
                  && n.outcome != Respond(NewCustomerMenu())
                  && (tz != [] ==> n.outcome != Respond(NewCustomerIdPrompt())))
            && (DbValid(st.db) ==>
                  && DbValid(n.state.db)
                  && (forall id: nat | id < st.db.nextCustomerId :: DetailsOf(n.state.db, id) == DetailsOf(st.db, id))
                  && (forall p | p in st.db.customers && Str(p) != phone ::
                        ProfileNext(n.state.db, env, Str(p)) == ProfileNext(st.db, env, Str(p))))
  {
    NewCustomerIdForCaller(st, env, callId, tz);
    if DbValid(st.db) {
      NewCustomerIdHitKeepsOthers(st, env, callId, tz);
    }
  }

  /** `NewCustomerIdKeepsOthers` for the whole hit, raw-input logging included. */
  lemma NewCustomerIdHitKeepsOthers(st: State, env: Env, callId: string, tz: string)
    requires DbValid(st.db)
    ensures var n := HandleInput(st, env, callId, "newCustomerID", tz);
            && DbValid(n.state.db)
            && (forall id: nat | id < st.db.nextCustomerId :: DetailsOf(n.state.db, id) == DetailsOf(st.db, id))
            && (forall p | p in st.db.customers && Str(p) != PhoneOf(st, callId) ::
                  ProfileNext(n.state.db, env, Str(p)) == ProfileNext(st.db, env, Str(p)))
  {
    assert RouteOf("newCustomerID") == NewCustomerIdRoute;
    var s := Stored(st, callId, "newCustomerID", tz);
    assert PhoneOf(s, callId) == PhoneOf(st, callId);
    SameCustomersKeepDbValid(st.db, s.db);
    NewCustomerIdKeepsOthers(s, env, callId, tz);
    forall p | p in st.db.customers
      ensures ProfileNext(s.db, env, Str(p)) == ProfileNext(st.db, env, Str(p))
    {
      ProfileNextReadsProfile(st.db, s.db, env, Str(p));
    }
  }

  /**
   * `process_owner_age` reached through the dispatch chain. An age in
   * [14, 99] for a known caller is written to that customer alone, and the
   * wizard moves past the age question; any other answer writes nothing
   * and the reply is the question the wizard was already on, so a rejected
   * age is asked again.
   */
  lemma OwnerAgeEffect(st: State, env: Env, callId: string, age: string)
    ensures var n := HandleInput(st, env, callId, "ownerAge", age);
            var phone := PhoneOf(st, callId);
            var cust := Lookup(st.db, phone);
            && (ValidAge(age) && cust.Some? ==>
                  && n.state.db.customers == st.db.customers[phone.s := cust.value.(ownerAge := Some(ParseInt(age).value))]
                  && n.outcome == Respond(ProfileNext(n.state.db, env, phone))
                  && n.outcome != Respond(OwnerAgePrompt()) && n.outcome != Respond(NewCustomerMenu()))
            && (!(ValidAge(age) && cust.Some?) ==>
                  && n.state.db == RecordCallData(st.db, callId, "ownerAge", age)
                  && n.outcome == Respond(ProfileNext(st.db, env, phone)))
  {
    assert RouteOf("ownerAge") == OwnerAgeRoute;
    var s := Stored(st, callId, "ownerAge", age);
    assert PhoneOf(s, callId) == PhoneOf(st, callId);
    ProfileNextReadsProfile(st.db, s.db, env, PhoneOf(st, callId));
  }

  /** A rejected age while the wizard is on the age question asks it again. */
  lemma InvalidAgeReasks(st: State, env: Env, callId: string, age: string)
    requires !ValidAge(age)
    requires ProfileNext(st.db, env, PhoneOf(st, callId)) == OwnerAgePrompt()
    ensures HandleInput(st, env, callId, "ownerAge", age).outcome == Respond(OwnerAgePrompt())
  {
    OwnerAgeEffect(st, env, callId, age);
  }

  /**
   * `process_gender` reached through the dispatch chain: "1" and "2" write
   * "male" and "female" for a known caller alone and move the wizard past
   * the gender question; any other choice writes nothing and the wizard
   * asks what it was already asking.
   */
  lemma GenderEffect(st: State, env: Env, callId: string, choice: string)
    ensures var n := HandleInput(st, env, callId, "gender", choice);
            var phone := PhoneOf(st, callId);
            var cust := Lookup(st.db, phone);
            && ((choice == "1" || choice == "2") && cust.Some? ==>
                  && n.state.db.customers == st.db.customers[phone.s := cust.value.(gender := Some(if choice == "1" then "male" else "female"))]
                  && n.outcome == Respond(ProfileNext(n.state.db, env, phone))
                  && n.outcome != Respond(GenderMenu()) && n.outcome != Respond(NewCustomerMenu()))
            && (!((choice == "1" || choice == "2") && cust.Some?) ==>
                  && n.state.db == RecordCallData(st.db, callId, "gender", choice)
                  && n.outcome == Respond(ProfileNext(st.db, env, phone)))
  {
    assert RouteOf("gender") == GenderRoute;
    var s := Stored(st, callId, "gender", choice);
    assert PhoneOf(s, callId) == PhoneOf(st, callId);
    ProfileNextReadsProfile(st.db, s.db, env, PhoneOf(st, callId));
  }
}
