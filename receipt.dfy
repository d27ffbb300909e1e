/**
 * The receipt flow as a caller experiences it: the amount, the client's
 * phone and national id, the choice to save the client as a contact, and
 * the description, after which exactly one receipt is written and the
 * provider's answer is reported.
 */
module ReceiptSteps {
  import opened Wrappers
  import opened Digits
  import opened Sessions
  import opened Menus
  import opened Database
  import opened Flow
  import opened Routing

  /**
   * The amount answer is kept raw in the session under its own name (which
   * is where the description step reads it), and the reply is the client
   * phone prompt exactly for a positive integer or the main menu for
   * "SKIP".
   */
  lemma AmountEffect(st: State, env: Env, callId: string, amount: string)
    ensures var n := HandleInput(st, env, callId, "receiptAmount", amount);
            && n.state.calls == st.calls[callId := SessionOf(st.calls, callId)[AmountKey := Str(amount)]]
            && n.state.db == RecordCallData(st.db, callId, "receiptAmount", amount)
            && (n.outcome == Respond(ClientPhonePrompt()) <==> ParseInt(amount).Some? && ParseInt(amount).value > 0)
            && (amount == "SKIP" ==> n.outcome == Respond(MainMenu()))
  {
    ReceiptPromptsRouteBack();
    assert InvalidAmountMenu() != ClientPhonePrompt();
    assert MainMenu() != ClientPhonePrompt();
  }

  /**
   * The client phone answer is kept as `client_phone`, beside the raw copy
   * under its prompt's name; the client id prompt follows.
   */
  lemma ClientPhoneEffect(st: State, env: Env, callId: string, phone: string)
    ensures var n := HandleInput(st, env, callId, "clientPhone", phone);
            && n.state.calls == st.calls[callId := SessionOf(st.calls, callId)["clientPhone" := Str(phone)]
                                                   [ClientPhoneKey := Str(phone)]]
            && n.state.db == RecordCallData(st.db, callId, "clientPhone", phone)
            && n.outcome == Respond(ClientIdPrompt())
  {
    ReceiptPromptsRouteBack();
  }

  /**
   * The client id answer is kept as `client_tz`, an empty answer as `None`;
   * the save-contact question follows.
   */
  lemma ClientIdEffect(st: State, env: Env, callId: string, tz: string)
    ensures var n := HandleInput(st, env, callId, "clientIdNumber", tz);
            var cd := SessionOf(n.state.calls, callId);
            && ClientTzKey in cd && cd[ClientTzKey] == (if tz == [] then Null else Str(tz))
            && n.outcome == Respond(SaveContactMenu())
  {
    ReceiptPromptsRouteBack();
  }

  /** The caller's customer, as the receipt steps look it up. */
  function Issuer(st: State, callId: string): Option<Customer>
  {
    Lookup(st.db, Get(SessionOf(st.calls, callId), PhoneKey))
  }

  /** The save-contact answer is stored, then handled by the save-contact step. */
  lemma SaveContactDispatch(st: State, env: Env, callId: string, choice: string)
    ensures HandleInput(st, env, callId, "saveContactChoice", choice)
            == SaveContactStep(Stored(st, callId, "saveContactChoice", choice), callId, choice)
  {
    ContactPromptsRouteBack();
  }

  /**
   * "1" from a known caller leaves a contact for (caller, client phone)
   * marked as added by the IVR and carrying the client's id when one was
   * given, and changes no other contact; any other answer saves nothing.
   * The description prompt follows either way.
   */
  lemma SaveContactEffect(st: State, env: Env, callId: string, choice: string)
    ensures var n := HandleInput(st, env, callId, "saveContactChoice", choice);
            var cd := SessionOf(st.calls, callId);
            var issuer := Issuer(st, callId);
            var key := (if issuer.Some? then issuer.value.id else 0, Get(cd, ClientPhoneKey));
            && n.outcome == Respond(DescriptionPrompt())
            && n.state.calls == st.calls[callId := cd["saveContactChoice" := Str(choice)]]
            && (choice == "1" && issuer.Some? ==>
                  && key in n.state.db.contacts
                  && n.state.db.contacts[key].notes == IvrNote
                  && (Get(cd, ClientTzKey) != Null ==> n.state.db.contacts[key].tzId == Get(cd, ClientTzKey))
                  && (forall k | k in st.db.contacts && k != key :: k in n.state.db.contacts && n.state.db.contacts[k] == st.db.contacts[k])
                  && n.state.db.contacts.Keys == st.db.contacts.Keys + {key})
            && (!(choice == "1" && issuer.Some?) ==> n.state.db == RecordCallData(st.db, callId, "saveContactChoice", choice))
  {
    SaveContactDispatch(st, env, callId, choice);
    var s := Stored(st, callId, "saveContactChoice", choice);
    assert SessionOf(s.calls, callId) == SessionOf(st.calls, callId)["saveContactChoice" := Str(choice)];
  }

  /** The description a receipt gets: the caller's, or the default when the prompt was skipped. */
  function DescriptionOf(d: string): (r: string)
    ensures d == DescriptionPrompt().skipValue.value ==> r == DefaultDescription
    ensures d != DescriptionPrompt().skipValue.value ==> r == d
  {
    if d != NoDescription then d else DefaultDescription
  }

  /**
   * The receipt the description step writes for this call: the caller's,
   * for the session's amount, with the given description or the default
   * one, the client fields from the session, linked to the saved contact
   * when there is one, completed with the provider's document when the
   * provider succeeded and failed otherwise.
   */
  predicate IssuedRow(r: Receipt, st: State, env: Env, callId: string, d: string)
    requires Issuer(st, callId).Some? && IntOf(Get(SessionOf(st.calls, callId), AmountKey)).Some?
  {
    var cd := SessionOf(st.calls, callId);
    var issuer := Issuer(st, callId).value;
    && r.customerId == issuer.id && r.callId == callId
    && r.amount == IntOf(Get(cd, AmountKey)).value
    && r.description == DescriptionOf(d)
    && r.clientPhone == Get(cd, ClientPhoneKey) && r.clientTz == Get(cd, ClientTzKey)
    && r.contactId == ReceiptContact(st.db, issuer.id, Get(cd, ClientPhoneKey))
    && (r.status == Completed <==> env.provider.status)
    && (r.status == Failed <==> !env.provider.status)
    && (env.provider.status ==> r.docId == env.provider.docId && r.docNum == env.provider.docNum)
    && r.response == Some(env.provider)
  }

  /** The description answer is stored, then handled by the description step. */
  lemma DescriptionDispatch(st: State, env: Env, callId: string, d: string)
    ensures HandleInput(st, env, callId, "receiptDescription", d)
            == DescriptionStep(Stored(st, callId, "receiptDescription", d), env, callId, d)
  {
    ContactPromptsRouteBack();
  }

  /**
   * With an amount, a known caller and an amount that reads as an integer,
   * the description step appends exactly one receipt, the `IssuedRow`, and
   * changes no other receipt, customer or contact; the reply reports the
   * provider's outcome.
   */
  lemma ReceiptIssued(st: State, env: Env, callId: string, d: string)
    requires var cd := SessionOf(st.calls, callId);
             Truthy(Get(cd, AmountKey)) && Issuer(st, callId).Some? && IntOf(Get(cd, AmountKey)).Some?
    ensures var n := HandleInput(st, env, callId, "receiptDescription", d);
            var k := |st.db.receipts|;
            && |n.state.db.receipts| == k + 1
            && n.state.db.receipts[..k] == st.db.receipts
            && IssuedRow(n.state.db.receipts[k], st, env, callId, d)
            && n.outcome == Respond(if env.provider.status then ReceiptSuccessMenu(env.provider.docNum) else ReceiptFailedMenu())
            && n.state.db.customers == st.db.customers && n.state.db.contacts == st.db.contacts
  {
    DescriptionDispatch(st, env, callId, d);
    var s := Stored(st, callId, "receiptDescription", d);
    assert SessionOf(s.calls, callId) == SessionOf(st.calls, callId)["receiptDescription" := Str(d)];
  }

  /**
   * Without an amount or a known caller the step answers `systemError`; with
   * an amount that does not read as an integer it raises. Either way no
   * receipt is written.
   */
  lemma NoReceiptWithout(st: State, env: Env, callId: string, d: string)
    ensures var n := HandleInput(st, env, callId, "receiptDescription", d);
            var cd := SessionOf(st.calls, callId);
            var amount := Get(cd, AmountKey);
            && (!Truthy(amount) || Issuer(st, callId).None? ==> n.outcome == Respond(SystemErrorMenu()))
            && (Truthy(amount) && Issuer(st, callId).Some? && IntOf(amount).None? ==> n.outcome == Raise)
            && (!(Truthy(amount) && Issuer(st, callId).Some? && IntOf(amount).Some?) ==>
                  n.state.db.receipts == st.db.receipts)
  {
    DescriptionDispatch(st, env, callId, d);
    var s := Stored(st, callId, "receiptDescription", d);
    assert SessionOf(s.calls, callId) == SessionOf(st.calls, callId)["receiptDescription" := Str(d)];
  }
}
