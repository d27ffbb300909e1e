/**
 * The two main-menu services that only write a request for the caller: a
 * recorded message and an annual report.
 */
module Services {
  import opened Wrappers
  import opened Digits
  import opened Sessions
  import opened Menus
  import opened Database
  import opened Flow
  import opened Routing
  import opened ReceiptSteps

  /**
   * The answer to the main menu: each of "1" to "6" opens its own service's
   * first prompt, and anything else, "0" included, plays the main menu
   * again. The answer is only stored under its name and logged.
   */
  lemma MainMenuEffect(st: State, env: Env, callId: string, choice: string)
    ensures var n := HandleInput(st, env, callId, "mainMenu", choice);
            && (n.outcome == Respond(CreateReceiptMenu()) <==> choice == "1")
            && (n.outcome == Respond(CancelReceiptMenu()) <==> choice == "2")
            && (n.outcome == Respond(UpdatePersonalDetailsMenu()) <==> choice == "3")
            && (n.outcome == Respond(ShowBenefitsMenu()) <==> choice == "4")
            && (n.outcome == Respond(LeaveMessageMenu()) <==> choice == "5")
            && (n.outcome == Respond(AnnualReportMenu()) <==> choice == "6")
            && (n.outcome == Respond(MainMenu()) <==> choice !in {"1", "2", "3", "4", "5", "6"})
            && n.state.calls == st.calls[callId := SessionOf(st.calls, callId)["mainMenu" := Str(choice)]]
            && n.state.db == RecordCallData(st.db, callId, "mainMenu", choice)
  {
    MenuPromptsRouteBack();
  }

  /**
   * A recording from a known caller is saved once, as that caller's
   * message for this call; without a known caller or a recording nothing
   * is saved. The caller hears the confirmation either way.
   */
  lemma MessageEffect(st: State, env: Env, callId: string, recording: string)
    ensures var n := HandleInput(st, env, callId, "customerMessage", recording);
            var issuer := Issuer(st, callId);
            && n.outcome == Respond(MessageReceivedMenu())
            && n.state.calls == st.calls[callId := SessionOf(st.calls, callId)["customerMessage" := Str(recording)]]
            && (issuer.Some? && recording != [] ==>
                  n.state.db.messages == st.db.messages + [Message(issuer.value.id, callId, recording)])
            && (!(issuer.Some? && recording != []) ==> n.state.db.messages == st.db.messages)
            && n.state.db.customers == st.db.customers && n.state.db.receipts == st.db.receipts
  {
    MenuPromptsRouteBack();
    var s := Stored(st, callId, "customerMessage", recording);
    assert SessionOf(s.calls, callId) == SessionOf(st.calls, callId)["customerMessage" := Str(recording)];
  }

  /**
   * "1" files exactly one annual-report request, for a known caller, and
   * confirms; any other choice files nothing and returns to the main menu.
   */
  lemma AnnualReportEffect(st: State, env: Env, callId: string, choice: string)
    ensures var n := HandleInput(st, env, callId, "annualReport", choice);
            var issuer := Issuer(st, callId);
            && (choice == "1" ==> n.outcome == Respond(ReportRequestedMenu()))
            && (choice != "1" ==> n.outcome == Respond(MainMenu()))
            && (choice == "1" && issuer.Some? ==>
                  n.state.db.reportRequests == st.db.reportRequests + [issuer.value.id])
            && (!(choice == "1" && issuer.Some?) ==> n.state.db.reportRequests == st.db.reportRequests)
            && n.state.db.customers == st.db.customers && n.state.db.messages == st.db.messages
  {
    MenuPromptsRouteBack();
    var s := Stored(st, callId, "annualReport", choice);
    assert SessionOf(s.calls, callId) == SessionOf(st.calls, callId)["annualReport" := Str(choice)];
  }
}
