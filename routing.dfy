/**
 * How the prompts the server sends and the input names it dispatches on fit
 * together: the answer to every prompt is routed back to the step that
 * handles it, and the prompts whose names the dispatch chain does not know
 * fall through to the main menu.
 */
module Routing {
  import opened Digits
  import opened Sessions
  import opened Menus
  import opened Database
  import opened Flow

  /** Every birth-year prompt, whatever the child number, is answered by the birth-year step. */
  lemma BirthYearPromptRoutes(k: int)
    ensures RouteOf(BirthYearPrompt(k).name) == BirthYearRoute
  {
    RouteOfCases(BirthYearPrompt(k).name);
  }

  /** A name that does not begin with 'c' lacks the birth-year prefix. */
  lemma NotPrefixed(name: string)
    requires |name| > 0 && name[0] != 'c'
    ensures !StartsWith(name, BirthYearPrefix)
  {
  }

  /** The first workplace prompt is named by the key its answer is stored under. */
  lemma FirstSpousePromptName()
    ensures SpouseWorkplacesPrompt(1).name == Spouse1Key
  {
    assert NatToString(1) == "1";
  }

  /** The second workplace prompt is named by the key its answer is stored under. */
  lemma SecondSpousePromptName()
    ensures SpouseWorkplacesPrompt(2).name == Spouse2Key
  {
    assert NatToString(2) == "2";
  }

  /** Both workplace keys are answered by the spouse step. */
  lemma SpouseKeysRoute()
    ensures RouteOf(Spouse1Key) == SpouseRoute
    ensures RouteOf(Spouse2Key) == SpouseRoute
  {
    NotPrefixed(Spouse1Key);
    NotPrefixed(Spouse2Key);
  }

  /** The registration and profile prompts are routed to the steps that read their answers. */
  lemma ProfilePromptsRouteBack()
    ensures RouteOf(NewCustomerMenu().name) == NewCustomerRoute
    ensures RouteOf(NewCustomerIdPrompt().name) == NewCustomerIdRoute
    ensures RouteOf(SubscriptionRenewalMenu().name) == RenewalRoute
    ensures RouteOf(OwnerAgePrompt().name) == OwnerAgeRoute
    ensures RouteOf(GenderMenu().name) == GenderRoute
  {
  }

  /** The main menu and the prompts it leads to are routed to the steps that read their answers. */
  lemma MenuPromptsRouteBack()
    ensures RouteOf(MainMenu().name) == MainMenuRoute
    ensures RouteOf(UpdatePersonalDetailsMenu().name) == ChildrenCountRoute
    ensures RouteOf(LeaveMessageMenu().name) == MessageRoute
    ensures RouteOf(AnnualReportMenu().name) == AnnualReportRoute
  {
  }

  /** The first three prompts of the receipt flow are routed to the steps that read their answers. */
  lemma ReceiptPromptsRouteBack()
    ensures RouteOf(CreateReceiptMenu().name) == AmountRoute
    ensures RouteOf(ClientPhonePrompt().name) == ClientPhoneRoute
    ensures RouteOf(ClientIdPrompt().name) == ClientIdRoute
  {
  }

  /** The last two prompts of the receipt flow are routed to the steps that read their answers. */
  lemma ContactPromptsRouteBack()
    ensures RouteOf(SaveContactMenu().name) == SaveContactRoute
    ensures RouteOf(DescriptionPrompt().name) == DescriptionRoute
  {
    NotPrefixed(SaveContactMenu().name);
    NotPrefixed(DescriptionPrompt().name);
  }

  /**
   * `invalidAmount` and `receiptFailed` announce "press 1 to retry", but
   * their names are not dispatched: any answer leads to the main menu.
   */
  lemma RetryPromptsFallThrough()
    ensures RouteOf(InvalidAmountMenu().name) == Unrecognized
    ensures RouteOf(ReceiptFailedMenu().name) == Unrecognized
  {
  }

  /** The answers to the cancel-receipt prompt and the confirmation menus lead to the main menu. */
  lemma OtherPromptsFallThrough()
    ensures RouteOf(CancelReceiptMenu().name) == Unrecognized
    ensures RouteOf(DetailsUpdatedMenu().name) == Unrecognized
    ensures RouteOf(ShowBenefitsMenu().name) == Unrecognized
    ensures RouteOf(SystemErrorMenu().name) == Unrecognized
  {
  }

  /**
   * An input whose name the chain does not know only records the raw value
   * (in the session and in the call record) and answers with the main menu.
   */
  lemma UnrecognizedOnlyStores(st: State, env: Env, callId: string, name: string, value: string)
    requires name !in DispatchedNames && !StartsWith(name, BirthYearPrefix)
    ensures var n := HandleInput(st, env, callId, name, value);
            && n.outcome == Respond(MainMenu())
            && n.state.calls == st.calls[callId := SessionOf(st.calls, callId)[name := Str(value)]]
            && n.state.db == st.db.(callData := st.db.callData + [CallDataWrite(callId, name, value)])
  {
    RouteOfCases(name);
  }
}
