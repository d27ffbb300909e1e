/**
 * The two HTTP entry points as the PBX sees them: the first request of a
 * call, which logs it, opens or refreshes the call's session and decides
 * where the caller starts, and every later menu answer, which is found
 * among the request's arguments and handed to the dispatch chain.
 */
module Routes {
  import opened Wrappers
  import opened Digits
  import opened Sessions
  import opened Menus
  import opened Database
  import opened Flow
  import opened ProfileFlow

  /**
   * After the first request of a call, the call's session holds every core
   * PBX parameter that was sent non-empty, and every field it held before
   * that the request did not resend; the call is logged with all its
   * parameters, and nothing else in the database changes.
   */
  lemma PbxRequestSession(st: State, env: Env, args: map<string, string>)
    ensures var n := PbxRequest(st, env, args);
            var callId := CallIdOf(args);
            var cd0 := SessionOf(st.calls, callId);
            var cd := SessionOf(n.state.calls, callId);
            && (forall k | k in CoreKeys && k in args && args[k] != [] :: k in cd && cd[k] == Str(args[k]))
            && (forall k | k in cd0 && k !in CoreArgs(args) :: k in cd && cd[k] == cd0[k])
            && (forall id | id in st.calls && id != callId :: id in n.state.calls && n.state.calls[id] == st.calls[id])
            && n.state.db == LogCall(st.db, CallParams(args))
  {
  }

  /**
   * A known caller whose subscription is active starts wherever the profile
   * wizard says, read from the database as it was before the request:
   * logging the call does not change the answer.
   */
  lemma ActiveCallerStartsInWizard(st: State, env: Env, args: map<string, string>)
    requires PhoneKey in args && args[PhoneKey] != [] && args[PhoneKey] in st.db.customers
    requires env.subscriptionActive(st.db.customers[args[PhoneKey]])
    ensures PbxRequest(st, env, args).response == Json(ProfileNext(st.db, env, Str(args[PhoneKey])))
  {
    assert CallParams(args)[PhoneKey] == Str(args[PhoneKey]);
    ProfileNextReadsProfile(st.db, LogCall(st.db, CallParams(args)), env, Str(args[PhoneKey]));
  }

  /**
   * When the request names the menu it answers, that argument is the input:
   * a non-empty value goes to the dispatch chain under the menu's name, with
   * the session refreshed first; an escaping exception becomes HTTP 500.
   */
  lemma MenuChoiceDelegates(st: State, env: Env, menuName: string, args: map<string, string>)
    requires menuName in args && args[menuName] != []
    ensures var callId := CallIdOf(args);
            var st1 := if callId != [] then State(st.calls[callId := SessionOf(st.calls, callId) + CoreArgs(args)], st.db)
                       else st;
            var n := HandleInput(st1, env, callId, menuName, args[menuName]);
            var r := MenuChoice(st, env, menuName, args);
            && r.state == n.state
            && (n.outcome.Respond? ==> r.response == Json(n.outcome.menu))
            && (n.outcome.Raise? ==> r.response == HttpError(500))
  {
  }

  /**
   * When the request does not name its menu, the input is the first of the
   * fallback names present, in their fixed order; with none present, the
   * answer is `invalidChoice`.
   */
  lemma FallbackIsFirstPresent(menuName: string, args: map<string, string>)
    requires menuName !in args
    ensures var r := ChosenInput(menuName, args);
            && (r.1.Some? <==> exists i | 0 <= i < |FallbackKeys| :: FallbackKeys[i] in args)
            && (r.1.Some? ==> exists i | 0 <= i < |FallbackKeys| ::
                  && r.0 == FallbackKeys[i] && r.1.value == args[r.0]
                  && forall j | 0 <= j < i :: FallbackKeys[j] !in args)
  {
    var r := ChosenInput(menuName, args);
    match FirstPresent(FallbackKeys, args)
    case Some(i) =>
      assert r.0 == FallbackKeys[i];
    case None =>
  }

  /**
   * When the request does not name its menu but carries a fallback name,
   * the first such name in the fixed order is the input name: an empty
   * value there is `invalidChoice` after the merge and nothing else, a
   * non-empty one goes to the dispatch chain under that name, an escaping
   * exception becoming HTTP 500.
   */
  lemma FallbackDelegates(st: State, env: Env, menuName: string, args: map<string, string>)
    requires menuName !in args
    requires FirstPresent(FallbackKeys, args).Some?
    ensures var key := FallbackKeys[FirstPresent(FallbackKeys, args).value];
            var callId := CallIdOf(args);
            var st1 := if callId != [] then State(st.calls[callId := SessionOf(st.calls, callId) + CoreArgs(args)], st.db)
                       else st;
            var n := HandleInput(st1, env, callId, key, args[key]);
            var r := MenuChoice(st, env, menuName, args);
            && (args[key] == [] ==> r.state == st1 && r.response == Json(InvalidChoiceMenu()))
            && (args[key] != [] ==> r.state == n.state)
            && (args[key] != [] && n.outcome.Respond? ==> r.response == Json(n.outcome.menu))
            && (args[key] != [] && n.outcome.Raise? ==> r.response == HttpError(500))
  {
  }

  /** With no input value at all, the answer is `invalidChoice` and nothing is dispatched. */
  lemma NoValueIsInvalid(st: State, env: Env, menuName: string, args: map<string, string>)
    requires menuName !in args
    requires forall i | 0 <= i < |FallbackKeys| :: FallbackKeys[i] !in args
    ensures MenuChoice(st, env, menuName, args).response == Json(InvalidChoiceMenu())
    ensures MenuChoice(st, env, menuName, args).state.db == st.db
  {
    FallbackIsFirstPresent(menuName, args);
  }

  /**
   * The client-id prompt offers '#' to skip with an empty value, but an
   * empty value is rejected as `invalidChoice` before any step runs: the
   * skip never reaches the client-id step, and the database is untouched.
   */
  lemma ClientIdSkipRejected(st: State, env: Env, args: map<string, string>)
    requires ClientIdPrompt().name in args && args[ClientIdPrompt().name] == ClientIdPrompt().skipValue.value
    ensures MenuChoice(st, env, ClientIdPrompt().name, args).response == Json(InvalidChoiceMenu())
    ensures MenuChoice(st, env, ClientIdPrompt().name, args).state.db == st.db
  {
  }

  /**
   * Any non-empty answer to the renewal menu ends in HTTP 500: its step
   * calls a method the handler does not have.
   */
  lemma RenewalAnswerFails(st: State, env: Env, args: map<string, string>)
    requires SubscriptionRenewalMenu().name in args && args[SubscriptionRenewalMenu().name] != []
    ensures MenuChoice(st, env, SubscriptionRenewalMenu().name, args).response == HttpError(500)
  {
    assert RouteOf("renewSubscription") == RenewalRoute;
  }
}
