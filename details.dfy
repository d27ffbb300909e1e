/**
 * The personal-details wizard as a caller experiences it: the child count,
 * one birth year per child, then the two workplace counts, each answer sent
 * to the server as the answer to the prompt it last played.
 */
module DetailsWizard {
  import opened Wrappers
  import opened Digits
  import opened Sessions
  import opened Menus
  import opened Database
  import opened Flow
  import opened Routing

  /** No birth-year prompt name is one of the session keys the wizard reads. */
  lemma PrefixedNameIsNoKey(name: string)
    requires StartsWith(name, BirthYearPrefix)
    ensures name != BirthYearsKey && name != ChildrenCountKey && name != CurrentChildKey && name != PhoneKey
  {
    assert name[5] == BirthYearPrefix[5];
  }

  /** The birth years a session has collected so far (`cd.get('children_birth_years', [])`). */
  function YearsSoFar(cd: Session): seq<int>
  {
    if BirthYearsKey in cd && cd[BirthYearsKey].IntList? then cd[BirthYearsKey].items else []
  }

  /** The session holds no birth-year value `list.append` would fail on. */
  predicate YearsListable(cd: Session)
  {
    BirthYearsKey in cd ==> cd[BirthYearsKey].IntList?
  }

  /**
   * `process_children_count` reached through the dispatch chain: a count in
   * [0, 20] is kept with the cursor at the first child; anything else
   * answers `systemError` and changes no wizard field. The birth-year list is
   * never reset, and the database only records the raw input.
   */
  lemma ChildrenCountEffect(st: State, env: Env, callId: string, input: string)
    ensures var n := HandleInput(st, env, callId, "numChildren", input);
            var cd0 := SessionOf(st.calls, callId);
            var cd := SessionOf(n.state.calls, callId);
            && (ValidChildCount(input) ==>
                  && cd == cd0["numChildren" := Str(input)][ChildrenCountKey := Int(ParseInt(input).value)]
                                                          [CurrentChildKey := Int(1)]
                  && n.outcome == Respond(if ParseInt(input).value == 0 then SpouseWorkplacesPrompt(1)
                                          else BirthYearPrompt(1)))
            && (!ValidChildCount(input) ==>
                  cd == cd0["numChildren" := Str(input)] && n.outcome == Respond(SystemErrorMenu()))
            && YearsSoFar(cd) == YearsSoFar(cd0) && (YearsListable(cd0) ==> YearsListable(cd))
            && n.state.db == RecordCallData(st.db, callId, "numChildren", input)
  {
    assert RouteOf("numChildren") == ChildrenCountRoute;
  }

  /** An answer under a birth-year name is stored, then handled by the birth-year step. */
  lemma BirthYearDispatch(st: State, env: Env, callId: string, name: string, value: string)
    requires StartsWith(name, BirthYearPrefix)
    ensures HandleInput(st, env, callId, name, value) == BirthYearStep(Stored(st, callId, name, value), env, callId, value)
  {
    RouteOfCases(name);
  }

  /**
   * What the birth-year step does with an accepted year: the year is
   * appended; while the cursor is below the child count it moves up by
   * exactly one and the next child's prompt is played, otherwise spouse 1's
   * workplaces are asked. Nothing but these two session fields changes.
   */
  lemma AppendBirthYearEffect(s: State, callId: string, y: int, c: int, t: int)
    requires var cd := SessionOf(s.calls, callId);
             && YearsListable(cd)
             && CurrentChildKey in cd && cd[CurrentChildKey] == Int(c)
             && ChildrenCountKey in cd && cd[ChildrenCountKey] == Int(t)
    ensures var n := AppendBirthYear(s, callId, y);
            var cd := SessionOf(s.calls, callId);
            && n.state.calls == s.calls[callId := cd[BirthYearsKey := IntList(YearsSoFar(cd) + [y])]
                                                    [CurrentChildKey := Int(if c < t then c + 1 else c)]]
            && n.state.db == s.db
            && n.outcome == Respond(if c < t then BirthYearPrompt(c + 1) else SpouseWorkplacesPrompt(1))
  {
    var cd := SessionOf(s.calls, callId);
    assert GetOr(cd, BirthYearsKey, IntList([])) == IntList(YearsSoFar(cd));
    var cd1 := cd[BirthYearsKey := IntList(YearsSoFar(cd) + [y])];
    assert GetOr(cd1, CurrentChildKey, Int(1)) == Int(c);
    assert GetOr(cd1, ChildrenCountKey, Int(0)) == Int(t);
    assert PyLess(Int(c), Int(t)) == Some(c < t);
    if c < t {
      assert AppendBirthYear(s, callId, y)
          == Next(State(s.calls[callId := cd1[CurrentChildKey := Int(c + 1)]], s.db), Respond(BirthYearPrompt(c + 1)));
    } else {
      assert cd1[CurrentChildKey := Int(c)] == cd1;
      assert AppendBirthYear(s, callId, y) == Next(State(s.calls[callId := cd1], s.db), Respond(SpouseWorkplacesPrompt(1)));
    }
  }

  /** The session is at child `c` of `t`, with a list the next year can be appended to. */
  predicate Ready(cd: Session, c: int, t: int)
  {
    && YearsListable(cd)
    && CurrentChildKey in cd && cd[CurrentChildKey] == Int(c)
    && ChildrenCountKey in cd && cd[ChildrenCountKey] == Int(t)
  }

  /**
   * An accepted year stored under a birth-year name and appended: the
   * session goes through `AppendBirthYearEffect`; the child count and the
   * caller's phone are left as they were.
   */
  lemma StoredBirthYearEffect(st: State, callId: string, name: string, c: int, t: int, y: int)
    requires StartsWith(name, BirthYearPrefix)
    requires Ready(SessionOf(st.calls, callId), c, t)
    ensures var n := AppendBirthYear(Stored(st, callId, name, IntToString(y)), callId, y);
            var cd0 := SessionOf(st.calls, callId);
            var cd := SessionOf(n.state.calls, callId);
            && Ready(cd, if c < t then c + 1 else c, t)
            && YearsSoFar(cd) == YearsSoFar(cd0) + [y]
            && n.outcome == Respond(if c < t then BirthYearPrompt(c + 1) else SpouseWorkplacesPrompt(1))
            && Get(cd, PhoneKey) == Get(cd0, PhoneKey)
            && n.state.db.customers == st.db.customers && n.state.db.details == st.db.details
  {
    var v := IntToString(y);
    PrefixedNameIsNoKey(name);
    var s := Stored(st, callId, name, v);
    var cd0 := SessionOf(st.calls, callId);
    assert SessionOf(s.calls, callId) == cd0[name := Str(v)];
    AppendBirthYearEffect(s, callId, y, c, t);
  }

  /**
   * One birth-year answer, as the caller sends it: appended to the list;
   * the cursor moves up by exactly one while it is below the child count,
   * and the reply is the next child's prompt, or spouse 1's once the cursor
   * has reached the count.
   */
  lemma BirthYearAdvance(st: State, env: Env, callId: string, name: string, c: int, t: int, y: int)
    requires StartsWith(name, BirthYearPrefix)
    requires env.currentYear - 50 <= y <= env.currentYear
    requires Ready(SessionOf(st.calls, callId), c, t)
    ensures var n := HandleInput(st, env, callId, name, IntToString(y));
            var cd0 := SessionOf(st.calls, callId);
            var cd := SessionOf(n.state.calls, callId);
            && Ready(cd, if c < t then c + 1 else c, t)
            && YearsSoFar(cd) == YearsSoFar(cd0) + [y]
            && n.outcome == Respond(if c < t then BirthYearPrompt(c + 1) else SpouseWorkplacesPrompt(1))
  {
    BirthYearDispatch(st, env, callId, name, IntToString(y));
    ParseIntToString(y);
    StoredBirthYearEffect(st, callId, name, c, t, y);
  }

  /**
   * A birth year `int()` cannot read, or one outside the last fifty years,
   * gets `systemError`: nothing is appended, the cursor stays where it was,
   * and only the raw input is stored and logged.
   */
  lemma BirthYearRejected(st: State, env: Env, callId: string, name: string, input: string)
    requires StartsWith(name, BirthYearPrefix)
    requires !ValidBirthYear(input, env.currentYear)
    ensures var n := HandleInput(st, env, callId, name, input);
            && n.outcome == Respond(SystemErrorMenu())
            && n.state.calls == st.calls[callId := SessionOf(st.calls, callId)[name := Str(input)]]
            && n.state.db == RecordCallData(st.db, callId, name, input)
  {
    BirthYearDispatch(st, env, callId, name, input);
  }

  /**
   * A caller answering the birth-year prompts from child `c` on with
   * `years`: each answer is sent under the name of the prompt just played.
   */
  function AnswerBirthYears(st: State, env: Env, callId: string, c: int, years: seq<int>): (r: (State, seq<Outcome>))
    ensures |r.1| == |years|
    decreases |years|
  {
    if years == [] then (st, [])
    else
      var n := HandleInput(st, env, callId, BirthYearPrompt(c).name, IntToString(years[0]));
      var rest := AnswerBirthYears(n.state, env, callId, c + 1, years[1..]);
      (rest.0, [n.outcome] + rest.1)
  }

  /** One accepted birth-year answer under the prompt of child `c`: the raw value is stored, then appended. */
  function BirthYearHit(callId: string): (State, int, int) -> Next
  {
    (s: State, c: int, y: int) => AppendBirthYear(Stored(s, callId, BirthYearPrompt(c).name, IntToString(y)), callId, y)
  }

  /** A run of answers from child `c` on, each handled by `hit`. */
  function Run(hit: (State, int, int) -> Next, st: State, c: int, years: seq<int>): (r: (State, seq<Outcome>))
    ensures |r.1| == |years|
    decreases |years|
  {
    if years == [] then (st, [])
    else
      var n := hit(st, c, years[0]);
      var rest := Run(hit, n.state, c + 1, years[1..]);
      (rest.0, [n.outcome] + rest.1)
  }

  /** What one accepted answer does to a session that is at child `c` of `t`. */
  predicate Advances(callId: string, s: State, c: int, t: int, y: int, n: Next)
  {
    var cd0 := SessionOf(s.calls, callId);
    var cd := SessionOf(n.state.calls, callId);
    && Ready(cd, if c < t then c + 1 else c, t)
    && YearsSoFar(cd) == YearsSoFar(cd0) + [y]
    && n.outcome == Respond(if c < t then BirthYearPrompt(c + 1) else SpouseWorkplacesPrompt(1))
    && Get(cd, PhoneKey) == Get(cd0, PhoneKey)
    && n.state.db.customers == s.db.customers && n.state.db.details == s.db.details
  }

  /** `hit` advances every ready session. */
  ghost predicate AlwaysAdvances(hit: (State, int, int) -> Next, callId: string)
  {
    forall s: State, c: int, t: int, y: int | Ready(SessionOf(s.calls, callId), c, t) :: Advances(callId, s, c, t, y, hit(s, c, y))
  }

  lemma BirthYearHitAdvances(callId: string)
    ensures AlwaysAdvances(BirthYearHit(callId), callId)
  {
    forall s: State, c: int, t: int, y: int | Ready(SessionOf(s.calls, callId), c, t)
      ensures Advances(callId, s, c, t, y, BirthYearHit(callId)(s, c, y))
    {
      StoredBirthYearEffect(s, callId, BirthYearPrompt(c).name, c, t, y);
    }
  }

  /** For years the step accepts, answering the prompts is a run of `BirthYearHit`. */
  lemma {:induction false} AnswersAreHits(st: State, env: Env, callId: string, c: int, years: seq<int>)
    requires forall i | 0 <= i < |years| :: env.currentYear - 50 <= years[i] <= env.currentYear
    ensures AnswerBirthYears(st, env, callId, c, years) == Run(BirthYearHit(callId), st, c, years)
    decreases |years|
  {
    if years != [] {
      var v := IntToString(years[0]);
      BirthYearDispatch(st, env, callId, BirthYearPrompt(c).name, v);
      ParseIntToString(years[0]);
      var n := HandleInput(st, env, callId, BirthYearPrompt(c).name, v);
      AnswersAreHits(n.state, env, callId, c + 1, years[1..]);
    }
  }

  /** The replies of a run of advancing hits: each next child's prompt, then spouse 1's. */
  lemma {:induction false} RunReplies(hit: (State, int, int) -> Next, st: State, callId: string, c: int, years: seq<int>)
    requires AlwaysAdvances(hit, callId)
    requires |years| >= 1
    requires Ready(SessionOf(st.calls, callId), c, c + |years| - 1)
    ensures var r := Run(hit, st, c, years);
            && (forall i | 0 <= i < |years| - 1 :: r.1[i] == Respond(BirthYearPrompt(c + i + 1)))
            && r.1[|years| - 1] == Respond(SpouseWorkplacesPrompt(1))
    decreases |years|
  {
    var n := hit(st, c, years[0]);
    assert Advances(callId, st, c, c + |years| - 1, years[0], n);
    var r := Run(hit, st, c, years);
    var rest := Run(hit, n.state, c + 1, years[1..]);
    assert r.1 == [n.outcome] + rest.1;
    if |years| > 1 {
      RunReplies(hit, n.state, callId, c + 1, years[1..]);
      forall i | 0 <= i < |years| - 1
        ensures r.1[i] == Respond(BirthYearPrompt(c + i + 1))
      {
        if i > 0 {
          assert r.1[i] == rest.1[i - 1];
        }
      }
    }
  }

  /** The session after a run of advancing hits: the list grows by `years`, the cursor ends on the last child. */
  lemma {:induction false} RunSession(hit: (State, int, int) -> Next, st: State, callId: string, c: int, years: seq<int>)
    requires AlwaysAdvances(hit, callId)
    requires |years| >= 1
    requires Ready(SessionOf(st.calls, callId), c, c + |years| - 1)
    ensures var r := Run(hit, st, c, years);
            var cd0 := SessionOf(st.calls, callId);
            var cd := SessionOf(r.0.calls, callId);
            && Ready(cd, c + |years| - 1, c + |years| - 1)
            && YearsSoFar(cd) == YearsSoFar(cd0) + years
            && Get(cd, PhoneKey) == Get(cd0, PhoneKey)
            && r.0.db.customers == st.db.customers && r.0.db.details == st.db.details
    decreases |years|
  {
    var n := hit(st, c, years[0]);
    assert Advances(callId, st, c, c + |years| - 1, years[0], n);
    if |years| > 1 {
      RunSession(hit, n.state, callId, c + 1, years[1..]);
      assert [years[0]] + years[1..] == years;
    } else {
      assert years == [years[0]];
    }
  }

  /**
   * With the cursor at child `c` and exactly `|years|` children still to
   * go, answering with valid years plays the prompts of children c+1, c+2,
   * ... in turn and then asks spouse 1's workplaces; the list grows by
   * exactly `years`, in order, and the cursor ends on the last child.
   */
  lemma BirthYearRun(st: State, env: Env, callId: string, c: int, years: seq<int>)
    requires |years| >= 1
    requires forall i | 0 <= i < |years| :: env.currentYear - 50 <= years[i] <= env.currentYear
    requires Ready(SessionOf(st.calls, callId), c, c + |years| - 1)
    ensures var r := AnswerBirthYears(st, env, callId, c, years);
            var cd0 := SessionOf(st.calls, callId);
            var cd := SessionOf(r.0.calls, callId);
            && (forall i | 0 <= i < |years| - 1 :: r.1[i] == Respond(BirthYearPrompt(c + i + 1)))
            && r.1[|years| - 1] == Respond(SpouseWorkplacesPrompt(1))
            && Ready(cd, c + |years| - 1, c + |years| - 1)
            && YearsSoFar(cd) == YearsSoFar(cd0) + years
            && Get(cd, PhoneKey) == Get(cd0, PhoneKey)
            && r.0.db.customers == st.db.customers && r.0.db.details == st.db.details
  {
    AnswersAreHits(st, env, callId, c, years);
    BirthYearHitAdvances(callId);
    RunReplies(BirthYearHit(callId), st, callId, c, years);
    RunSession(BirthYearHit(callId), st, callId, c, years);
  }

  /** A child count of one to twenty leaves the session ready at the first of that many children. */
  lemma ChildCountReady(st: State, env: Env, callId: string, k: int)
    requires 1 <= k <= 20
    requires YearsListable(SessionOf(st.calls, callId))
    ensures var first := HandleInput(st, env, callId, "numChildren", IntToString(k));
            var cd := SessionOf(first.state.calls, callId);
            && first.outcome == Respond(BirthYearPrompt(1))
            && Ready(cd, 1, k)
            && YearsSoFar(cd) == YearsSoFar(SessionOf(st.calls, callId))
  {
    ParseIntToString(k);
    ChildrenCountEffect(st, env, callId, IntToString(k));
  }

  /** `BirthYearRun` from the first child, when the count is exactly the number of answers. */
  lemma BirthYearsFromFirstChild(st: State, env: Env, callId: string, years: seq<int>)
    requires |years| >= 1
    requires forall i | 0 <= i < |years| :: env.currentYear - 50 <= years[i] <= env.currentYear
    requires Ready(SessionOf(st.calls, callId), 1, |years|)
    ensures var r := AnswerBirthYears(st, env, callId, 1, years);
            var cd := SessionOf(r.0.calls, callId);
            && (forall i | 0 <= i < |years| - 1 :: r.1[i] == Respond(BirthYearPrompt(i + 2)))
            && r.1[|years| - 1] == Respond(SpouseWorkplacesPrompt(1))
            && YearsSoFar(cd) == YearsSoFar(SessionOf(st.calls, callId)) + years
            && Ready(cd, |years|, |years|)
  {
    BirthYearRun(st, env, callId, 1, years);
  }

  /**
   * The details wizard from the child count to spouse 1: answering the
   * child-count prompt with `|years|` (one to twenty) and then each
   * birth-year prompt in turn with a valid year plays the first child's
   * prompt, then the prompts of children 2, ..., |years|, and then asks
   * spouse 1's workplaces; the list grows by exactly `years`, in order.
   */
  lemma ChildrenThenBirthYears(st: State, env: Env, callId: string, years: seq<int>)
    requires 1 <= |years| <= 20
    requires forall i | 0 <= i < |years| :: env.currentYear - 50 <= years[i] <= env.currentYear
    requires YearsListable(SessionOf(st.calls, callId))
    ensures var first := HandleInput(st, env, callId, "numChildren", IntToString(|years|));
            var r := AnswerBirthYears(first.state, env, callId, 1, years);
            var cd0 := SessionOf(st.calls, callId);
            var cd := SessionOf(r.0.calls, callId);
            && first.outcome == Respond(BirthYearPrompt(1))
            && (forall i | 0 <= i < |years| - 1 :: r.1[i] == Respond(BirthYearPrompt(i + 2)))
            && r.1[|years| - 1] == Respond(SpouseWorkplacesPrompt(1))
            && YearsSoFar(cd) == YearsSoFar(cd0) + years
            && Ready(cd, |years|, |years|)
  {
    var first := HandleInput(st, env, callId, "numChildren", IntToString(|years|));
    ChildCountReady(st, env, callId, |years|);
    BirthYearsFromFirstChild(first.state, env, callId, years);
  }

  /** An answer under either workplace name is stored, then handled by the spouse step. */
  lemma SpouseDispatch(st: State, env: Env, callId: string, name: string, value: string)
    requires name == Spouse1Key || name == Spouse2Key
    ensures HandleInput(st, env, callId, name, value) == SpouseStep(Stored(st, callId, name, value), callId, name, value)
  {
    SpouseKeysRoute();
  }

  /**
   * `process_spouse_workplaces` on a stored answer (`SpouseDispatch` shows
   * the dispatch chain leads there for both workplace names): a count
   * in [0, 10] is kept under its prompt's name; spouse 1 leads to spouse 2,
   * and spouse 2 writes the collected details, once, for a known caller and
   * confirms. Anything else answers `systemError` and persists nothing
   * beyond the raw input.
   */
  lemma SpouseWorkplacesEffect(st: State, callId: string, name: string, input: string)
    requires name == Spouse1Key || name == Spouse2Key
    ensures var n := SpouseStep(Stored(st, callId, name, input), callId, name, input);
            var cd0 := SessionOf(st.calls, callId);
            var cd := SessionOf(n.state.calls, callId);
            var db0 := RecordCallData(st.db, callId, name, input);
            var cust := Lookup(st.db, Get(cd0, PhoneKey));
            && (!ValidWorkplaces(input) ==>
                  cd == cd0[name := Str(input)] && n.state.db == db0 && n.outcome == Respond(SystemErrorMenu()))
            && (ValidWorkplaces(input) ==> cd == cd0[name := Int(ParseInt(input).value)])
            && (ValidWorkplaces(input) && name == Spouse1Key ==>
                  n.state.db == db0 && n.outcome == Respond(SpouseWorkplacesPrompt(2)))
            && (ValidWorkplaces(input) && name == Spouse2Key ==>
                  && n.outcome == Respond(DetailsUpdatedMenu())
                  && (cust.Some? ==> n.state.db == UpdateDetails(db0, cust.value.id, CollectedDetails(cd)))
                  && (cust.None? ==> n.state.db == db0))
  {
    if name == Spouse2Key {
      assert name != Spouse1Key by { assert Spouse1Key[6] != Spouse2Key[6]; }
    }
  }
}
