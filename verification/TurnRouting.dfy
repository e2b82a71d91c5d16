/** Where each answer sends a turn, and what the kind of a finished response says about how it got there. */
module TurnRouting {
  import opened Wrappers
  import opened Seqs
  import opened Session
  import opened TurnGraph
  import opened MetricRegistry
  import opened Turns
  import opened TurnRuns

  // ------------------------------------------------------------------
  // One step, in terms of what its node was told
  // ------------------------------------------------------------------

  /** The way of a turn with this route. */
  ghost predicate GoesBy(route: string, next: Node) {
    && (route == "smalltalk" ==> next == SmalltalkAnswer)
    && (route == "glossary" ==> next == GlossaryAnswer)
    && (route == "answer_from_previous" ==> next == AnswerFromPrevious)
    && (route !in {"smalltalk", "glossary", "answer_from_previous"} ==> next == ResolveLookup)
  }

  /** A reply to a clarification is planned whatever the router says; any other turn goes by its route. */
  lemma AfterClassifyIntent(env: Env, c: Config, ch: Choice)
    requires c.Running() && c.node == ClassifyIntent && !ch.stop
    ensures var next := Step(env, c, ch);
            && (c.turn.followup ==> next.node == ResolveLookup && next.turn.route == Some("plan_sql"))
            && (!c.turn.followup ==> GoesBy(ch.route, next.node) && next.turn.route == Some(ch.route))
            && next.turn == c.turn.(route := next.turn.route)
  {
  }

  /** The previous answer is used, unless it takes a new plan. */
  lemma AfterAnswerFromPrevious(env: Env, c: Config, ch: Choice)
    requires c.Running() && c.node == AnswerFromPrevious && !ch.stop && c.turn.result.None?
    ensures var next := Step(env, c, ch);
            && (ch.replan ==> next.node == ResolveLookup && next.turn == c.turn.(route := Some("plan_sql")))
            && (!ch.replan ==> next.node == SaveTurn && next.turn == c.turn.(result := Some(Result(Analytics, None))))
  {
  }

  /** Money with no stand-in is refused; a resolver that fails, or asks, leads to a question; else planning. */
  lemma AfterResolveLookup(env: Env, c: Config, ch: Choice)
    requires c.Running() && c.node == ResolveLookup && !ch.stop && c.turn.reason.None?
    ensures var next := Step(env, c, ch).node;
            && (ch.requested.Some? && ch.substitute.None? ==> next == OutOfScopeAnswer)
            && (!(ch.requested.Some? && ch.substitute.None?) ==>
                  (ch.resolver.Raises? ==> next == ClarifyFromLookup)
                  && (ch.resolver.Resolves? && ch.resolver.clarify ==> next == ClarifyFromLookup)
                  && (ch.resolver.Resolves? && !ch.resolver.clarify ==> next == MakePlan))
  {
  }

  /** Where this plan and this word of the guard lead. */
  ghost predicate LedBy(p: Plan, guard: Option<string>, next: Node) {
    && (p.status.NeedsClarification? ==> next == ClarifyFromPlan)
    && (p.status.Unsupported? && p.cause.CustomerIdentity? ==> next == OutOfScopeAnswer)
    && (p.status.Unsupported? && !p.cause.CustomerIdentity? ==> next == UnsupportedFromPlan)
    && (p.status.Answerable? && !Truthy(p.sql) ==>
          next == if p.cause.CustomerIdentity? then OutOfScopeAnswer else UnsupportedFromPlan)
    && (p.status.Answerable? && Truthy(p.sql) ==>
          next == if p.period.Assumed? || Truthy(guard) then ClarifyFromPlan else ValidateSql)
  }

  lemma FromMakePlan(env: Env, t: TurnState, ch: Choice)
    ensures LedBy(ch.plan, ch.guard, Successor(env, Planned(t, ch), MakePlan))
  {
  }

  /** Only an answerable plan with SQL, a stated period or none, and no objection of the guard is validated. */
  lemma AfterMakePlan(env: Env, c: Config, ch: Choice)
    requires c.Running() && c.node == MakePlan && !ch.stop
    ensures LedBy(ch.plan, ch.guard, Step(env, c, ch).node) && Step(env, c, ch).turn == Planned(c.turn, ch)
  {
    FromMakePlan(env, c.turn, ch);
  }

  /** An accepted statement runs, as the validator rewrote it; a rejected one is planned again while retries last. */
  lemma AfterValidateSql(env: Env, c: Config, ch: Choice)
    requires c.Running() && c.node == ValidateSql && !ch.stop && c.turn.reason.None?
    requires (ch.verdict.Invalid? ==> ch.verdict.feedback != "") && (ch.shape.Some? ==> ch.shape.value != "")
    ensures var next := Step(env, c, ch);
            && (ch.verdict.Accepts? && ch.shape.None? ==>
                  next.node == ExecuteSql && next.turn.sql == Some(ch.verdict.normalized))
            && (ch.verdict.Accepts? && ch.shape.Some? ==> next.turn.validationError == ch.shape)
            && (ch.verdict.Invalid? ==>
                  next.turn.validationError == Some(ch.verdict.feedback)
                  && next.turn.sql == if ch.verdict.normalized == "" then c.turn.sql else Some(ch.verdict.normalized))
            && next.turn == c.turn.(sql := next.turn.sql, validationError := next.turn.validationError)
            && (ch.verdict.Invalid? || ch.shape.Some? ==>
                  next.node == if c.turn.retryCount < env.maxRetries then RetrySql else ExecuteError)
  {
  }

  /** A statement that gave an error with a message is planned again while retries last. */
  lemma AfterExecuteSql(env: Env, c: Config, ch: Choice)
    requires c.Running() && c.node == ExecuteSql && !ch.stop
    ensures var next, answer := Step(env, c, ch), RunResult(env.settings, c.db, ch.run);
            && next.turn.rows == Some(answer)
            && (answer.error.None? || answer.error.value == "" ==> next.node == AnalyzeResult)
            && (answer.error.Some? && answer.error.value != "" ==>
                  next.node == if c.turn.retryCount < env.maxRetries then RetrySql else ExecuteError)
  {
    var answer := RunResult(env.settings, c.db, ch.run);
    ErrorSeen(c.turn, answer);
    FromExecuteSql(env, Executed(c.turn, answer));
  }

  lemma ErrorSeen(t: TurnState, answer: Payload)
    ensures var next := Executed(t, answer);
            && next.rows == Some(answer) && next.retryCount == t.retryCount
            && (Truthy(next.executionError) <==> answer.error.Some? && answer.error.value != "")
  {
  }

  lemma FromExecuteSql(env: Env, t: TurnState)
    ensures Successor(env, t, ExecuteSql) ==
            if !Truthy(t.executionError) then AnalyzeResult
            else if t.retryCount < env.maxRetries then RetrySql else ExecuteError
  {
  }

  /** The last k messages, or all of them. */
  function LastOnes(messages: seq<Message>, k: nat): seq<Message> {
    if |messages| <= k then messages else messages[|messages| - k..]
  }

  /** The query is replaced, and the user's own kept; of the last messages some at the end may be dropped. */
  ghost predicate ContextLoaded(env: Env, t: TurnState, ch: Choice, next: TurnState) {
    && next == t.(query := ch.effective, originalQuery := Some(t.query), followup := ch.followup,
                  previous := ch.previous, lookupPlan := ch.carriedPlan, history := next.history)
    && (env.historyLimit > 0 ==> next.history <= LastOnes(t.history, env.historyLimit))
    && (env.historyLimit > 0 && ch.keep >= env.historyLimit ==> next.history == LastOnes(t.history, env.historyLimit))
    && (env.historyLimit == 0 && ch.keep >= |t.history| ==> next.history == t.history)
  }

  lemma LoadsContext(env: Env, t: TurnState, ch: Choice)
    ensures ContextLoaded(env, t, ch, LoadedContext(env, t, ch))
  {
  }

  lemma AfterLoadContext(env: Env, c: Config, ch: Choice)
    requires c.Running() && c.node == LoadContext && !ch.stop
    ensures ContextLoaded(env, c.turn, ch, Step(env, c, ch).turn)
  {
    LoadsContext(env, c.turn, ch);
    assert Step(env, c, ch).turn == LoadedContext(env, c.turn, ch);
  }

  /** A term the glossary has no match for is asked about. */
  lemma AfterGlossaryAnswer(env: Env, c: Config, ch: Choice)
    requires c.Running() && c.node == GlossaryAnswer && !ch.stop
    ensures Step(env, c, ch).turn ==
            c.turn.(result := Some(Result(if ch.glossaryMatched then Glossary else Clarify, None)))
  {
  }

  /** The messages this turn adds: the user's own words, if any, and the answer. */
  predicate Adds(t: TurnState, result: Option<Result>, added: seq<Message>) {
    var asked := if t.originalQuery.Some? && t.originalQuery.value != "" then t.originalQuery.value else t.query;
    added == if asked == "" then [Assistant(result)] else [User(asked), Assistant(result)]
  }

  /** Of the history with this turn's messages the last are kept: 12 by default, and never fewer than two. */
  predicate HistoryKept(limit: int, t: TurnState, added: seq<Message>, next: TurnState) {
    && Adds(t, next.result, added) && next == t.(history := next.history, result := next.result)
    && next.history == LastOnes(t.history + added, if limit == 0 then 12 else if limit < 2 then 2 else limit)
  }

  lemma SavesHistory(env: Env, t: TurnState) returns (added: seq<Message>)
    requires t.result.Some?
    ensures HistoryKept(env.historyLimit, t, added, Saved(env, t))
  {
    added := TurnMessages(env, t, WithPolicies(t));
  }

  lemma AfterSaveTurnKeeps(env: Env, c: Config, ch: Choice) returns (added: seq<Message>)
    requires c.Running() && c.node == SaveTurn && !ch.stop && c.turn.result.Some?
    ensures HistoryKept(env.historyLimit, c.turn, added, Step(env, c, ch).turn)
  {
    added := SavesHistory(env, c.turn);
    AfterSaveTurn(env, c, ch);
  }

  /** Every other node has one way on. */
  lemma AfterOthers(env: Env, c: Config, ch: Choice)
    requires c.Running() && !ch.stop
    ensures var next := Step(env, c, ch).node;
            && (c.node == ResetTurnState ==> next == LoadContext)
            && (c.node == LoadContext ==> next == ClassifyIntent)
            && (c.node == RetrySql ==> next == MakePlan)
            && (c.node == AnalyzeResult ==> next == Synthesize)
            && (Answering(c.node) ==> next == SaveTurn)
            && (c.node == SaveTurn ==> next == End)
  {
  }

  // ------------------------------------------------------------------
  // Why a response is of its kind
  // ------------------------------------------------------------------

  /** The route led past the router's three short ways. */
  predicate RoutedToLookup(t: TurnState) {
    t.route.Some? && t.route.value !in {"smalltalk", "glossary", "answer_from_previous"}
  }

  /** What a kind of response says of its turn. */
  ghost predicate Explains(env: Env, c: Config, kind: Kind) {
    var t := c.turn;
    match kind
    case Smalltalk => t.route == Some("smalltalk")
    case Glossary => t.route == Some("glossary")
    case Analytics =>
      if c.calls == [] then t.route == Some("answer_from_previous")
      else RoutedToLookup(t) && t.rows == c.calls[|c.calls| - 1].answer && t.rows.Some? && !Truthy(t.rows.value.error)
    case Clarify =>
      t.route == Some("glossary") || (RoutedToLookup(t) && (t.lookupClarify || t.status == Some(NeedsClarification)))
    case OutOfScope =>
      && RoutedToLookup(t) && t.code.Some?
      && (t.code.value == "role_money_withheld" ==> env.level != "HOD" && t.status == None)
      && (t.code.value != "role_money_withheld" ==>
            t.code.value == "customer_identity" && t.status == Some(Unsupported) && t.cause.CustomerIdentity?)
    case UnsupportedAnswer => RoutedToLookup(t) && t.status == Some(Unsupported) && t.cause.NotAnswerable?
    case ErrorAnswer =>
      RoutedToLookup(t) && t.retryCount >= env.maxRetries && (Truthy(t.validationError) || Truthy(t.executionError))
  }

  predicate PastRouting(n: Node) {
    n in {ResolveLookup, ClarifyFromLookup, OutOfScopeAnswer, MakePlan, UnsupportedFromPlan, ClarifyFromPlan,
          ValidateSql, ExecuteSql, AnalyzeResult, RetrySql, ExecuteError, Synthesize}
  }

  ghost predicate OnTheWay(env: Env, c: Config) {
    var t := c.turn;
    && (c.node == SmalltalkAnswer ==> t.route == Some("smalltalk"))
    && (c.node == GlossaryAnswer ==> t.route == Some("glossary"))
    && (c.node == AnswerFromPrevious ==> t.route == Some("answer_from_previous"))
    && (PastRouting(c.node) ==> RoutedToLookup(t))
    && (c.node == ClarifyFromLookup ==> t.lookupClarify)
    && (c.node == OutOfScopeAnswer ==> Explains(env, c, OutOfScope))
    && (c.node == UnsupportedFromPlan ==> Explains(env, c, UnsupportedAnswer))
    && (c.node == ClarifyFromPlan ==> t.status == Some(NeedsClarification))
    && (c.node == ExecuteError ==> Explains(env, c, ErrorAnswer))
    && (c.node in {SaveTurn, End} && t.result.Some? ==> Explains(env, c, t.result.value.kind))
    && (Early(c.node) ==> c.calls == [] && (c.node != ResetTurnState ==> t.status == None))
  }

  /** A reply to a clarification has been through the resolver by the time it is past the router. */
  predicate FollowUpOk(c: Config) {
    c.turn.followup && c.node !in {ResetTurnState, LoadContext, ClassifyIntent} ==>
      c.turn.route == Some("plan_sql") && c.node !in {AnswerFromPrevious, GlossaryAnswer, SmalltalkAnswer}
  }

  ghost predicate Kept(env: Env, c: Config) { OnTheWay(env, c) && FollowUpOk(c) }

  lemma KeptAtFirst(env: Env, c: Config, ch: Choice)
    requires c.Running() && !ch.stop && SavesOk(c) && Kept(env, c) && c.node in {ResetTurnState, LoadContext}
    ensures Kept(env, Step(env, c, ch))
  {
    AfterOthers(env, c, ch);
  }

  lemma KeptByRouting(env: Env, c: Config, ch: Choice)
    requires c.Running() && !ch.stop && SavesOk(c) && Kept(env, c) && c.node in {ClassifyIntent, AnswerFromPrevious}
    ensures Kept(env, Step(env, c, ch))
  {
    if c.node == ClassifyIntent {
      AfterClassifyIntent(env, c, ch);
    } else {
      AfterAnswerFromPrevious(env, c, ch);
    }
  }

  lemma LookupKeeps(t: TurnState, ch: Choice)
    ensures var next := ResolvedLookup(t, ch);
            && next.route == t.route && next.followup == t.followup && next.status == t.status
            && next.result == t.result
            && (!(ch.requested.Some? && ch.substitute.None?) && (ch.resolver.Raises? || ch.resolver.clarify) ==>
                  next.lookupClarify)
            && (ch.requested.Some? && ch.substitute.None? ==> next.code == Some("role_money_withheld"))
  {
  }

  lemma MoneyForHod(env: Env, c: Config, ch: Choice)
    requires c.node == ResolveLookup && !ch.stop && Faithful(env, c, ch) && env.level == "HOD"
    ensures ch.requested.None?
  {
  }

  lemma LookupStep(env: Env, c: Config, ch: Choice)
    requires c.Running() && !ch.stop && c.node == ResolveLookup
    ensures Step(env, c, ch).turn == ResolvedLookup(c.turn, ch) && Step(env, c, ch).calls == c.calls
  {
  }

  lemma KeptAfterLookup(env: Env, c: Config, next: Config, ch: Choice)
    requires c.node == ResolveLookup && Kept(env, c) && SavesOk(c)
    requires next.turn == ResolvedLookup(c.turn, ch) && next.calls == c.calls
    requires next.node in {OutOfScopeAnswer, ClarifyFromLookup, MakePlan}
    requires next.node == OutOfScopeAnswer ==> ch.requested.Some? && ch.substitute.None? && env.level != "HOD"
    requires next.node == ClarifyFromLookup ==> !(ch.requested.Some? && ch.substitute.None?)
                                                && (ch.resolver.Raises? || ch.resolver.clarify)
    ensures Kept(env, next)
  {
    LookupKeeps(c.turn, ch);
  }

  lemma KeptByLookup(env: Env, c: Config, ch: Choice)
    requires c.Running() && !ch.stop && SavesOk(c) && Kept(env, c) && RefusalsOk(env, c) && Faithful(env, c, ch)
    requires c.node == ResolveLookup
    ensures Kept(env, Step(env, c, ch))
  {
    AfterResolveLookup(env, c, ch);
    LookupStep(env, c, ch);
    if env.level == "HOD" { MoneyForHod(env, c, ch); }
    KeptAfterLookup(env, c, Step(env, c, ch), ch);
  }

  lemma KeptByPlan(env: Env, c: Config, ch: Choice)
    requires c.Running() && !ch.stop && SavesOk(c) && Kept(env, c) && c.node == MakePlan
    ensures Kept(env, Step(env, c, ch))
  {
    AfterMakePlan(env, c, ch);
  }

  lemma KeptByValidation(env: Env, c: Config, ch: Choice)
    requires c.Running() && !ch.stop && SavesOk(c) && Kept(env, c) && RefusalsOk(env, c) && Faithful(env, c, ch)
    requires c.node == ValidateSql
    ensures Kept(env, Step(env, c, ch))
  {
    AfterValidateSql(env, c, ch);
  }

  lemma KeptByExecution(env: Env, c: Config, ch: Choice)
    requires c.Running() && !ch.stop && SavesOk(c) && Kept(env, c) && c.node == ExecuteSql
    ensures Kept(env, Step(env, c, ch))
  {
    var answer := RunResult(env.settings, c.db, ch.run);
    ErrorSeen(c.turn, answer);
    FromExecuteSql(env, Executed(c.turn, answer));
    SameRoute(c.turn, answer);
  }

  lemma SameRoute(t: TurnState, answer: Payload)
    ensures var next := Executed(t, answer);
            next.route == t.route && next.followup == t.followup && next.result == t.result
  {
  }

  lemma KeptByAnswering(env: Env, c: Config, ch: Choice)
    requires c.Running() && !ch.stop && SavesOk(c) && RowsOk(c) && Kept(env, c) && Answering(c.node)
    ensures Kept(env, Step(env, c, ch))
  {
    AfterOthers(env, c, ch);
  }

  lemma SavingKeeps(env: Env, t: TurnState)
    requires t.result.Some?
    ensures var next := Saved(env, t);
            && next.result.Some? && next.result.value.kind == t.result.value.kind
            && next == t.(history := next.history, result := next.result)
  {
  }

  lemma AfterSaveTurn(env: Env, c: Config, ch: Choice)
    requires c.Running() && !ch.stop && c.node == SaveTurn
    ensures var next := Step(env, c, ch); next.node == End && next.turn == Saved(env, c.turn) && next.calls == c.calls
  {
  }

  lemma KeptAtEnd(env: Env, c: Config, next: Config)
    requires Kept(env, c) && c.node == SaveTurn && next.node == End && next.calls == c.calls
    requires c.turn.result.Some? && next.turn.result.Some? && next.turn.result.value.kind == c.turn.result.value.kind
    requires next.turn == c.turn.(history := next.turn.history, result := next.turn.result)
    ensures Kept(env, next)
  {
  }

  lemma KeptBySave(env: Env, c: Config, ch: Choice)
    requires c.Running() && !ch.stop && SavesOk(c) && Kept(env, c) && c.node == SaveTurn
    ensures Kept(env, Step(env, c, ch))
  {
    AfterSaveTurn(env, c, ch);
    SavingKeeps(env, c.turn);
    KeptAtEnd(env, c, Step(env, c, ch));
  }

  lemma KeptByOthers(env: Env, c: Config, ch: Choice)
    requires c.Running() && !ch.stop && SavesOk(c) && RowsOk(c) && Kept(env, c)
    requires c.node in {AnalyzeResult, RetrySql}
    ensures Kept(env, Step(env, c, ch))
  {
    AfterOthers(env, c, ch);
  }

  lemma KeptByStop(env: Env, c: Config, ch: Choice)
    requires c.Running() && ch.stop && Kept(env, c)
    ensures Kept(env, Step(env, c, ch))
  {
  }

  lemma KeptByMiddle(env: Env, c: Config, ch: Choice)
    requires c.Running() && !ch.stop && SavesOk(c) && Kept(env, c) && RefusalsOk(env, c) && Faithful(env, c, ch)
    requires c.node in {MakePlan, ValidateSql, ExecuteSql}
    ensures Kept(env, Step(env, c, ch))
  {
    if c.node == MakePlan { KeptByPlan(env, c, ch); }
    else if c.node == ValidateSql { KeptByValidation(env, c, ch); }
    else { KeptByExecution(env, c, ch); }
  }

  lemma OnTheWayStep(env: Env, c: Config, ch: Choice)
    requires c.Running() && c.node != Start && Faithful(env, c, ch) && Kept(env, c)
    requires SavesOk(c) && RowsOk(c) && RefusalsOk(env, c)
    ensures Kept(env, Step(env, c, ch))
  {
    if ch.stop { KeptByStop(env, c, ch); }
    else if c.node in {ResetTurnState, LoadContext} { KeptAtFirst(env, c, ch); }
    else if c.node in {ClassifyIntent, AnswerFromPrevious} { KeptByRouting(env, c, ch); }
    else if c.node == ResolveLookup { KeptByLookup(env, c, ch); }
    else if c.node in {MakePlan, ValidateSql, ExecuteSql} { KeptByMiddle(env, c, ch); }
    else if Answering(c.node) { KeptByAnswering(env, c, ch); }
    else if c.node == SaveTurn { KeptBySave(env, c, ch); }
    else { KeptByOthers(env, c, ch); }
  }

  lemma {:induction false} OnTheWayAlways(env: Env, start: Config, choices: seq<Choice>, c: Config)
    requires Begins(env, start) && Runs(env, start, choices, c)
    ensures Kept(env, c)
  {
    if choices != [] {
      var n := |choices| - 1;
      var b :| Runs(env, start, choices[..n], b) && Moves(env, b, choices[n], c);
      OnTheWayAlways(env, start, choices[..n], b);
      InvAlways(env, start, choices[..n], b);
      OnTheWayStep(env, b, choices[n]);
    }
  }

  /** The policy codes of a finished response, by the level of its caller. */
  lemma NoticesByLevel(env: Env, start: Config, choices: seq<Choice>, c: Config)
    requires Begins(env, start) && Runs(env, start, choices, c) && c.node == End
    ensures c.turn.result.Some? && c.turn.result.value.policies.Some?
    ensures env.level == "HOD" ==>
              forall p :: p in c.turn.result.value.policies.value ==> p.code != "role_money_withheld"
    ensures c.turn.result.value.kind == OutOfScope ==>
              var ps := c.turn.result.value.policies.value;
              ps != [] && ps[0].effect == Denied && ps[0].code in {"customer_identity", "role_money_withheld"}
    ensures forall p :: p in c.turn.applied ==> p == Policy("role_money_withheld", Substituted)
  {
    InvAlways(env, start, choices, c);
  }

  /** The kind of every finished response says how its turn went. */
  lemma KindIsExplained(env: Env, start: Config, choices: seq<Choice>, c: Config)
    requires Begins(env, start) && Runs(env, start, choices, c) && c.node == End
    ensures c.turn.result.Some? && Explains(env, c, c.turn.result.value.kind)
    ensures c.turn.result.value.kind == Smalltalk <==> c.turn.route == Some("smalltalk")
    ensures c.turn.followup ==> c.turn.result.value.kind !in {Smalltalk, Glossary}
  {
    InvAlways(env, start, choices, c);
    OnTheWayAlways(env, start, choices, c);
  }

  // ------------------------------------------------------------------
  // Replies to a clarification
  // ------------------------------------------------------------------

  /** Some configuration on the way was at this node. */
  ghost predicate Visits(env: Env, start: Config, choices: seq<Choice>, n: Node) {
    exists k, b :: 0 <= k <= |choices| && Runs(env, start, choices[..k], b) && b.node == n
  }

  lemma VisitsStay(env: Env, start: Config, choices: seq<Choice>, m: nat, n: Node)
    requires m <= |choices| && Visits(env, start, choices[..m], n)
    ensures Visits(env, start, choices, n)
  {
    var k, b :| 0 <= k <= m && Runs(env, start, choices[..m][..k], b) && b.node == n;
    assert choices[..m][..k] == choices[..k];
  }

  lemma IsVisited(env: Env, start: Config, choices: seq<Choice>, c: Config)
    requires Runs(env, start, choices, c)
    ensures Visits(env, start, choices, c.node)
  {
    assert choices[..|choices|] == choices;
  }

  /** From the nodes before the resolver a follow-up moves towards it only. */
  lemma FollowUpMoves(env: Env, b: Config, ch: Choice)
    requires b.Running() && b.node in {ResetTurnState, LoadContext, ClassifyIntent} && FollowUpOk(b)
    ensures var c := Step(env, b, ch);
            c.turn.followup ==> c.node in {ResetTurnState, LoadContext, ClassifyIntent, ResolveLookup}
  {
  }

  /** A reply to a clarification is never answered without going through the resolver. */
  lemma {:induction false} FollowUpsAreResolved(env: Env, start: Config, choices: seq<Choice>, c: Config)
    requires Begins(env, start) && Runs(env, start, choices, c) && c.turn.followup
    ensures c.node in {ResetTurnState, LoadContext, ClassifyIntent} || Visits(env, start, choices, ResolveLookup)
  {
    if choices != [] {
      var n := |choices| - 1;
      var b :| Runs(env, start, choices[..n], b) && Moves(env, b, choices[n], c);
      OnTheWayAlways(env, start, choices[..n], b);
      InvAlways(env, start, choices[..n], b);
      if b.node in {ResetTurnState, LoadContext, ClassifyIntent} {
        FollowUpMoves(env, b, choices[n]);
        IsVisited(env, start, choices, c);
      } else {
        FollowUpStays(env, b, choices[n]);
        FollowUpsAreResolved(env, start, choices[..n], b);
        VisitsStay(env, start, choices, n, ResolveLookup);
      }
    }
  }

  lemma FollowUpInTurn(env: Env, b: Config, ch: Choice)
    requires b.node !in {Start, ResetTurnState, LoadContext, MakePlan, ExecuteSql, SaveTurn}
    ensures TurnAfter(env, b, ch).followup == b.turn.followup
  {
  }

  lemma FollowUpInPlan(t: TurnState, ch: Choice)
    ensures Planned(t, ch).followup == t.followup
  {
  }

  lemma FollowUpStays(env: Env, b: Config, ch: Choice)
    requires b.Running() && b.node !in {Start, ResetTurnState, LoadContext}
    ensures Step(env, b, ch).turn.followup == b.turn.followup
  {
    if b.node == ExecuteSql {
      SameRoute(b.turn, RunResult(env.settings, b.db, ch.run));
    } else if b.node == MakePlan {
      FollowUpInPlan(b.turn, ch);
    } else if b.node != SaveTurn {
      FollowUpInTurn(env, b, ch);
    }
  }
}
