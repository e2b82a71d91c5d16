/** Every run of the turn graph: that it ends, what it may run, under which role, and what it tells the caller. */
module TurnRuns {
  import opened Wrappers
  import opened Seqs
  import opened Session
  import opened TurnGraph
  import opened MetricRegistry
  import opened Turns

  // ------------------------------------------------------------------
  // Runs
  // ------------------------------------------------------------------

  /** A request as it enters the graph: any checkpointed turn, inside the caller's scope. */
  predicate Begins(env: Env, c: Config) {
    && c.node == ResetTurnState && !c.stopped && !c.rolledBack
    && c.plans == 0 && c.accepted == None && c.calls == [] && c.saves == []
    && ScopeHeld(env.settings, c.db, env.level)
  }

  ghost predicate Runs(env: Env, start: Config, choices: seq<Choice>, c: Config) {
    if choices == [] then c == start
    else
      var init, last := choices[..|choices| - 1], choices[|choices| - 1];
      exists b :: Runs(env, start, init, b) && Moves(env, b, last, c)
  }

  ghost predicate Moves(env: Env, b: Config, ch: Choice, c: Config) {
    b.Running() && Faithful(env, b, ch) && c == Step(env, b, ch)
  }

  lemma ExtendRun(env: Env, start: Config, choices: seq<Choice>, b: Config, ch: Choice, c: Config)
    requires Runs(env, start, choices, b) && Moves(env, b, ch, c)
    ensures Runs(env, start, choices + [ch], c)
  {
    var all := choices + [ch];
    assert all[..|all| - 1] == choices && all[|all| - 1] == ch;
  }

  // ------------------------------------------------------------------
  // Termination
  // ------------------------------------------------------------------

  function RetriesLeft(env: Env, t: TurnState): nat {
    if t.retryCount < env.maxRetries then env.maxRetries - t.retryCount else 0
  }

  /** The most steps a run can still take. */
  function Rank(env: Env, c: Config): nat {
    if c.stopped then 0
    else Height(c.node) + 4 * if c.node == ResetTurnState then env.Retries() else RetriesLeft(env, c.turn)
  }

  predicate RetryHasRoom(env: Env, c: Config) { c.node == RetrySql ==> c.turn.retryCount < env.maxRetries }

  lemma RetryCountAfter(env: Env, c: Config, ch: Choice)
    ensures TurnAfter(env, c, ch).retryCount ==
            if c.node == ResetTurnState then 0 else c.turn.retryCount + if c.node == RetrySql then 1 else 0
  {
  }

  /** Each move goes down, but for the retry; and only a failed check or statement with room leads to it. */
  lemma MoveGoesDown(env: Env, t: TurnState, n: Node)
    requires n != End
    ensures Height(Successor(env, t, n)) < Height(n) <==> n != RetrySql
    ensures n == RetrySql ==> Successor(env, t, n) == MakePlan
    ensures Successor(env, t, n) == RetrySql ==> t.retryCount < env.maxRetries && n in {ValidateSql, ExecuteSql}
    ensures Successor(env, t, n) !in {Start, ResetTurnState} || n == Start
  {
    RoutersStayOnTheGraph(env, t, n);
    assert Leads(n, Successor(env, t, n));
    RetryIsTheOnlyWayUp(n, Successor(env, t, n));
  }

  lemma StepLowersRank(env: Env, c: Config, ch: Choice)
    requires c.Running() && c.node != Start && RetryHasRoom(env, c)
    ensures Rank(env, Step(env, c, ch)) < Rank(env, c)
    ensures RetryHasRoom(env, Step(env, c, ch)) && (Step(env, c, ch).node != Start)
  {
    RetryCountAfter(env, c, ch);
    MoveGoesDown(env, TurnAfter(env, c, ch), c.node);
  }

  /** However the models, the resolver and the database answer, a run takes at most 11 + 4 * retries steps. */
  lemma {:induction false} EveryRunEnds(env: Env, start: Config, choices: seq<Choice>, c: Config)
    requires Begins(env, start) && Runs(env, start, choices, c)
    ensures |choices| + Rank(env, c) <= 11 + 4 * env.Retries()
    ensures RetryHasRoom(env, c) && c.node != Start
  {
    if choices != [] {
      var n := |choices| - 1;
      var b :| Runs(env, start, choices[..n], b) && Moves(env, b, choices[n], c);
      EveryRunEnds(env, start, choices[..n], b);
      StepLowersRank(env, b, choices[n]);
    }
  }

  // ------------------------------------------------------------------
  // Bounds on plans and statements, and one save
  // ------------------------------------------------------------------

  predicate Early(n: Node) { n in {ResetTurnState, LoadContext, ClassifyIntent, AnswerFromPrevious, ResolveLookup} }

  predicate CountsOk(env: Env, c: Config) {
    && |c.calls| <= c.plans
    && (Early(c.node) ==> c.plans == 0 && (c.node != ResetTurnState ==> c.turn.retryCount == 0))
    && (!Early(c.node) ==> 0 <= c.turn.retryCount <= env.Retries() && c.plans <= c.turn.retryCount + 1)
    && (c.node == MakePlan ==> c.plans == c.turn.retryCount)
    && (c.node in {ValidateSql, ExecuteSql, RetrySql} ==> c.plans == c.turn.retryCount + 1)
    && (c.node in {ValidateSql, ExecuteSql} ==> |c.calls| < c.plans || c.stopped)
    && RetryHasRoom(env, c)
  }

  lemma MoveStaysInPhase(env: Env, t: TurnState, n: Node)
    requires n != End && n != Start
    ensures Early(Successor(env, t, n)) ==> Early(n)
    ensures Successor(env, t, n) == MakePlan ==> n in {ResolveLookup, RetrySql}
    ensures Successor(env, t, n) == ValidateSql ==> n == MakePlan
    ensures Successor(env, t, n) == ExecuteSql ==> n == ValidateSql
    ensures n in {LoadContext, ResetTurnState} ==> Early(Successor(env, t, n))
  {
  }

  lemma CountsStep(env: Env, c: Config, ch: Choice)
    requires c.Running() && c.node != Start && CountsOk(env, c)
    ensures CountsOk(env, Step(env, c, ch)) && Step(env, c, ch).node != Start
  {
    RetryCountAfter(env, c, ch);
    MoveGoesDown(env, TurnAfter(env, c, ch), c.node);
    MoveStaysInPhase(env, TurnAfter(env, c, ch), c.node);
  }

  predicate SavesOk(c: Config) {
    && (c.node != End ==> c.saves == [])
    && (c.node == End ==> c.saves == [c.turn.result])
    && (c.node in {SaveTurn, End} ==> c.turn.result.Some?)
    && (c.node !in {SaveTurn, End, ResetTurnState} ==> c.turn.result.None?)
  }

  /** What a node leaves as the result. */
  lemma ResultAfter(env: Env, c: Config, ch: Choice)
    requires c.node != Start && c.node != ResetTurnState
    ensures TurnAfter(env, c, ch).result ==
            if c.node == SaveTurn then WithPolicies(c.turn)
            else if Terminal(c.node, c.turn, ch).Some? then Terminal(c.node, c.turn, ch)
            else if c.node == AnswerFromPrevious && !ch.replan then Some(Result(Analytics, None))
            else c.turn.result
  {
  }

  lemma OnlySaveTurnMovesToEnd(env: Env, t: TurnState, n: Node)
    requires n != End && n != Start
    ensures Successor(env, t, n) == End <==> n == SaveTurn
    ensures Successor(env, t, n) == SaveTurn ==> n != ResetTurnState
  {
  }

  predicate Answering(n: Node) {
    n in {GlossaryAnswer, SmalltalkAnswer, ClarifyFromLookup, OutOfScopeAnswer, UnsupportedFromPlan,
          ClarifyFromPlan, ExecuteError, Synthesize}
  }

  /** A turn is ready to save once a terminal, or an answer from the previous turn, gave a result. */
  lemma MovesToSave(env: Env, t: TurnState, n: Node)
    requires n != End && n != Start
    ensures Successor(env, t, n) == SaveTurn ==>
              Answering(n) || (n == AnswerFromPrevious && !(t.route == Some("plan_sql") && t.result.None?))
    ensures Answering(n) ==> Successor(env, t, n) == SaveTurn
    ensures n == AnswerFromPrevious && t.result.Some? ==> Successor(env, t, n) == SaveTurn
  {
  }

  lemma SavesStep(env: Env, c: Config, ch: Choice)
    requires c.Running() && c.node != Start && SavesOk(c)
    ensures SavesOk(Step(env, c, ch))
  {
    if !ch.stop && c.node != ResetTurnState {
      var t := TurnAfter(env, c, ch);
      ResultAfter(env, c, ch);
      OnlySaveTurnMovesToEnd(env, t, c.node);
      MovesToSave(env, t, c.node);
      if c.node == AnswerFromPrevious && ch.replan {
        assert t.route == Some("plan_sql");
      }
    }
  }

  // ------------------------------------------------------------------
  // Only accepted text runs, and only under the caller's role
  // ------------------------------------------------------------------

  predicate CallsOk(env: Env, c: Config) {
    && (c.node == ExecuteSql && !c.stopped ==> c.accepted.Some? && c.turn.sql == c.accepted)
    && forall i :: 0 <= i < |c.calls| ==>
         && c.calls[i].sql.Some? && c.calls[i].accepted == c.calls[i].sql
         && c.calls[i].role == ScopeRole(env.settings, env.level) && c.calls[i].level == env.level
  }

  /** The scope holds until the resolver's rollback, after which only a clarification is left. */
  predicate ScopeOk(env: Env, c: Config) {
    if c.rolledBack then c.node in {ClarifyFromLookup, SaveTurn, End} && c.plans == 0 && c.calls == []
    else ScopeHeld(env.settings, c.db, env.level)
  }

  lemma ScopeStep(env: Env, c: Config, ch: Choice)
    requires c.Running() && c.node != Start && ScopeOk(env, c) && CountsOk(env, c) && RefusalsOk(env, c)
    ensures ScopeOk(env, Step(env, c, ch))
  {
  }

  lemma CallsStep(env: Env, c: Config, ch: Choice)
    requires c.Running() && c.node != Start && CallsOk(env, c) && ScopeOk(env, c) && RefusalsOk(env, c)
             && Faithful(env, c, ch)
    ensures CallsOk(env, Step(env, c, ch))
  {
    if !ch.stop {
      var t := TurnAfter(env, c, ch);
      MoveStaysInPhase(env, t, c.node);
      if c.node == ValidateSql { ValidationAccepts(env, c, ch); }
    }
  }

  lemma ValidationAccepts(env: Env, c: Config, ch: Choice)
    requires c.node == ValidateSql && RefusalsOk(env, c) && Faithful(env, c, ch)
    ensures var t := Validated(c.turn, ch);
            Successor(env, t, ValidateSql) == ExecuteSql ==>
              ch.verdict.Accepts? && ch.shape.None? && t.sql == Some(ch.verdict.normalized)
  {
  }

  // ------------------------------------------------------------------
  // Notices
  // ------------------------------------------------------------------

  /** Nothing but a substitution is recorded on the way, and that never for an HOD. */
  predicate AppliedOk(env: Env, applied: seq<Policy>) {
    && (forall p :: p in applied ==> p == Policy(MONEY_CODE, Substituted))
    && (env.SeesMoney() ==> applied == [])
  }

  /** What a finished response may say. */
  predicate ResponseOk(env: Env, r: Result) {
    && (r.kind == UnsupportedAnswer ==> r.policies == Some([]))
    && (r.kind == OutOfScope ==> r.policies.Some? && r.policies.value != []
                                 && r.policies.value[0].effect == Denied
                                 && r.policies.value[0].code in {IDENTITY_CODE, MONEY_CODE})
    && (env.SeesMoney() && r.policies.Some? ==> forall p :: p in r.policies.value ==> p.code != MONEY_CODE)
  }

  /** The nodes a refusal cannot have been decided before. */
  predicate Undecided(n: Node) {
    n in {LoadContext, ClassifyIntent, AnswerFromPrevious, ResolveLookup, MakePlan, ValidateSql, ExecuteSql, RetrySql}
  }

  predicate RefusalsOk(env: Env, c: Config) {
    && (Undecided(c.node) ==> c.turn.code.None? && c.turn.reason.None?)
    && (c.node == OutOfScopeAnswer ==>
          c.turn.code == Some(IDENTITY_CODE) || (c.turn.code == Some(MONEY_CODE) && !env.SeesMoney()))
    && (c.node == UnsupportedFromPlan ==> c.turn.cause == NotAnswerable)
  }

  /** Every notice recorded on the way is in the response, unless it is a refusal to plan. */
  predicate Carries(r: Result, applied: seq<Policy>) {
    r.kind != UnsupportedAnswer && r.policies.Some? ==> forall p :: p in applied ==> p in r.policies.value
  }

  predicate NoticesOk(env: Env, c: Config) {
    && (c.node != ResetTurnState ==> AppliedOk(env, c.turn.applied))
    && (c.node in {SaveTurn, End} && c.turn.result.Some? ==>
          ResponseOk(env, c.turn.result.value) && Carries(c.turn.result.value, c.turn.applied))
    && (c.node == End && c.turn.result.Some? ==> c.turn.result.value.policies.Some?)
  }

  lemma RefusalInExecution(t: TurnState, payload: Payload)
    ensures Executed(t, payload).code == t.code && Executed(t, payload).reason == t.reason
  {
  }

  lemma RefusalElsewhere(env: Env, c: Config, ch: Choice)
    requires c.node !in {Start, ResetTurnState, ResolveLookup, MakePlan, ExecuteSql}
    ensures TurnAfter(env, c, ch).code == c.turn.code && TurnAfter(env, c, ch).reason == c.turn.reason
  {
  }

  lemma RefusalFieldsAfter(env: Env, c: Config, ch: Choice)
    requires c.node !in {Start, ResetTurnState, ResolveLookup, MakePlan}
    ensures TurnAfter(env, c, ch).code == c.turn.code && TurnAfter(env, c, ch).reason == c.turn.reason
  {
    if c.node == ExecuteSql {
      RefusalInExecution(c.turn, RunResult(env.settings, c.db, ch.run));
    } else {
      RefusalElsewhere(env, c, ch);
    }
  }

  /** Which moves lead to a refusal, and which leave it open. */
  lemma MovesToRefusal(env: Env, t: TurnState, n: Node)
    requires n != End && n != Start
    ensures Successor(env, t, n) == OutOfScopeAnswer ==>
              n in {ResolveLookup, MakePlan} || (n == ValidateSql && Truthy(t.reason))
    ensures Successor(env, t, n) == UnsupportedFromPlan ==> n == MakePlan
    ensures Undecided(Successor(env, t, n)) ==> n == ResetTurnState || Undecided(n)
  {
  }

  lemma RefusalsAtLookup(env: Env, c: Config, ch: Choice)
    requires c.node == ResolveLookup && RefusalsOk(env, c) && Faithful(env, c, ch) && !ch.stop
    ensures var t := ResolvedLookup(c.turn, ch);
            RefusalsOk(env, c.(node := Successor(env, t, ResolveLookup), turn := t))
  {
  }

  lemma RefusalsAtPlan(env: Env, c: Config, ch: Choice)
    requires c.node == MakePlan && RefusalsOk(env, c)
    ensures var t := Planned(c.turn, ch);
            RefusalsOk(env, c.(node := Successor(env, t, MakePlan), turn := t))
  {
  }

  lemma RefusalsStep(env: Env, c: Config, ch: Choice)
    requires c.Running() && c.node != Start && RefusalsOk(env, c) && Faithful(env, c, ch)
    ensures RefusalsOk(env, Step(env, c, ch))
  {
    if ch.stop {
    } else if c.node == ResolveLookup {
      RefusalsAtLookup(env, c, ch);
    } else if c.node == MakePlan {
      RefusalsAtPlan(env, c, ch);
    } else if c.node != ResetTurnState {
      RefusalFieldsAfter(env, c, ch);
      MovesToRefusal(env, TurnAfter(env, c, ch), c.node);
    }
  }

  lemma AppliedStep(env: Env, c: Config, ch: Choice)
    requires c.node != Start && (c.node != ResetTurnState ==> AppliedOk(env, c.turn.applied))
    requires Faithful(env, c, ch) && !ch.stop
    ensures AppliedOk(env, TurnAfter(env, c, ch).applied)
  {
    if c.node !in {ResetTurnState, ResolveLookup} { AppliedAfter(env, c, ch); }
  }

  lemma PlainPayload(env: Env, applied: seq<Policy>)
    requires AppliedOk(env, applied)
    ensures ToPayload(applied) == applied && Filter(NotSubstituted(), applied) == []
  {
    FilterAll(HasCode(), applied);
    FilterNone(NotSubstituted(), applied);
  }

  lemma RefusalIsOk(env: Env, t: TurnState)
    requires AppliedOk(env, t.applied)
    requires t.code == Some(IDENTITY_CODE) || (t.code == Some(MONEY_CODE) && !env.SeesMoney())
    ensures ResponseOk(env, RefusedOutOfScope(t)) && Carries(RefusedOutOfScope(t), t.applied)
    ensures RefusedOutOfScope(t).policies == Some([Policy(t.code.value, Denied)] + t.applied)
  {
    FilterAll(HasCode(), [Policy(t.code.value, Denied)] + t.applied);
  }

  lemma UnsupportedIsOk(env: Env, t: TurnState)
    requires AppliedOk(env, t.applied) && t.cause == NotAnswerable
    ensures ResponseOk(env, RefusedFromPlan(t))
  {
    PlainPayload(env, t.applied);
    PlainPayload(env, []);
  }

  /** Every terminal's result keeps to its notices. */
  lemma TerminalIsOk(env: Env, c: Config, ch: Choice)
    requires AppliedOk(env, c.turn.applied) && RefusalsOk(env, c) && Terminal(c.node, c.turn, ch).Some?
    ensures ResponseOk(env, Terminal(c.node, c.turn, ch).value)
    ensures Carries(Terminal(c.node, c.turn, ch).value, c.turn.applied)
  {
    if c.node == OutOfScopeAnswer {
      RefusalIsOk(env, c.turn);
    } else if c.node == UnsupportedFromPlan {
      UnsupportedIsOk(env, c.turn);
    } else {
      PlainIsOk(env, Terminal(c.node, c.turn, ch).value, c.turn.applied);
    }
  }

  lemma PlainIsOk(env: Env, r: Result, applied: seq<Policy>)
    requires AppliedOk(env, applied) && r.kind !in {UnsupportedAnswer, OutOfScope}
    requires r.policies == None || r.policies == Some(ToPayload(applied))
    ensures ResponseOk(env, r) && Carries(r, applied)
  {
    PlainPayload(env, applied);
  }

  lemma SavedIsOk(env: Env, t: TurnState)
    requires AppliedOk(env, t.applied) && t.result.Some?
    requires ResponseOk(env, t.result.value) && Carries(t.result.value, t.applied)
    ensures WithPolicies(t).Some? && WithPolicies(t).value.policies.Some?
    ensures ResponseOk(env, WithPolicies(t).value) && Carries(WithPolicies(t).value, t.applied)
  {
    PlainPayload(env, t.applied);
  }

  lemma AppliedInPlan(t: TurnState, ch: Choice)
    ensures Planned(t, ch).applied == t.applied
  {
  }

  lemma AppliedInExecution(t: TurnState, payload: Payload)
    ensures Executed(t, payload).applied == t.applied
  {
  }

  lemma AppliedElsewhere(env: Env, c: Config, ch: Choice)
    requires c.node !in {Start, ResetTurnState, ResolveLookup, MakePlan, ExecuteSql}
    ensures TurnAfter(env, c, ch).applied == c.turn.applied
  {
  }

  lemma AppliedAfter(env: Env, c: Config, ch: Choice)
    requires c.node !in {Start, ResetTurnState, ResolveLookup}
    ensures TurnAfter(env, c, ch).applied == c.turn.applied
  {
    if c.node == MakePlan {
      AppliedInPlan(c.turn, ch);
    } else if c.node == ExecuteSql {
      AppliedInExecution(c.turn, RunResult(env.settings, c.db, ch.run));
    } else {
      AppliedElsewhere(env, c, ch);
    }
  }

  lemma NoticesStep(env: Env, c: Config, ch: Choice)
    requires c.Running() && c.node != Start && NoticesOk(env, c) && RefusalsOk(env, c) && SavesOk(c)
    requires Faithful(env, c, ch)
    ensures NoticesOk(env, Step(env, c, ch))
  {
    var next := Step(env, c, ch);
    if !ch.stop {
      assert AppliedOk(env, next.turn.applied) by { AppliedStep(env, c, ch); }
      if next.node in {SaveTurn, End} && next.turn.result.Some? {
        OnlySaveTurnMovesToEnd(env, next.turn, c.node);
        ResultAfter(env, c, ch);
        AppliedAfter(env, c, ch);
        if c.node == SaveTurn {
          SavedIsOk(env, c.turn);
        } else if Terminal(c.node, c.turn, ch).Some? {
          TerminalIsOk(env, c, ch);
        }
      }
    }
  }

  // ------------------------------------------------------------------
  // History
  // ------------------------------------------------------------------

  /** The user's own words survive the rewriting of the query. */
  predicate QueryOk(asked: string, c: Config) {
    if c.node in {ResetTurnState, LoadContext} then c.turn.query == asked else c.turn.originalQuery == Some(asked)
  }

  lemma QuestionAfter(env: Env, c: Config, ch: Choice)
    ensures c.node == LoadContext ==> TurnAfter(env, c, ch).originalQuery == Some(c.turn.query)
    ensures c.node == ResetTurnState ==> TurnAfter(env, c, ch).query == c.turn.query
    ensures c.node !in {LoadContext, ResetTurnState} ==> TurnAfter(env, c, ch).originalQuery == c.turn.originalQuery
  {
  }

  lemma QueryStep(env: Env, asked: string, c: Config, ch: Choice)
    requires c.Running() && c.node != Start && QueryOk(asked, c)
    ensures QueryOk(asked, Step(env, c, ch))
  {
    QuestionAfter(env, c, ch);
    FirstNodes(env, TurnAfter(env, c, ch), c.node);
  }

  lemma FirstNodes(env: Env, t: TurnState, n: Node)
    requires n != End && n != Start
    ensures Successor(env, t, n) == LoadContext <==> n == ResetTurnState
    ensures Successor(env, t, n) != ResetTurnState
  {
  }

  /** What a saved history looks like: bounded, and ending in this turn's question and answer. */
  predicate HistoryOk(env: Env, asked: string, t: TurnState) {
    && 2 <= |t.history| <= env.KeptMessages()
    && t.history[|t.history| - 2..] == [User(asked), Assistant(t.result)]
  }

  lemma SavedHistory(env: Env, asked: string, t: TurnState)
    requires t.result.Some? && t.originalQuery == Some(asked) && asked != ""
    ensures HistoryOk(env, asked, Saved(env, t))
  {
    var added := [User(asked), Assistant(WithPolicies(t))];
    assert TurnMessages(env, t, WithPolicies(t)) == added;
    TailKeepsLast(t.history, added, env.KeptMessages());
  }

  /** A tail long enough keeps what was added last. */
  lemma TailKeepsLast(items: seq<Message>, added: seq<Message>, k: int)
    requires |added| <= k && added != []
    ensures var r := Tail(items + added, k); |added| <= |r| <= k && r[|r| - |added|..] == added
  {
    var all := items + added;
    assert all[|all| - |added|..] == added;
  }

  predicate EndHistoryOk(env: Env, asked: string, c: Config) {
    c.node == End && asked != "" ==> HistoryOk(env, asked, c.turn)
  }

  lemma HistoryStep(env: Env, asked: string, c: Config, ch: Choice)
    requires c.Running() && c.node != Start && QueryOk(asked, c) && SavesOk(c)
    ensures EndHistoryOk(env, asked, Step(env, c, ch))
  {
    if !ch.stop {
      OnlySaveTurnMovesToEnd(env, TurnAfter(env, c, ch), c.node);
      if c.node == SaveTurn && asked != "" { SavedHistory(env, asked, c.turn); }
    }
  }

  // ------------------------------------------------------------------
  // The rows an answer is made of
  // ------------------------------------------------------------------

  /** While an analytics answer is made, the rows are those of the last statement, and it reported no error. */
  predicate RowsOk(c: Config) {
    c.node in {AnalyzeResult, Synthesize} ==>
      c.calls != [] && c.turn.rows.Some? && c.calls[|c.calls| - 1].answer == c.turn.rows
      && !Truthy(c.turn.rows.value.error)
  }

  lemma MovesToAnswer(env: Env, t: TurnState, n: Node)
    requires n != End && n != Start
    ensures Successor(env, t, n) == AnalyzeResult ==> n == ExecuteSql && !Truthy(t.executionError)
    ensures Successor(env, t, n) == Synthesize ==> n == AnalyzeResult
  {
  }

  lemma RowsStep(env: Env, c: Config, ch: Choice)
    requires c.Running() && c.node != Start && RowsOk(c)
    ensures RowsOk(Step(env, c, ch))
  {
    if !ch.stop { MovesToAnswer(env, TurnAfter(env, c, ch), c.node); }
  }

  // ------------------------------------------------------------------
  // Every reachable state
  // ------------------------------------------------------------------

  predicate Inv(env: Env, asked: string, c: Config) {
    && c.node != Start && CountsOk(env, c) && SavesOk(c) && CallsOk(env, c) && ScopeOk(env, c)
    && NoticesOk(env, c) && RefusalsOk(env, c) && QueryOk(asked, c) && EndHistoryOk(env, asked, c) && RowsOk(c)
  }

  lemma InvStep(env: Env, asked: string, c: Config, ch: Choice)
    requires Inv(env, asked, c) && c.Running() && Faithful(env, c, ch)
    ensures Inv(env, asked, Step(env, c, ch))
  {
    CountsStep(env, c, ch);
    SavesStep(env, c, ch);
    CallsStep(env, c, ch);
    ScopeStep(env, c, ch);
    NoticesStep(env, c, ch);
    RefusalsStep(env, c, ch);
    QueryStep(env, asked, c, ch);
    HistoryStep(env, asked, c, ch);
    RowsStep(env, c, ch);
  }

  lemma {:induction false} InvAlways(env: Env, start: Config, choices: seq<Choice>, c: Config)
    requires Begins(env, start) && Runs(env, start, choices, c)
    ensures Inv(env, start.turn.query, c)
  {
    if choices != [] {
      var n := |choices| - 1;
      var b :| Runs(env, start, choices[..n], b) && Moves(env, b, choices[n], c);
      InvAlways(env, start, choices[..n], b);
      InvStep(env, start.turn.query, b, choices[n]);
    }
  }

  // ------------------------------------------------------------------
  // What holds of every run
  // ------------------------------------------------------------------

  /** A run that is not cut off saves exactly one turn, with a result that keeps to its notices. */
  lemma FinishedRunsSaveOnce(env: Env, start: Config, choices: seq<Choice>, c: Config)
    requires Begins(env, start) && Runs(env, start, choices, c)
    ensures c.node == End ==> |c.saves| == 1 && c.saves[0] == c.turn.result && c.turn.result.Some?
                              && c.turn.result.value.policies.Some? && ResponseOk(env, c.turn.result.value)
                              && Carries(c.turn.result.value, c.turn.applied)
    ensures c.node != End ==> c.saves == []
  {
    InvAlways(env, start, choices, c);
  }

  /** At most one plan and one statement per allowed retry, and one more. */
  lemma PlansAndStatementsAreBounded(env: Env, start: Config, choices: seq<Choice>, c: Config)
    requires Begins(env, start) && Runs(env, start, choices, c)
    ensures |c.calls| <= c.plans <= env.Retries() + 1
  {
    InvAlways(env, start, choices, c);
  }

  /** Every statement sent is the text the validator and the shape guard accepted in the step before. */
  lemma OnlyAcceptedSqlRuns(env: Env, start: Config, choices: seq<Choice>, c: Config, i: nat)
    requires Begins(env, start) && Runs(env, start, choices, c) && i < |c.calls|
    ensures c.calls[i].sql.Some? && c.calls[i].accepted == c.calls[i].sql
  {
    InvAlways(env, start, choices, c);
  }

  /** Every statement, after any failures and retries, finds the role of its caller's level. */
  lemma EveryCallFindsItsRole(env: Env, start: Config, choices: seq<Choice>, c: Config, i: nat)
    requires Begins(env, start) && Runs(env, start, choices, c) && i < |c.calls|
    ensures c.calls[i].role == ScopeRole(env.settings, env.level) && c.calls[i].level == env.level
  {
    InvAlways(env, start, choices, c);
  }

  /** After the resolver's rollback nothing is planned and nothing is sent to the database. */
  lemma NoSqlAfterRollback(env: Env, start: Config, choices: seq<Choice>, c: Config)
    requires Begins(env, start) && Runs(env, start, choices, c) && c.rolledBack
    ensures c.calls == [] && c.plans == 0 && c.node in {ClarifyFromLookup, SaveTurn, End}
  {
    InvAlways(env, start, choices, c);
  }

  /** The branch from validation to a refusal is never taken. */
  lemma ValidationNeverRefuses(env: Env, start: Config, choices: seq<Choice>, b: Config, ch: Choice)
    requires Begins(env, start) && Runs(env, start, choices, b) && b.node == ValidateSql && b.Running()
    ensures Step(env, b, ch).node != OutOfScopeAnswer
  {
    assert RefusalsOk(env, b) by { InvAlways(env, start, choices, b); }
    RefusalFieldsAfter(env, b, ch);
    MovesToRefusal(env, TurnAfter(env, b, ch), ValidateSql);
  }

  /** The turn kept for the next one ends in the user's own question and the answer given. */
  lemma HistoryEndsInThisTurn(env: Env, start: Config, choices: seq<Choice>, c: Config)
    requires Begins(env, start) && Runs(env, start, choices, c) && c.node == End && start.turn.query != ""
    ensures HistoryOk(env, start.turn.query, c.turn)
  {
    InvAlways(env, start, choices, c);
  }

  /** An analytics answer is made of the rows of the turn's last statement, never of rows a checkpoint kept. */
  lemma AnswersComeFromTheLastStatement(env: Env, start: Config, choices: seq<Choice>, c: Config)
    requires Begins(env, start) && Runs(env, start, choices, c) && c.node == Synthesize
    ensures c.calls != [] && c.turn.rows.Some? && c.calls[|c.calls| - 1].answer == c.turn.rows
    ensures c.calls[|c.calls| - 1].sql == c.calls[|c.calls| - 1].accepted && !Truthy(c.turn.rows.value.error)
  {
    InvAlways(env, start, choices, c);
  }

  /** Outside a transaction the role is the connection's own. */
  predicate IdleAtBase(db: Db) { db.txn.Idle? ==> db.role == db.base }

  lemma StepKeepsLogin(env: Env, c: Config, ch: Choice)
    requires c.Running()
    ensures Step(env, c, ch).db.login == c.db.login && Step(env, c, ch).db.base == c.db.base
    ensures IdleAtBase(c.db) ==> IdleAtBase(Step(env, c, ch).db)
  {
  }

  lemma {:induction false} LoginIsFixed(env: Env, start: Config, choices: seq<Choice>, c: Config)
    requires Runs(env, start, choices, c) && IdleAtBase(start.db)
    ensures c.db.login == start.db.login && c.db.base == start.db.base && IdleAtBase(c.db)
  {
    if choices != [] {
      var n := |choices| - 1;
      var b :| Runs(env, start, choices[..n], b) && Moves(env, b, choices[n], c);
      LoginIsFixed(env, start, choices[..n], b);
      StepKeepsLogin(env, b, choices[n]);
    }
  }

  /**
   * However a run ended, leaving the scope restores the login role: by its reset, whatever role the
   * connection came with, and on a clean connection by its rollback alone.
   */
  lemma ScopeIsLeft(env: Env, start: Config, choices: seq<Choice>, c: Config, resetWorks: bool)
    requires Begins(env, start) && Runs(env, start, choices, c)
    requires resetWorks || start.db.base == start.db.login
    ensures AfterSafeReset(c.db, true, resetWorks).role == start.db.login
  {
    LoginIsFixed(env, start, choices, c);
    ExitRoleIff(c.db, true, resetWorks);
  }

  /** Two requests that differ only in what their checkpoints restored, but for the history, run alike. */
  lemma {:induction false} CheckpointDoesNotLeak(env: Env, a: Config, b: Config, choices: seq<Choice>, c: Config)
    requires Begins(env, a) && Begins(env, b) && a.db == b.db
    requires a.turn.query == b.turn.query && a.turn.history == b.turn.history
    requires choices != [] && !choices[0].stop && Runs(env, a, choices, c)
    ensures Runs(env, b, choices, c)
  {
    var n := |choices| - 1;
    var m :| Runs(env, a, choices[..n], m) && Moves(env, m, choices[n], c);
    if n == 0 {
      assert Runs(env, b, choices[..n], b);
      assert Moves(env, b, choices[n], c);
    } else {
      CheckpointDoesNotLeak(env, a, b, choices[..n], m);
    }
  }
}
