/** The nodes as they overwrite the turn, and the request that runs them inside the caller's scope. */
module TurnNodes {
  import opened Wrappers
  import opened Seqs
  import opened Session
  import opened TurnGraph
  import opened MetricRegistry
  import opened Turns
  import opened TurnRuns

  /** Rejections always say why. */
  predicate Explained(ch: Choice) {
    (ch.verdict.Invalid? ==> ch.verdict.feedback != "") && (ch.shape.Some? ==> ch.shape.value != "")
  }

  class CopilotGraphNodes {
    const env: Env
    const db: PgSession
    const registry: MetricService
    var state: TurnState

    constructor (e: Env, session: PgSession, metrics: MetricService, checkpoint: TurnState)
      ensures env == e && db == session && registry == metrics && state == checkpoint
    {
      env, db, registry, state := e, session, metrics, checkpoint;
    }

    ghost predicate Valid()
      reads this, registry
    {
      registry.Valid() && registry.rows == env.rows && db.settings == env.settings
    }

    method ResetTurnState()
      modifies this`state
      ensures state == Fresh(old(state).query, old(state).history)
    {
      state := state.(originalQuery := None, followup := false, reason := None, code := None, applied := [],
                      route := None, lookupClarify := false, sql := None, status := None,
                      needsClarification := false, question := None, unsupportedReason := None,
                      cause := NotAnswerable, slots := [], validationError := None, executionError := None,
                      retryCount := 0, attempts := [], previous := None, lookupPlan := None, rows := None,
                      result := None);
    }

    /** The money check, then the entity resolver. */
    method ResolveLookupEntities(ch: Choice) returns (told: Choice)
      requires Valid()
      modifies this`state, db
      ensures Valid()
      ensures told == ch.(requested := told.requested, substitute := told.substitute)
      ensures Withheld(env.rows, old(state).query, env.SeesMoney(), told.requested)
      ensures told.requested.Some? ==>
                told.substitute == TwinOf(env.rows, told.requested.value, env.SeesMoney())
      ensures state == ResolvedLookup(old(state), told) && db.View() == DbAfterLookup(old(db.View()), told)
    {
      var policies := state.applied;
      var requested, substitute := registry.WithheldFor(state.query, env.SeesMoney());
      told := ch.(requested := requested, substitute := substitute);
      if requested.Some? {
        if substitute.None? {
          state := state.(lookupClarify := false, code := Some(MONEY_CODE), reason := Some(MONEY_DENIAL),
                          applied := policies);
          return;
        }
        policies := policies + [Policy(MONEY_CODE, Substituted)];
      }
      match ch.resolver {
        case Raises(rollbackWorks) =>
          if !db.txn.Idle? {
            if rollbackWorks { db.Rollback(); } else if ch.txnAborted { db.txn := Aborted; }
          }
          state := state.(lookupClarify := true, applied := policies);
        case Resolves(clarify, aborted, plan) =>
          db.Begin();
          if aborted { db.txn := Aborted; }
          state := state.(lookupClarify := clarify, lookupPlan := Some(plan), applied := policies);
      }
    }

    method MakePlan(ch: Choice)
      modifies this`state
      ensures state == Planned(old(state), ch)
    {
      var plan := new SqlPlan(ch.plan);
      plan.Normalize();
      var attempts := state.attempts;
      if Truthy(plan.sql) { attempts := attempts + [plan.sql.value]; }
      if plan.status.Answerable? && Truthy(plan.sql) && plan.period.Assumed? {
        state := state.(sql := None, status := Some(NeedsClarification), needsClarification := true,
                        question := Some(WHICH_PERIOD), unsupportedReason := None, cause := NotAnswerable,
                        slots := ["time_period"], attempts := attempts,
                        validationError := None, executionError := None);
        return;
      }
      if plan.status.Answerable? && Truthy(plan.sql) && Truthy(ch.guard) {
        state := state.(sql := None, status := Some(NeedsClarification), needsClarification := true,
                        question := ch.guard, unsupportedReason := None, cause := NotAnswerable,
                        slots := ["time_period"], attempts := attempts,
                        validationError := None, executionError := None);
        return;
      }
      var identity := plan.cause.CustomerIdentity?;
      state := state.(sql := plan.sql, status := Some(plan.status), needsClarification := plan.needsClarification,
                      question := plan.question, unsupportedReason := plan.unsupportedReason, cause := plan.cause,
                      reason := if identity then plan.unsupportedReason else None,
                      code := if identity then Some(IDENTITY_CODE) else None,
                      slots := plan.slots, attempts := attempts, validationError := None, executionError := None);
    }

    method ExecuteSql(ch: Choice)
      modifies this`state, db
      ensures state == Executed(old(state), RunResult(db.settings, old(db.View()), ch.run))
      ensures db.View() == AfterRun(db.settings, old(db.View()), ch.run)
    {
      var payload := db.RunSql(ch.run);
      if Truthy(payload.error) {
        state := state.(rows := Some(payload), executionError := Some(ClassifySqlError(payload.error.value)));
      } else {
        state := state.(rows := Some(payload), executionError := None);
      }
    }

    /** Append this turn to the history, and give the result its policies. */
    method SaveTurn()
      modifies this`state
      ensures state == Saved(env, old(state))
    {
      var history, result := state.history, state.result;
      if result.Some? && result.value.policies.None? {
        result := Some(result.value.(policies := Some(ToPayload(state.applied))));
      }
      var query := if Truthy(state.originalQuery) then state.originalQuery.value else state.query;
      if query != "" { history := history + [User(query)]; }
      if result.Some? || env.hasIds { history := history + [Assistant(result)]; }
      assert history == state.history + TurnMessages(env, state, result);
      state := state.(history := Tail(history, env.KeptMessages()), result := result);
    }

    /** Run a node that does not use the session. */
    method RunPlainNode(node: Node, ch: Choice, ghost c: Config)
      requires c.node == node && c.turn == state && node !in {ResolveLookup, Node.ExecuteSql}
      modifies this`state
      ensures state == TurnAfter(env, c, ch)
    {
      var result := Terminal(node, state, ch);
      if result.Some? {
        state := state.(result := result);
        return;
      }
      match node {
        case ResetTurnState => ResetTurnState();
        case LoadContext => state := LoadedContext(env, state, ch);
        case ClassifyIntent => state := ClassifiedIntent(state, ch);
        case AnswerFromPrevious => state := AnsweredFromPrevious(state, ch);
        case MakePlan => MakePlan(ch);
        case ValidateSql => state := Validated(state, ch);
        case RetrySql => state := state.(retryCount := state.retryCount + 1);
        case SaveTurn => SaveTurn();
        case _ =>
      }
    }

    /** Run one node. */
    method RunNode(node: Node, ch: Choice, ghost c: Config) returns (told: Choice)
      requires Valid() && c.node == node && c.turn == state && c.db == db.View() && Explained(ch)
      modifies this`state, db
      ensures Valid() && Faithful(env, c, told) && told.stop == ch.stop && told.txnAborted == ch.txnAborted
      ensures state == TurnAfter(env, c, told) && db.View() == DbAfter(env, c, told)
    {
      told := ch;
      if node.ResolveLookup? {
        told := ResolveLookupEntities(ch);
      } else if node.ExecuteSql? {
        ExecuteSql(ch);
      } else {
        RunPlainNode(node, ch, c);
      }
    }

    /** Run one node and follow the graph from it, or be cut off inside it. */
    method TakeStep(graph: StateGraph, node: Node, ch: Choice, ghost before: Config)
      returns (next: Node, told: Choice)
      requires Valid() && HasEdges(graph.edges, EdgeFrom) && HasBranches(graph.branches)
      requires before.Running() && before.node == node && node != Start && Explained(ch)
      requires before.turn == state && before.db == db.View()
      modifies this`state, db
      ensures Valid() && Faithful(env, before, told) && told.stop == ch.stop
      ensures var after := Step(env, before, told);
              after.node == next && after.turn == state && after.db == db.View() && after.stopped == ch.stop
    {
      next, told := node, ch;
      if ch.stop {
        if ch.txnAborted && !db.txn.Idle? { db.txn := Aborted; }
        return;
      }
      told := RunNode(node, ch, before);
      RoutersStayOnTheGraph(env, state, node);
      next := if node in graph.edges then graph.edges[node] else graph.branches[node][RouteKey(env, state, node)];
    }

    /** Run the graph from its start until it ends or is cut off. */
    method Invoke(graph: StateGraph, oracle: nat -> Choice)
      returns (finished: bool, ghost choices: seq<Choice>, ghost last: Config)
      requires Valid() && HasEdges(graph.edges, EdgeFrom) && HasBranches(graph.branches)
      requires ScopeHeld(env.settings, db.View(), env.level)
      requires forall i :: Explained(oracle(i))
      modifies this`state, db
      ensures Valid()
      ensures var start := Config(Node.ResetTurnState, old(state), old(db.View()), false, false, 0, None, [], []);
              Begins(env, start) && Runs(env, start, choices, last) && |choices| <= 11 + 4 * env.Retries()
      ensures last.turn == state && last.db == db.View() && !last.Running()
      ensures finished <==> last.node == End && !last.stopped
    {
      ghost var start := Config(Node.ResetTurnState, state, db.View(), false, false, 0, None, [], []);
      choices, last := [], start;
      var node := graph.edges[Start];
      var steps: nat, stopped := 0, false;
      while node != End && !stopped
        invariant Valid() && Begins(env, start) && Runs(env, start, choices, last)
        invariant last.node == node && last.turn == state && last.db == db.View() && last.stopped == stopped
        invariant node != Start
        decreases Rank(env, last)
      {
        ghost var before := last;
        EveryRunEnds(env, start, choices, before);
        var ch := oracle(steps);
        var told;
        node, told := TakeStep(graph, node, ch, before);
        stopped := ch.stop;
        ExtendRun(env, start, choices, before, told, Step(env, before, told));
        StepLowersRank(env, before, told);
        choices, last := choices + [told], Step(env, before, told);
        steps := steps + 1;
      }
      EveryRunEnds(env, start, choices, last);
      finished := node == End && !stopped;
    }
  }

  /** A request: enter the caller's scope, run the graph on its checkpoint, leave the scope. */
  method Run(env: Env, db: PgSession, metrics: MetricService, checkpoint: TurnState, query: string,
             oracle: nat -> Choice, setup: Setup, rollbackWorks: bool, resetWorks: bool)
    returns (entered: bool, finished: bool, state: TurnState)
    requires metrics.Valid() && metrics.rows == env.rows && db.settings == env.settings
    requires forall i :: Explained(oracle(i))
    modifies db
    ensures entered <==> setup.Works() && !old(db.txn).Aborted?
    ensures entered && rollbackWorks && resetWorks ==> db.role == db.login
    ensures finished ==> entered && state.result.Some? && state.result.value.policies.Some?
    ensures finished ==> ResponseOk(env, state.result.value)
    ensures finished && query != "" ==> HistoryOk(env, query, state)
  {
    state, finished := checkpoint.(query := query), false;
    entered := db.EnterCopilotScope(env.level, setup);
    if !entered { return; }
    var graph := BuildCopilotGraph();
    var nodes := new CopilotGraphNodes(env, db, metrics, state);
    ghost var start := Config(Node.ResetTurnState, state, db.View(), false, false, 0, None, [], []);
    ghost var choices, last;
    finished, choices, last := nodes.Invoke(graph, oracle);
    state := nodes.state;
    if finished { FinishedTurn(env, start, choices, last); }
    ghost var before := db.View();
    db.SafeReset(rollbackWorks, resetWorks);
    ExitRoleIff(before, rollbackWorks, resetWorks);
  }

  lemma FinishedTurn(env: Env, start: Config, choices: seq<Choice>, c: Config)
    requires Begins(env, start) && Runs(env, start, choices, c) && c.node == End
    ensures c.turn.result.Some? && c.turn.result.value.policies.Some? && ResponseOk(env, c.turn.result.value)
    ensures start.turn.query != "" ==> HistoryOk(env, start.turn.query, c.turn)
  {
    InvAlways(env, start, choices, c);
  }
}
