/** The turn state, what each node overwrites in it, and one step of the graph. */
module Turns {
  import opened Wrappers
  import opened Seqs
  import opened TextUtils
  import opened Session
  import opened TurnGraph
  import opened MetricRegistry

  // ------------------------------------------------------------------
  // The planner's plan
  // ------------------------------------------------------------------

  datatype Status = Answerable | NeedsClarification | Unsupported
  datatype Cause = CustomerIdentity | NotAnswerable
  datatype Period = Stated | Assumed | NoPeriod

  /** A plan as the model returned it, its SQL already cleaned. */
  datatype Plan = Plan(status: Status, sql: Option<string>, needsClarification: bool, question: Option<string>,
                       unsupportedReason: Option<string>, cause: Cause, slots: seq<string>, period: Period)

  /** Python truth of an optional string. */
  predicate Truthy(s: Option<string>) { s.Some? && s.value != "" }

  const UNGROUNDED := "The request could not be grounded."
  const WHICH_PERIOD := "Which time period would you like?"

  /** What _normalize_plan promises of the plan it leaves. */
  predicate Consistent(p: Plan) {
    && (p.status.Answerable? ==> Truthy(p.sql))
    && (!p.status.Answerable? ==> p.sql == None)
    && (p.status.NeedsClarification? ==> p.needsClarification && p.unsupportedReason == None)
    && (p.status.Unsupported? ==> !p.needsClarification && p.question == None)
    && (!p.status.Unsupported? ==> p.cause == NotAnswerable)
  }

  function Normalized(p: Plan): (q: Plan)
    ensures Consistent(q)
  {
    match p.status
    case Answerable =>
      if Truthy(p.sql) then p.(cause := NotAnswerable)
      else p.(status := Unsupported, sql := None, needsClarification := false, question := None,
              unsupportedReason := if Truthy(p.unsupportedReason) then p.unsupportedReason else Some(UNGROUNDED))
    case NeedsClarification =>
      p.(sql := None, unsupportedReason := None, needsClarification := true, cause := NotAnswerable)
    case Unsupported => p.(sql := None, needsClarification := false, question := None)
  }

  /** A consistent plan is left alone, so normalising twice is normalising once. */
  lemma NormalizedIsStable(p: Plan)
    ensures Normalized(Normalized(p)) == Normalized(p)
    ensures Normalized(p) == p <==> Consistent(p)
  {
  }

  class SqlPlan {
    var status: Status
    var sql: Option<string>
    var needsClarification: bool
    var question: Option<string>
    var unsupportedReason: Option<string>
    var cause: Cause
    var slots: seq<string>
    var period: Period

    function Value(): Plan
      reads this
    {
      Plan(status, sql, needsClarification, question, unsupportedReason, cause, slots, period)
    }

    constructor (p: Plan)
      ensures Value() == p
    {
      status, sql, needsClarification, question := p.status, p.sql, p.needsClarification, p.question;
      unsupportedReason, cause, slots, period := p.unsupportedReason, p.cause, p.slots, p.period;
    }

    /** _normalize_plan, after its SQL was cleaned. */
    method Normalize()
      modifies this
      ensures Value() == Normalized(old(Value()))
    {
      if status.Answerable? && !Truthy(sql) {
        status := Unsupported;
        if !Truthy(unsupportedReason) { unsupportedReason := Some(UNGROUNDED); }
        needsClarification := false;
        question := None;
      }
      if status.NeedsClarification? {
        sql := None;
        unsupportedReason := None;
        needsClarification := true;
      }
      if status.Unsupported? {
        sql := None;
        needsClarification := false;
        question := None;
      } else {
        cause := NotAnswerable;
      }
    }
  }

  // ------------------------------------------------------------------
  // The turn state
  // ------------------------------------------------------------------

  datatype Effect = Denied | Substituted
  datatype Policy = Policy(code: string, effect: Effect)

  const MONEY_CODE := "role_money_withheld"
  const IDENTITY_CODE := "customer_identity"

  datatype Kind = Analytics | Glossary | Smalltalk | Clarify | OutOfScope | UnsupportedAnswer | ErrorAnswer
  datatype Result = Result(kind: Kind, policies: Option<seq<Policy>>)
  datatype Message = User(text: string) | Assistant(payload: Option<Result>)

  datatype TurnState = TurnState(
    query: string, originalQuery: Option<string>, followup: bool, history: seq<Message>, previous: Option<string>,
    reason: Option<string>, code: Option<string>, applied: seq<Policy>,
    route: Option<string>, lookupClarify: bool, lookupPlan: Option<string>,
    sql: Option<string>, status: Option<Status>, needsClarification: bool, question: Option<string>,
    unsupportedReason: Option<string>, cause: Cause, slots: seq<string>,
    validationError: Option<string>, executionError: Option<string>, retryCount: int, attempts: seq<string>,
    rows: Option<Payload>, result: Option<Result>)

  /** A turn with nothing decided yet. */
  function Fresh(query: string, history: seq<Message>): TurnState {
    TurnState(query, None, false, history, None, None, None, [], None, false, None,
              None, None, false, None, None, NotAnswerable, [], None, None, 0, [], None, None)
  }

  /** What a request fixes: its caller, the settings it runs under and the metric registry. */
  datatype Env = Env(settings: Settings, level: string, maxRetries: int, historyLimit: int, rows: seq<Metric>,
                     hasIds: bool)
  {
    predicate SeesMoney() { level == "HOD" }
    function Retries(): nat { if maxRetries > 0 then maxRetries else 0 }
    /** max(2, limit or 12). */
    function KeptMessages(): nat { if historyLimit == 0 then 12 else if historyLimit < 2 then 2 else historyLimit }
  }

  // ------------------------------------------------------------------
  // What the nodes are told
  // ------------------------------------------------------------------

  datatype Resolver = Resolves(clarify: bool, txnAborted: bool, plan: string) | Raises(rollbackWorks: bool)
  datatype Verdict = Invalid(feedback: string, normalized: string) | Accepts(normalized: string)

  /** Every answer of a model, the resolver, the validator or the database that one step may need. */
  datatype Choice = Choice(
    stop: bool, txnAborted: bool,                          // the node raises or the request times out
    effective: string, followup: bool, keep: nat,          // load_context
    route: string,                                         // detect_intent
    replan: bool,                                          // answer_from_previous
    glossaryMatched: bool,                                 // glossary_answer
    requested: Option<Metric>, substitute: Option<string>, // withheld_for
    previous: Option<string>, carriedPlan: Option<string>, // the last answer and its resolution plan
    resolver: Resolver,
    plan: Plan, guard: Option<string>,                     // plan_sql and the period guard
    verdict: Verdict, shape: Option<string>,               // validate_sql and validate_query_shape
    run: SqlRun)                                           // run_sql

  // ------------------------------------------------------------------
  // Nodes
  // ------------------------------------------------------------------

  /** Python's items[-k:]. */
  function Tail<T>(items: seq<T>, k: int): (r: seq<T>)
    ensures k > 0 ==> |r| <= k
  {
    if k > 0 then (if |items| <= k then items else items[|items| - k..])
    else if -k <= |items| then items[-k..] else []
  }

  function LoadedContext(env: Env, t: TurnState, ch: Choice): TurnState {
    var recent := Tail(t.history, env.historyLimit);
    t.(query := ch.effective, originalQuery := Some(t.query), followup := ch.followup,
       history := if ch.keep <= |recent| then recent[..ch.keep] else recent,
       previous := ch.previous, lookupPlan := ch.carriedPlan)
  }

  function ClassifiedIntent(t: TurnState, ch: Choice): TurnState {
    t.(route := Some(if t.followup then "plan_sql" else ch.route))
  }

  function AnsweredFromPrevious(t: TurnState, ch: Choice): TurnState {
    if ch.replan then t.(route := Some("plan_sql")) else t.(result := Some(Result(Analytics, None)))
  }

  const MONEY_DENIAL := "That question can only be answered with revenue."

  /** resolve_lookup_entities, on the turn. */
  function ResolvedLookup(t: TurnState, ch: Choice): TurnState {
    if ch.requested.Some? && ch.substitute.None?
    then t.(lookupClarify := false, code := Some(MONEY_CODE), reason := Some(MONEY_DENIAL))
    else
      var noted := if ch.requested.Some? then t.applied + [Policy(MONEY_CODE, Substituted)] else t.applied;
      t.(applied := noted, lookupClarify := ch.resolver.Raises? || ch.resolver.clarify,
         lookupPlan := if ch.resolver.Raises? then t.lookupPlan else Some(ch.resolver.plan))
  }

  /** resolve_lookup_entities, on the session: only a resolver that raises rolls it back. */
  function DbAfterLookup(db: Db, ch: Choice): Db {
    if ch.requested.Some? && ch.substitute.None? then db
    else match ch.resolver
         case Resolves(_, aborted, _) => if aborted then Began(db).(txn := Aborted) else Began(db)
         case Raises(works) =>
           if db.txn.Idle? then db else if works then RolledBack(db)
           else if ch.txnAborted then db.(txn := Aborted) else db
  }

  predicate RollsBack(ch: Choice) { !(ch.requested.Some? && ch.substitute.None?) && ch.resolver.Raises? }

  /** An answerable plan that must not run: its period was assumed, or it filters by none. */
  predicate PeriodRefused(p: Plan, guard: Option<string>) {
    p.status.Answerable? && Truthy(p.sql) && (p.period.Assumed? || Truthy(guard))
  }

  function Planned(t: TurnState, ch: Choice): TurnState {
    var p := Normalized(ch.plan);
    var attempted := t.(attempts := if Truthy(p.sql) then t.attempts + [p.sql.value] else t.attempts,
                        validationError := None, executionError := None);
    if PeriodRefused(p, ch.guard)
    then attempted.(sql := None, status := Some(NeedsClarification), needsClarification := true,
                    question := if p.period.Assumed? then Some(WHICH_PERIOD) else ch.guard,
                    unsupportedReason := None, cause := NotAnswerable, slots := ["time_period"])
    else attempted.(sql := p.sql, status := Some(p.status), needsClarification := p.needsClarification,
                    question := p.question, slots := p.slots,
                    unsupportedReason := p.unsupportedReason, cause := p.cause,
                    reason := if p.cause.CustomerIdentity? then p.unsupportedReason else None,
                    code := if p.cause.CustomerIdentity? then Some(IDENTITY_CODE) else None)
  }

  function Validated(t: TurnState, ch: Choice): TurnState {
    match ch.verdict
    case Invalid(feedback, normalized) =>
      t.(validationError := Some(feedback), sql := if normalized != "" then Some(normalized) else t.sql)
    case Accepts(normalized) => t.(sql := Some(normalized), validationError := ch.shape)
  }

  const UNKNOWN_ERROR := "Unknown SQL execution error."

  /** classify_sql_error: a known kind of failure is explained, any other message stands. */
  function ClassifySqlError(message: string): (r: string)
    ensures r != ""
  {
    var low := Lower(message);
    if Contains(low, "current transaction is aborted") || Contains(low, "infailedsqltransactionerror")
    then "Rollback the session before retrying the SQL."
    else if Contains(low, "missing from-clause entry") || Contains(low, "invalid reference to from-clause entry")
    then "The SQL referenced a table column incorrectly."
    else if Contains(low, "does not exist") || Contains(low, "undefinedcolumn") || Contains(low, "undefinedtable")
    then "The SQL referenced a missing table or column."
    else if Contains(low, "syntax error") then "The SQL has a PostgreSQL syntax problem."
    else if Contains(low, "operator does not exist") || Contains(low, "invalid input syntax")
            || Contains(low, "cannot cast")
    then "The SQL has a type mismatch."
    else if Contains(low, "permission denied") then "The database user does not have permission."
    else if message != "" then message else UNKNOWN_ERROR
  }

  /** execute_sql: an error without a message passes for success. */
  function Executed(t: TurnState, payload: Payload): TurnState {
    t.(rows := Some(payload),
       executionError := if Truthy(payload.error) then Some(ClassifySqlError(payload.error.value)) else None)
  }

  /** A statement that fails without a message. */
  predicate FailsSilently(s: Settings, db: Db, run: SqlRun) {
    if db.txn.Aborted? then run.driverError == ""
    else ScopeActive(s, Began(db)) &&
         if run.Prepared() && (run.outcome.Returns? ==> run.released) then run.outcome == Fails("")
         else run.driverError == ""
  }

  /** So a statement that was refused or failed is retried exactly when its error has a message. */
  lemma FailureSeenIff(t: TurnState, s: Settings, db: Db, run: SqlRun)
    requires RunResult(s, db, run).error.Some?
    ensures Truthy(Executed(t, RunResult(s, db, run)).executionError) <==> !FailsSilently(s, db, run)
    ensures FailsSilently(s, db, run) ==> RunResult(s, db, run).rows == []
  {
  }

  /** Two of them: an error of no text, and a refused statement_timeout of no text. Both pass for no rows. */
  lemma SilentFailures(t: TurnState, s: Settings, db: Db, outcome: Outcome)
    requires ScopeActive(s, Began(db))
    ensures Executed(t, RunResult(s, db, SqlRun(1, true, true, true, "", Fails("")))).executionError == None
    ensures Executed(t, RunResult(s, db, SqlRun(1, false, true, true, "", outcome))).executionError == None
  {
  }

  function HasCode(): Policy -> bool { (p: Policy) => p.code != "" }
  function NotSubstituted(): Policy -> bool { (p: Policy) => p.effect != Substituted }
  function ToPayload(ps: seq<Policy>): seq<Policy> { Filter(HasCode(), ps) }

  function RefusedFromPlan(t: TurnState): Result {
    var kept := Filter(NotSubstituted(), t.applied);
    Result(UnsupportedAnswer,
           Some(ToPayload(if t.cause.CustomerIdentity? then [Policy(IDENTITY_CODE, Denied)] + kept else kept)))
  }

  function RefusedOutOfScope(t: TurnState): Result {
    Result(OutOfScope, Some(ToPayload((if Truthy(t.code) then [Policy(t.code.value, Denied)] else []) + t.applied)))
  }

  /** The result a terminal node leaves. */
  function Terminal(n: Node, t: TurnState, ch: Choice): Option<Result> {
    match n
    case GlossaryAnswer => Some(Result(if ch.glossaryMatched then Glossary else Clarify, None))
    case SmalltalkAnswer => Some(Result(Smalltalk, None))
    case ClarifyFromLookup => Some(Result(Clarify, Some(ToPayload(t.applied))))
    case OutOfScopeAnswer => Some(RefusedOutOfScope(t))
    case UnsupportedFromPlan => Some(RefusedFromPlan(t))
    case ClarifyFromPlan => Some(Result(Clarify, None))
    case ExecuteError => Some(Result(ErrorAnswer, Some(ToPayload(t.applied))))
    case Synthesize => Some(Result(Analytics, Some(ToPayload(t.applied))))
    case _ => None
  }

  /** The messages a turn adds to the history. */
  function TurnMessages(env: Env, t: TurnState, result: Option<Result>): seq<Message> {
    var query := if Truthy(t.originalQuery) then t.originalQuery.value else t.query;
    (if query != "" then [User(query)] else []) + (if result.Some? || env.hasIds then [Assistant(result)] else [])
  }

  function WithPolicies(t: TurnState): Option<Result> {
    if t.result.Some? && t.result.value.policies.None?
    then Some(t.result.value.(policies := Some(ToPayload(t.applied)))) else t.result
  }

  function Saved(env: Env, t: TurnState): TurnState {
    t.(result := WithPolicies(t),
       history := Tail(t.history + TurnMessages(env, t, WithPolicies(t)), env.KeptMessages()))
  }

  // ------------------------------------------------------------------
  // One step
  // ------------------------------------------------------------------

  /** A run_sql call: its text, what the step before accepted, the session it found, and what it gave. */
  datatype SqlCall = SqlCall(sql: Option<string>, accepted: Option<string>, role: string, level: string,
                             answer: Option<Payload>)

  /** Where a run is, with a record of what it did so far. */
  datatype Config = Config(node: Node, turn: TurnState, db: Db, stopped: bool, rolledBack: bool,
                           plans: nat, accepted: Option<string>, calls: seq<SqlCall>, saves: seq<Option<Result>>)
  {
    predicate Running() { !stopped && node != End }
  }

  /** The routers. */
  function RouteKey(env: Env, t: TurnState, n: Node): Key {
    match n
    case ClassifyIntent =>
      if t.route == Some("answer_from_previous") then ToAnswerFromPrevious
      else if t.route == Some("plan_sql") then ToResolveLookup
      else if t.route == Some("glossary") then ToGlossary
      else if t.route == Some("smalltalk") then ToSmalltalk else ToClarify
    case AnswerFromPrevious => if t.route == Some("plan_sql") && t.result.None? then ToResolveLookup else ToEnd
    case ResolveLookup =>
      if Truthy(t.reason) then ToOutOfScope else if t.lookupClarify then ToClarifyFromLookup else ToMakePlan
    case MakePlan =>
      if t.status == Some(Unsupported)
      then if t.cause.CustomerIdentity? then ToOutOfScope else ToUnsupportedFromPlan
      else if t.status == Some(NeedsClarification) || !Truthy(t.sql) then ToClarifyFromPlan else ToValidateSql
    case ValidateSql =>
      if Truthy(t.reason) then ToOutOfScope else if !Truthy(t.validationError) then ToExecuteSql
      else if t.retryCount < env.maxRetries then ToRetrySql else ToExecuteError
    case _ =>
      if !Truthy(t.executionError) then ToAnalyzeResult
      else if t.retryCount < env.maxRetries then ToRetrySql else ToExecuteError
  }

  function Successor(env: Env, t: TurnState, n: Node): Node {
    if EdgeFrom(n).Some? then EdgeFrom(n).value
    else if BranchFrom(n, RouteKey(env, t, n)).Some? then BranchFrom(n, RouteKey(env, t, n)).value else End
  }

  /** No router returns a key its node has no branch for. */
  lemma RoutersStayOnTheGraph(env: Env, t: TurnState, n: Node)
    requires n != End
    ensures EdgeFrom(n) == Some(Successor(env, t, n)) || (EdgeFrom(n).None? &&
            BranchFrom(n, RouteKey(env, t, n)) == Some(Successor(env, t, n)))
  {
  }

  /** What running a node does to the turn. */
  function TurnAfter(env: Env, c: Config, ch: Choice): TurnState {
    var t := c.turn;
    match c.node
    case ResetTurnState => Fresh(t.query, t.history)
    case LoadContext => LoadedContext(env, t, ch)
    case ClassifyIntent => ClassifiedIntent(t, ch)
    case AnswerFromPrevious => AnsweredFromPrevious(t, ch)
    case ResolveLookup => ResolvedLookup(t, ch)
    case MakePlan => Planned(t, ch)
    case ValidateSql => Validated(t, ch)
    case ExecuteSql => Executed(t, RunResult(env.settings, c.db, ch.run))
    case RetrySql => t.(retryCount := t.retryCount + 1)
    case SaveTurn => Saved(env, t)
    case _ => if Terminal(c.node, t, ch).Some? then t.(result := Terminal(c.node, t, ch)) else t
  }

  function DbAfter(env: Env, c: Config, ch: Choice): Db {
    match c.node
    case ResolveLookup => DbAfterLookup(c.db, ch)
    case ExecuteSql => AfterRun(env.settings, c.db, ch.run)
    case _ => c.db
  }

  function CallsAfter(c: Config, answer: Option<Payload>): seq<SqlCall> {
    if c.node.ExecuteSql? then c.calls + [SqlCall(c.turn.sql, c.accepted, c.db.role, c.db.level, answer)] else c.calls
  }

  /** One step: the node runs and the graph moves on, or the run is cut off inside the node. */
  function Step(env: Env, c: Config, ch: Choice): Config
    requires c.Running()
  {
    if ch.stop then
      c.(stopped := true, calls := CallsAfter(c, None), accepted := None,
         db := if ch.txnAborted && !c.db.txn.Idle? then c.db.(txn := Aborted) else c.db)
    else
      var t := TurnAfter(env, c, ch);
      Config(Successor(env, t, c.node), t, DbAfter(env, c, ch), false,
             c.rolledBack || (c.node.ResolveLookup? && RollsBack(ch)),
             if c.node.MakePlan? then c.plans + 1 else c.plans,
             if c.node.ValidateSql? && ch.verdict.Accepts? && ch.shape.None? then t.sql else None,
             CallsAfter(c, Some(RunResult(env.settings, c.db, ch.run))),
             if c.node.SaveTurn? then c.saves + [t.result] else c.saves)
  }

  /** The answers a step may get: withheld_for's are the registry's, and a rejection comes with feedback. */
  ghost predicate Faithful(env: Env, c: Config, ch: Choice) {
    && (c.node.ResolveLookup? && !ch.stop ==>
          && Withheld(env.rows, c.turn.query, env.SeesMoney(), ch.requested)
          && (ch.requested.Some? ==> ch.substitute == TwinOf(env.rows, ch.requested.value, env.SeesMoney())))
    && (ch.verdict.Invalid? ==> ch.verdict.feedback != "")
    && (ch.shape.Some? ==> ch.shape.value != "")
  }
}
