/** The bound on the steps of a run is reached. */
module LongestRun {
  import opened Wrappers
  import opened Session
  import opened TurnGraph
  import opened MetricRegistry
  import opened TextUtils
  import opened Turns
  import opened TurnRuns

  const PLAN := Plan(Answerable, Some("select"), false, None, None, NotAnswerable, [], Stated)

  /** Follow up, replan, plan, pass the checks; the statement fails or not. */
  function Answers(outcome: Outcome): Choice {
    Choice(false, false, "", false, 0, "answer_from_previous", true, true, None, None, None, None,
           Resolves(false, false, ""), PLAN, None, Accepts("select"), None,
           SqlRun(1, true, true, true, "error", outcome))
  }

  const FAILING := Answers(Fails("error"))
  const PASSING := Answers(Returns([]))

  /** A run in its planning loop, with r retries behind it. */
  ghost predicate Looping(env: Env, c: Config, n: Node, r: nat) {
    && c.node == n && !c.stopped && c.turn.retryCount == r && c.turn.reason == None
    && c.db.txn.Active? && ScopeActive(env.settings, c.db)
  }

  /** From c these answers lead to the end. */
  ghost predicate Finishes(env: Env, c: Config, choices: seq<Choice>)
    decreases |choices|
  {
    if choices == [] then c.node == End && !c.stopped
    else c.Running() && Faithful(env, c, choices[0]) && Finishes(env, Step(env, c, choices[0]), choices[1..])
  }

  lemma TakeOne(env: Env, c: Config, ch: Choice, rest: seq<Choice>) returns (choices: seq<Choice>)
    requires c.Running() && Faithful(env, c, ch) && Finishes(env, Step(env, c, ch), rest)
    ensures Finishes(env, c, choices) && |choices| == 1 + |rest|
  {
    choices := [ch] + rest;
    assert choices[1..] == rest;
  }

  // ------------------------------------------------------------------
  // Single steps
  // ------------------------------------------------------------------

  lemma PlanToValidate(env: Env, c: Config, r: nat)
    requires Looping(env, c, MakePlan, r)
    ensures Looping(env, Step(env, c, FAILING), ValidateSql, r) && Faithful(env, c, FAILING)
  {
  }

  lemma ValidateToExecute(env: Env, c: Config, r: nat)
    requires Looping(env, c, ValidateSql, r)
    ensures Looping(env, Step(env, c, FAILING), ExecuteSql, r) && Faithful(env, c, FAILING)
  {
  }

  lemma ExecuteToRetry(env: Env, c: Config, r: nat)
    requires Looping(env, c, ExecuteSql, r) && r < env.maxRetries
    ensures Looping(env, Step(env, c, FAILING), RetrySql, r) && Faithful(env, c, FAILING)
  {
  }

  lemma RetryToPlan(env: Env, c: Config, r: nat)
    requires Looping(env, c, RetrySql, r)
    ensures Looping(env, Step(env, c, FAILING), MakePlan, r + 1) && Faithful(env, c, FAILING)
  {
  }

  lemma ExecuteToAnalyze(env: Env, c: Config, r: nat)
    requires Looping(env, c, ExecuteSql, r)
    ensures Step(env, c, PASSING).node == AnalyzeResult && !Step(env, c, PASSING).stopped && Faithful(env, c, PASSING)
  {
  }

  lemma AlongEdge(env: Env, c: Config)
    requires c.node in {AnalyzeResult, Synthesize, SaveTurn} && !c.stopped
    ensures Some(Step(env, c, PASSING).node) == EdgeFrom(c.node) && !Step(env, c, PASSING).stopped
    ensures Faithful(env, c, PASSING)
  {
  }

  /** On the way to the first plan, with nothing asked and no result yet. */
  ghost predicate Approaching(env: Env, c: Config, n: Node) {
    && c.node == n && !c.stopped && c.db.txn.Active? && ScopeActive(env.settings, c.db)
    && c.turn.retryCount == 0 && c.turn.reason == None && c.turn.result == None
    && (n != LoadContext ==> c.turn.query == "") && !c.turn.followup
  }

  lemma ResetToLoad(env: Env, start: Config)
    requires Begins(env, start) && start.db.txn.Active? && ScopeActive(env.settings, start.db)
    ensures Approaching(env, Step(env, start, FAILING), LoadContext) && Faithful(env, start, FAILING)
  {
  }

  lemma LoadToClassify(env: Env, c: Config)
    requires Approaching(env, c, LoadContext)
    ensures Approaching(env, Step(env, c, FAILING), ClassifyIntent) && Faithful(env, c, FAILING)
  {
  }

  lemma ClassifyToAnswer(env: Env, c: Config)
    requires Approaching(env, c, ClassifyIntent)
    ensures Approaching(env, Step(env, c, FAILING), AnswerFromPrevious) && Faithful(env, c, FAILING)
  {
  }

  lemma AnswerToResolve(env: Env, c: Config)
    requires Approaching(env, c, AnswerFromPrevious)
    ensures Approaching(env, Step(env, c, FAILING), ResolveLookup) && Faithful(env, c, FAILING)
  {
  }

  lemma ResolveToPlan(env: Env, c: Config)
    requires Approaching(env, c, ResolveLookup)
    ensures Looping(env, Step(env, c, FAILING), MakePlan, 0) && Faithful(env, c, FAILING)
  {
  }

  // ------------------------------------------------------------------
  // Counting them
  // ------------------------------------------------------------------

  lemma {:induction false} EdgesToEnd(env: Env, c: Config) returns (choices: seq<Choice>)
    requires c.node in {AnalyzeResult, Synthesize, SaveTurn} && !c.stopped
    ensures Finishes(env, c, choices)
    ensures |choices| == if c.node == AnalyzeResult then 3 else if c.node == Synthesize then 2 else 1
    decreases Height(c.node)
  {
    AlongEdge(env, c);
    var rest := [];
    if c.node != SaveTurn { rest := EdgesToEnd(env, Step(env, c, PASSING)); }
    choices := TakeOne(env, c, PASSING, rest);
  }

  /** With every statement but the last failing, each retry costs four steps. */
  lemma {:induction false} PlanTakes(env: Env, c: Config, r: nat) returns (choices: seq<Choice>)
    requires Looping(env, c, MakePlan, r) && r <= env.Retries()
    ensures Finishes(env, c, choices) && |choices| == 6 + 4 * (env.Retries() - r)
    decreases env.Retries() - r, 2
  {
    PlanToValidate(env, c, r);
    var rest := ValidateTakes(env, Step(env, c, FAILING), r);
    choices := TakeOne(env, c, FAILING, rest);
  }

  lemma {:induction false} ValidateTakes(env: Env, c: Config, r: nat) returns (choices: seq<Choice>)
    requires Looping(env, c, ValidateSql, r) && r <= env.Retries()
    ensures Finishes(env, c, choices) && |choices| == 5 + 4 * (env.Retries() - r)
    decreases env.Retries() - r, 1
  {
    ValidateToExecute(env, c, r);
    var rest := ExecuteTakes(env, Step(env, c, FAILING), r);
    choices := TakeOne(env, c, FAILING, rest);
  }

  lemma {:induction false} ExecuteTakes(env: Env, c: Config, r: nat) returns (choices: seq<Choice>)
    requires Looping(env, c, ExecuteSql, r) && r <= env.Retries()
    ensures Finishes(env, c, choices) && |choices| == 4 + 4 * (env.Retries() - r)
    decreases env.Retries() - r, 0
  {
    if r == env.Retries() {
      ExecuteToAnalyze(env, c, r);
      var rest := EdgesToEnd(env, Step(env, c, PASSING));
      choices := TakeOne(env, c, PASSING, rest);
    } else {
      ExecuteToRetry(env, c, r);
      var rest := RetryTakes(env, Step(env, c, FAILING), r);
      choices := TakeOne(env, c, FAILING, rest);
    }
  }

  lemma {:induction false} RetryTakes(env: Env, c: Config, r: nat) returns (choices: seq<Choice>)
    requires Looping(env, c, RetrySql, r) && r < env.Retries()
    ensures Finishes(env, c, choices) && |choices| == 3 + 4 * (env.Retries() - r)
    decreases env.Retries() - r - 1, 3
  {
    RetryToPlan(env, c, r);
    var rest := PlanTakes(env, Step(env, c, FAILING), r + 1);
    choices := TakeOne(env, c, FAILING, rest);
  }

  /** The longest way to the first plan: a follow-up that turns out to need new SQL. */
  lemma {:induction false} ApproachTakes(env: Env, c: Config, n: Node) returns (choices: seq<Choice>)
    requires n in {LoadContext, ClassifyIntent, AnswerFromPrevious, ResolveLookup} && Approaching(env, c, n)
    ensures Finishes(env, c, choices) && |choices| == Height(n) + 4 * env.Retries()
    decreases Height(n)
  {
    var rest;
    if n == ResolveLookup {
      ResolveToPlan(env, c);
      rest := PlanTakes(env, Step(env, c, FAILING), 0);
    } else {
      ApproachStep(env, c, n);
      rest := ApproachTakes(env, Step(env, c, FAILING), Onward(n));
    }
    choices := TakeOne(env, c, FAILING, rest);
  }

  function Onward(n: Node): Node {
    if n == LoadContext then ClassifyIntent else if n == ClassifyIntent then AnswerFromPrevious else ResolveLookup
  }

  lemma ApproachStep(env: Env, c: Config, n: Node)
    requires n in {LoadContext, ClassifyIntent, AnswerFromPrevious} && Approaching(env, c, n)
    ensures Approaching(env, Step(env, c, FAILING), Onward(n)) && Faithful(env, c, FAILING)
    ensures Height(Onward(n)) == Height(n) - 1
  {
    if n == AnswerFromPrevious {
      AnswerToResolve(env, c);
    } else if n == ClassifyIntent {
      ClassifyToAnswer(env, c);
    } else {
      LoadToClassify(env, c);
    }
  }

  lemma MoveOne(done: seq<Choice>, rest: seq<Choice>)
    requires rest != []
    ensures done + [rest[0]] + rest[1..] == done + rest
  {
  }

  lemma {:induction false} FinishesIsARun(env: Env, start: Config, done: seq<Choice>, c: Config, rest: seq<Choice>)
    returns (e: Config)
    requires Runs(env, start, done, c) && Finishes(env, c, rest)
    ensures Runs(env, start, done + rest, e) && e.node == End && !e.stopped
    decreases |rest|
  {
    if rest == [] {
      e := c;
      assert done + rest == done;
    } else {
      var d := Step(env, c, rest[0]);
      ExtendRun(env, start, done, c, rest[0], d);
      e := FinishesIsARun(env, start, done + [rest[0]], d, rest[1..]);
      MoveOne(done, rest);
    }
  }

  /** In a scope that runs SQL, some run takes all 11 + 4 * retries steps. */
  lemma BoundIsReached(env: Env, start: Config) returns (choices: seq<Choice>, e: Config)
    requires Begins(env, start) && start.db.txn.Active? && ScopeActive(env.settings, start.db)
    ensures Runs(env, start, choices, e) && |choices| == 11 + 4 * env.Retries() && e.node == End && !e.stopped
  {
    ResetToLoad(env, start);
    choices := ApproachTakes(env, Step(env, start, FAILING), LoadContext);
    choices := TakeOne(env, start, FAILING, choices);
    e := WholeRun(env, start, choices);
  }

  lemma WholeRun(env: Env, start: Config, choices: seq<Choice>) returns (e: Config)
    requires Finishes(env, start, choices)
    ensures Runs(env, start, choices, e) && e.node == End && !e.stopped
  {
    assert [] + choices == choices;
    e := FinishesIsARun(env, start, [], start, choices);
  }
}
