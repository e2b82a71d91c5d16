/** The database session of one request: the caller's role scope, and the statements run inside it. */
module Session {
  import opened Wrappers

  // ------------------------------------------------------------------
  // What PostgreSQL keeps for a session
  // ------------------------------------------------------------------

  datatype Txn = Idle | Active | Aborted

  /** A savepoint remembers the settings to restore. */
  datatype Mark = Mark(role: string, level: string, path: string)

  /**
   * login is the session user and base the role outside any transaction. role, level (app.role_level,
   * empty when unset) and path (the first schema of search_path) are set locally to the transaction.
   */
  datatype Db = Db(login: string, base: string, role: string, level: string, path: string, txn: Txn, marks: seq<Mark>)

  function Began(db: Db): Db { if db.txn.Idle? then db.(txn := Active) else db }

  function RolledBack(db: Db): Db { db.(role := db.base, level := "", path := "", txn := Idle, marks := []) }

  // ------------------------------------------------------------------
  // Roles
  // ------------------------------------------------------------------

  datatype Settings = Settings(hodRole: string, execRole: string, hodSchema: string, execSchema: string)

  const FALLBACK_ROLE := "ci_copilot_exec"

  predicate IdentStart(c: char) { ('A' <= c <= 'Z') || ('a' <= c <= 'z') || c == '_' }
  predicate IdentPart(c: char) { IdentStart(c) || ('0' <= c <= '9') }

  function WithoutFinalFeed(s: string): string { if s != "" && s[|s| - 1] == '\n' then s[..|s| - 1] else s }

  /** The pattern ^[A-Za-z_][A-Za-z0-9_]*$, whose $ lets one final line feed pass. */
  predicate BareIdent(s: string) {
    var body := WithoutFinalFeed(s);
    body != "" && IdentStart(body[0]) && forall i :: 0 <= i < |body| ==> IdentPart(body[i])
  }

  function SafeIdent(value: string, fallback: string): string { if BareIdent(value) then value else fallback }

  function PersonaRole(s: Settings, level: string): string { if level == "HOD" then s.hodRole else s.execRole }
  function PersonaSchema(s: Settings, level: string): string { if level == "HOD" then s.hodSchema else s.execSchema }

  /** The role and schema copilot_scope selects. */
  function ScopeRole(s: Settings, level: string): string { SafeIdent(PersonaRole(s, level), s.execRole) }
  function ScopeSchema(s: Settings, level: string): string { SafeIdent(PersonaSchema(s, level), s.execSchema) }

  /** The role assert_scope_active expects for a level. */
  function Expected(s: Settings, level: string): Option<string> {
    if level == "HOD" || level == "EXEC" then Some(SafeIdent(PersonaRole(s, level), FALLBACK_ROLE)) else None
  }

  predicate ScopeActive(s: Settings, db: Db) {
    !db.txn.Aborted? && db.level != "" && Expected(s, db.level) == Some(db.role)
  }

  function Scoped(s: Settings, db: Db, level: string): Db {
    Began(db).(role := ScopeRole(s, level), level := level, path := ScopeSchema(s, level))
  }

  // ------------------------------------------------------------------
  // Running one statement
  // ------------------------------------------------------------------

  datatype Row = Row(cells: seq<string>)

  /** What the wrapped statement does: its rows before the cap, an error, or a timeout. */
  datatype Outcome = Returns(rows: seq<Row>) | Fails(message: string) | TimesOut

  /** Everything about a run_sql call that the code does not decide; any of its own commands may fail. */
  datatype SqlRun = SqlRun(maxRows: int, timeoutAccepted: bool, savepointOpens: bool, released: bool,
                           driverError: string, outcome: Outcome)
  {
    predicate Prepared() { timeoutAccepted && savepointOpens }
  }

  datatype Payload = Payload(rows: seq<Row>, truncated: bool, error: Option<string>)

  const SCOPE_ERROR := "SQL must run inside copilot_scope()."
  const TIMEOUT_ERROR := "SQL execution timed out."

  function RowCap(maxRows: int): nat { if maxRows < 1 then 1 else maxRows }

  function Refused(error: string): Payload { Payload([], false, Some(error)) }

  /** What a caller should get: every row up to the cap, and word of any that were dropped. */
  function Answer(run: SqlRun): Payload {
    var cap := RowCap(run.maxRows);
    match run.outcome
    case Returns(rows) =>
      if run.released then Payload(if |rows| <= cap then rows else rows[..cap], |rows| > cap, None)
      else Refused(run.driverError)
    case Fails(message) => Refused(message)
    case TimesOut => Refused(TIMEOUT_ERROR)
  }

  /** The session after a run_sql call. */
  function AfterRun(s: Settings, db: Db, run: SqlRun): Db {
    if ScopeActive(s, Began(db)) && !run.Prepared() then Began(db).(txn := Aborted) else Began(db)
  }

  function RunResult(s: Settings, db: Db, run: SqlRun): Payload {
    if db.txn.Aborted? then Refused(run.driverError)
    else if !ScopeActive(s, Began(db)) then Refused(SCOPE_ERROR)
    else if !run.Prepared() then Refused(run.driverError)
    else Answer(run)
  }

  // ------------------------------------------------------------------
  // Leaving the scope
  // ------------------------------------------------------------------

  /** _safe_reset, whose two commands may each fail and never raise. */
  function AfterSafeReset(db: Db, rollbackWorks: bool, resetWorks: bool): Db {
    var released := if !db.txn.Idle? && rollbackWorks then RolledBack(db) else db;
    if released.txn.Aborted? then released
    else if resetWorks then Began(released).(role := db.login)
    else Began(released).(txn := Aborted)
  }

  /** Which commands of the scope's setup the database accepts. */
  datatype Setup = Setup(granted: bool, gucsAccepted: bool, pathAccepted: bool) {
    predicate Works() { granted && gucsAccepted && pathAccepted }
  }

  class PgSession {
    const settings: Settings
    const login: string
    var base: string
    var role: string
    var level: string
    var path: string
    var txn: Txn
    var marks: seq<Mark>

    function View(): Db
      reads this
    {
      Db(login, base, role, level, path, txn, marks)
    }

    /** A connection from the pool, with whatever role it was left in. */
    constructor (s: Settings, user: string, left: string)
      ensures settings == s && View() == Db(user, left, left, "", "", Idle, [])
    {
      settings, login, base, role, level, path, txn, marks := s, user, left, left, "", "", Idle, [];
    }

    method Begin()
      modifies this
      ensures View() == Began(old(View()))
    {
      if txn.Idle? { txn := Active; }
    }

    method Rollback()
      modifies this
      ensures View() == RolledBack(old(View()))
    {
      role, level, path, txn, marks := base, "", "", Idle, [];
    }

    /** RESET ROLE: fails in an aborted transaction, and may fail otherwise. */
    method ResetRole(works: bool) returns (ok: bool)
      modifies this
      ensures ok <==> works && !old(txn).Aborted?
      ensures View() == if ok then Began(old(View())).(role := login) else if old(txn).Aborted? then old(View())
                        else Began(old(View())).(txn := Aborted)
    {
      if txn.Aborted? { return false; }
      Begin();
      if works { role := login; } else { txn := Aborted; }
      ok := works;
    }

    /** _set_role: RESET ROLE, then SET LOCAL ROLE, which the login user may not be granted. */
    method SetRole(target: string, granted: bool) returns (ok: bool)
      modifies this
      ensures ok <==> granted && !old(txn).Aborted?
      ensures ok ==> View() == Began(old(View())).(role := target)
      ensures !ok && !old(txn).Aborted? ==> View() == old(View()).(role := login, txn := Aborted)
      ensures old(txn).Aborted? ==> View() == old(View())
    {
      ok := ResetRole(true);
      if !ok { return; }
      if granted { role := target; } else { txn := Aborted; }
      ok := granted;
    }

    /** The setup of copilot_scope. */
    method EnterCopilotScope(caller: string, setup: Setup) returns (ok: bool)
      modifies this
      ensures ok <==> setup.Works() && !old(txn).Aborted?
      ensures ok ==> View() == Scoped(settings, old(View()), caller)
      ensures !ok && !old(txn).Aborted? ==>
                txn.Aborted? && role == if setup.granted then ScopeRole(settings, caller) else login
      ensures !ok && old(txn).Aborted? ==> View() == old(View())
    {
      ok := SetRole(ScopeRole(settings, caller), setup.granted);
      if !ok { return; }
      if !setup.gucsAccepted {
        txn := Aborted;
        return false;
      }
      level := caller;
      if !setup.pathAccepted {
        txn := Aborted;
        return false;
      }
      path := ScopeSchema(settings, caller);
    }

    method SafeReset(rollbackWorks: bool, resetWorks: bool)
      modifies this
      ensures View() == AfterSafeReset(old(View()), rollbackWorks, resetWorks)
    {
      if !txn.Idle? && rollbackWorks { Rollback(); }
      var _ := ResetRole(resetWorks);
    }

    /** assert_scope_active: false where it raises. */
    method AssertScopeActive() returns (ok: bool)
      modifies this
      ensures View() == Began(old(View())) && (ok <==> ScopeActive(settings, View()))
    {
      Begin();
      if txn.Aborted? { return false; }
      if level == "" { return false; }
      var expected := Expected(settings, level);
      if expected.None? { return false; }
      ok := role == expected.value;
    }

    method Savepoint()
      requires txn.Active?
      modifies this
      ensures View() == old(View()).(marks := old(marks) + [Mark(role, level, path)])
    {
      marks := marks + [Mark(role, level, path)];
    }

    /** Leaving begin_nested: release after success, roll back to the savepoint after an error. */
    method EndNested(failed: bool)
      requires marks != [] && (failed ==> txn.Aborted?) && (!failed ==> txn.Active?)
      modifies this
      ensures var m := old(marks)[|old(marks)| - 1];
              View() == if failed then old(View()).(txn := Active, marks := old(marks)[..|old(marks)| - 1],
                                                    role := m.role, level := m.level, path := m.path)
                        else old(View()).(marks := old(marks)[..|old(marks)| - 1])
    {
      var m := marks[|marks| - 1];
      if failed { txn, role, level, path := Active, m.role, m.level, m.path; }
      marks := marks[..|marks| - 1];
    }

    /** run_sql. */
    method RunSql(run: SqlRun) returns (payload: Payload)
      modifies this
      ensures View() == AfterRun(settings, old(View()), run)
      ensures payload == RunResult(settings, old(View()), run)
    {
      var cap := RowCap(run.maxRows);
      var aborted := txn.Aborted?;
      var active := AssertScopeActive();
      if !active { return Refused(if aborted then run.driverError else SCOPE_ERROR); }
      if !run.timeoutAccepted {
        txn := Aborted;
        return Refused(run.driverError);
      }
      if !run.savepointOpens {
        txn := Aborted;
        return Refused(run.driverError);
      }
      Savepoint();
      match run.outcome {
        case Returns(rows) =>
          // The database stops at one row past the cap.
          var mappings := if |rows| > cap + 1 then rows[..cap + 1] else rows;
          if !run.released {
            txn := Aborted;
            EndNested(true);
            return Refused(run.driverError);
          }
          EndNested(false);
          var truncated := |mappings| > cap;
          if truncated { mappings := mappings[..cap]; }
          payload := Payload(mappings, truncated, None);
        case Fails(message) =>
          txn := Aborted;
          EndNested(true);
          payload := Refused(message);
        case TimesOut =>
          txn := Aborted;
          EndNested(true);
          payload := Refused(TIMEOUT_ERROR);
      }
    }
  }

  // ------------------------------------------------------------------
  // The scope over any number of statements
  // ------------------------------------------------------------------

  /** The transaction is open and carries the settings of the caller's scope. */
  predicate ScopeHeld(s: Settings, db: Db, level: string) {
    !db.txn.Idle? && db.role == ScopeRole(s, level) && db.level == level && db.path == ScopeSchema(s, level)
  }

  function AfterRuns(s: Settings, db: Db, runs: seq<SqlRun>): Db {
    if runs == [] then db else AfterRun(s, AfterRuns(s, db, runs[..|runs| - 1]), runs[|runs| - 1])
  }

  /** Any mix of failing, timing-out and succeeding statements leaves the caller's scope in place. */
  lemma {:induction false} ScopeOverStatements(s: Settings, db: Db, level: string, runs: seq<SqlRun>)
    requires !db.txn.Aborted?
    ensures ScopeHeld(s, AfterRuns(s, Scoped(s, db, level), runs), level)
  {
    if runs != [] { ScopeOverStatements(s, db, level, runs[..|runs| - 1]); }
  }

  /** A failed or timed-out statement does not stop the next one: the retry still gets an answer. */
  lemma RetryStillRuns(s: Settings, db: Db, bad: SqlRun, next: SqlRun)
    requires ScopeActive(s, db) && !db.txn.Idle? && bad.Prepared() && next.Prepared()
    ensures RunResult(s, AfterRun(s, db, bad), next) == Answer(next)
  {
  }

  /** In its scope a caller of a known level passes the role assertion exactly when the two fallbacks agree. */
  lemma ScopeAssertIff(s: Settings, db: Db, level: string)
    requires !db.txn.Aborted?
    ensures ScopeActive(s, Scoped(s, db, level)) <==>
            (level == "HOD" || level == "EXEC") && (BareIdent(PersonaRole(s, level)) || s.execRole == FALLBACK_ROLE)
  {
  }

  /** A full rollback loses the scope, and every later statement is then refused, not run. */
  lemma RollbackRefusesSql(s: Settings, db: Db, run: SqlRun)
    ensures RunResult(s, RolledBack(db), run) == Refused(SCOPE_ERROR)
    ensures AfterRun(s, RolledBack(db), run).role == db.base
  {
  }

  /** The role and the schema are a matched pair: an executive's scope is the HOD's in neither. */
  lemma MatchedPair(s: Settings, db: Db, level: string)
    requires BareIdent(s.hodRole) && BareIdent(s.execRole) && s.hodRole != s.execRole
    requires BareIdent(s.hodSchema) && BareIdent(s.execSchema) && s.hodSchema != s.execSchema
    ensures var scope := Scoped(s, db, level);
            (scope.role == s.hodRole <==> level == "HOD") && (scope.path == s.hodSchema <==> level == "HOD")
            && (scope.role == s.execRole <==> level != "HOD") && (scope.path == s.execSchema <==> level != "HOD")
  {
  }

  /** On exit the role is the login role exactly when the reset ran, or the rollback already left it so. */
  lemma ExitRoleIff(db: Db, rollbackWorks: bool, resetWorks: bool)
    ensures AfterSafeReset(db, rollbackWorks, resetWorks).role == db.login <==>
            || (resetWorks && (rollbackWorks || !db.txn.Aborted?))
            || (if rollbackWorks && !db.txn.Idle? then db.base else db.role) == db.login
  {
  }

  /**
   * In its scope a statement that returns rows gets the first MAX_QUERY_ROWS of them, at least one, and
   * word of a truncation exactly when there were more.
   */
  lemma TruncationIsExact(s: Settings, db: Db, run: SqlRun)
    requires ScopeActive(s, Began(db)) && run.Prepared() && run.released && run.outcome.Returns?
    ensures var rows, p := run.outcome.rows, RunResult(s, db, run);
            && p.error == None
            && (run.maxRows >= 1 ==>
                  p.rows == rows[..if |rows| <= run.maxRows then |rows| else run.maxRows]
                  && (p.truncated <==> |rows| > run.maxRows))
            && (run.maxRows < 1 ==>
                  p.rows == rows[..if |rows| <= 1 then |rows| else 1] && (p.truncated <==> |rows| > 1))
  {
  }

  /** Everything else a run_sql call can end in: no rows, and an error that says which. */
  lemma NoRowsWithoutAnswer(s: Settings, db: Db, run: SqlRun)
    requires !(ScopeActive(s, Began(db)) && run.Prepared() && run.released && run.outcome.Returns?)
    ensures var p := RunResult(s, db, run);
            && p.rows == [] && !p.truncated && p.error.Some?
            && (!db.txn.Aborted? && !ScopeActive(s, Began(db)) ==>
                  p.error.value == "SQL must run inside copilot_scope().")
            && (ScopeActive(s, Began(db)) && run.Prepared() && run.outcome.TimesOut? ==>
                  p.error.value == "SQL execution timed out.")
            && (ScopeActive(s, Began(db)) && run.Prepared() && run.outcome.Fails? ==>
                  p.error.value == run.outcome.message)
  {
  }

  // ------------------------------------------------------------------
  // Role and schema names
  // ------------------------------------------------------------------

  /** A name fit to stand in a command: a letter or underscore, then letters, digits and underscores. */
  predicate PlainName(s: string) {
    s != "" && !('0' <= s[0] <= '9')
    && forall i :: 0 <= i < |s| ==>
         'a' <= s[i] <= 'z' || 'A' <= s[i] <= 'Z' || '0' <= s[i] <= '9' || s[i] == '_'
  }

  /** The pattern lets exactly these names pass, and each with one line feed behind it. */
  lemma BareIdentIff(s: string)
    ensures BareIdent(s) <==> PlainName(s) || (s != "" && s[|s| - 1] == '\n' && PlainName(s[..|s| - 1]))
  {
    PlainBody(WithoutFinalFeed(s));
  }

  lemma PlainBody(body: string)
    ensures PlainName(body) <==>
            body != "" && IdentStart(body[0]) && forall i :: 0 <= i < |body| ==> IdentPart(body[i])
  {
    if PlainName(body) {
      forall i | 0 <= i < |body| ensures IdentPart(body[i]) { }
      assert IdentStart(body[0]);
    }
  }

  /** Whatever the settings: an ill-formed role or schema gives way to the executive's, never to the HOD's. */
  lemma IllFormedNamesFallBack(s: Settings, db: Db, level: string)
    ensures var scope := Scoped(s, db, level);
            && (level != "HOD" ==> scope.role == s.execRole && scope.path == s.execSchema)
            && (level == "HOD" ==> scope.role == if BareIdent(s.hodRole) then s.hodRole else s.execRole)
            && (level == "HOD" ==> scope.path == if BareIdent(s.hodSchema) then s.hodSchema else s.execSchema)
  {
  }

  /** The assertion falls back to a fixed name instead, and knows the two levels only. */
  lemma ExpectedRoleIs(s: Settings, db: Db)
    ensures ScopeActive(s, db) <==>
            && !db.txn.Aborted? && (db.level == "HOD" || db.level == "EXEC")
            && (db.level == "HOD" ==> db.role == if BareIdent(s.hodRole) then s.hodRole else "ci_copilot_exec")
            && (db.level == "EXEC" ==> db.role == if BareIdent(s.execRole) then s.execRole else "ci_copilot_exec")
  {
  }
}
