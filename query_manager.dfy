/** The query manager: the registry from query-type names (including five legacy aliases)
    to templates, the execution facade with its outcome table over the database's answer,
    and the catalogue of descriptions. */
module QueryManagement {
  import opened Wrappers
  import opened Text
  import opened Status
  import opened TableSchemas
  import opened LoanQueries
  import opened TransactionQueries
  import opened AccountingQueries
  import opened DatabaseConnections

  /** A template the registry can point at: one of the sixteen query methods. */
  datatype QueryName =
    | Loan(loan: LoanQuery)
    | Transaction(transaction: TransactionQuery)
    | Accounting(accounting: AccountingQuery)
  {
    /** The SQL text the registered method returns. */
    function Sql(): string
    {
      match this
      case Loan(q) => q.Sql()
      case Transaction(q) => q.Sql()
      case Accounting(q) => q.Sql()
    }

    /** The table the template selects from. */
    function Source(): TableRef
    {
      if Loan? then HistoricalLoans else RawTransactions
    }

    /** The primary registry key of the template (the key named after its method). */
    function Key(): string
    {
      match this
      case Loan(LoanSummary) => "loan_summary"
      case Loan(LoanStatusDistribution) => "loan_status_distribution"
      case Loan(GradeAnalysis) => "grade_analysis"
      case Loan(PurposeAnalysis) => "purpose_analysis"
      case Loan(StateDistribution) => "state_distribution"
      case Loan(MonthlyLoanTrend) => "monthly_loan_trend"
      case Loan(RiskAnalysis) => "risk_analysis"
      case Loan(EmploymentAnalysis) => "employment_analysis"
      case Transaction(TransactionSummary) => "transaction_summary"
      case Transaction(TransactionByStatus) => "transaction_by_status"
      case Transaction(TransactionByPurpose) => "transaction_by_purpose"
      case Transaction(PaymentAnalysis) => "payment_analysis"
      case Accounting(AccountingTreatmentAnalysis) => "accounting_treatment_analysis"
      case Accounting(BalanceAnalysis) => "balance_analysis"
      case Accounting(AccountingByState) => "accounting_by_state"
      case Accounting(InterestAnalysis) => "interest_analysis"
    }
  }

  /** `query_registry`: sixteen primary keys, then the five legacy aliases. */
  const Registry: map<string, QueryName> := map[
    "loan_summary" := Loan(LoanSummary),
    "loan_status_distribution" := Loan(LoanStatusDistribution),
    "grade_analysis" := Loan(GradeAnalysis),
    "purpose_analysis" := Loan(PurposeAnalysis),
    "state_distribution" := Loan(StateDistribution),
    "monthly_loan_trend" := Loan(MonthlyLoanTrend),
    "risk_analysis" := Loan(RiskAnalysis),
    "employment_analysis" := Loan(EmploymentAnalysis),
    "transaction_summary" := Transaction(TransactionSummary),
    "transaction_by_status" := Transaction(TransactionByStatus),
    "transaction_by_purpose" := Transaction(TransactionByPurpose),
    "payment_analysis" := Transaction(PaymentAnalysis),
    "accounting_treatment_analysis" := Accounting(AccountingTreatmentAnalysis),
    "balance_analysis" := Accounting(BalanceAnalysis),
    "accounting_by_state" := Accounting(AccountingByState),
    "interest_analysis" := Accounting(InterestAnalysis),
    "overview" := Loan(LoanSummary),
    "loan_status" := Loan(LoanStatusDistribution),
    "monthly_trends" := Loan(MonthlyLoanTrend),
    "transactions" := Transaction(TransactionSummary),
    "accounting" := Accounting(AccountingTreatmentAnalysis)
  ]

  /** The registry's keys in insertion order, as `query_registry.keys()` yields them. */
  const RegistryKeys: seq<string> := [
    "loan_summary",
    "loan_status_distribution",
    "grade_analysis",
    "purpose_analysis",
    "state_distribution",
    "monthly_loan_trend",
    "risk_analysis",
    "employment_analysis",
    "transaction_summary",
    "transaction_by_status",
    "transaction_by_purpose",
    "payment_analysis",
    "accounting_treatment_analysis",
    "balance_analysis",
    "accounting_by_state",
    "interest_analysis",
    "overview",
    "loan_status",
    "monthly_trends",
    "transactions",
    "accounting"
  ]

  /** The keys kept only for backward compatibility. */
  const Aliases: set<string> := {"overview", "loan_status", "monthly_trends", "transactions", "accounting"}

  /** `get_available_queries()`: a description for each primary query type. */
  const Descriptions: map<string, string> := map[
    "loan_summary" :=
      "\U{1F4CA} Overall loan portfolio summary with key metrics",
    "loan_status_distribution" :=
      "\U{1F4C8} Distribution of loans by status",
    "grade_analysis" :=
      "\U{1F3C6} Analysis by loan grade (A-G)",
    "purpose_analysis" :=
      "\U{1F3AF} Analysis by loan purpose",
    "state_distribution" :=
      "\U{1F5FA}\U{FE0F} Geographic distribution by state",
    "monthly_loan_trend" :=
      "\U{1F4C5} Monthly loan origination trends",
    "risk_analysis" :=
      "\U{26A0}\U{FE0F} Risk analysis by grade and status",
    "employment_analysis" :=
      "\U{1F454} Analysis by employment length",
    "transaction_summary" :=
      "\U{1F4B0} Overall accounting transaction summary",
    "transaction_by_status" :=
      "\U{1F4CA} Accounting transactions by status",
    "transaction_by_purpose" :=
      "\U{1F3AF} Accounting transactions by purpose",
    "payment_analysis" :=
      "\U{1F3E6} Accounting analysis by transaction type",
    "accounting_treatment_analysis" :=
      "\U{1F4CB} Accounting treatment analysis with lookups",
    "balance_analysis" :=
      "\U{1F4B3} Balance analysis by type and status",
    "accounting_by_state" :=
      "\U{1F5FA}\U{FE0F} Accounting transactions by state",
    "interest_analysis" :=
      "\U{1F4C8} Accrued interest analysis"
  ]

  lemma LoanKeysResolve(q: LoanQuery)
    ensures Loan(q).Key() in Registry && Registry[Loan(q).Key()] == Loan(q)
    ensures Loan(q).Key() !in Aliases
  {
  }

  lemma TransactionKeysResolve(q: TransactionQuery)
    ensures Transaction(q).Key() in Registry && Registry[Transaction(q).Key()] == Transaction(q)
    ensures Transaction(q).Key() !in Aliases
  {
  }

  lemma AccountingKeysResolve(q: AccountingQuery)
    ensures Accounting(q).Key() in Registry && Registry[Accounting(q).Key()] == Accounting(q)
    ensures Accounting(q).Key() !in Aliases
  {
  }

  /** Every template is registered under its primary key, which is not an alias. */
  lemma PrimaryKeysResolve(q: QueryName)
    ensures q.Key() in Registry && Registry[q.Key()] == q
    ensures q.Key() !in Aliases
  {
    match q
    case Loan(l) => LoanKeysResolve(l);
    case Transaction(t) => TransactionKeysResolve(t);
    case Accounting(a) => AccountingKeysResolve(a);
  }

  /** Each legacy alias is bound to the same template as its primary key. */
  lemma AliasesResolve()
    ensures Registry["overview"] == Registry["loan_summary"] == Loan(LoanSummary)
    ensures Registry["loan_status"] == Registry["loan_status_distribution"] == Loan(LoanStatusDistribution)
    ensures Registry["monthly_trends"] == Registry["monthly_loan_trend"] == Loan(MonthlyLoanTrend)
    ensures Registry["transactions"] == Registry["transaction_summary"] == Transaction(TransactionSummary)
    ensures Registry["accounting"] == Registry["accounting_treatment_analysis"] == Accounting(AccountingTreatmentAnalysis)
  {
    LoanKeysResolve(LoanSummary);
    LoanKeysResolve(LoanStatusDistribution);
    LoanKeysResolve(MonthlyLoanTrend);
    TransactionKeysResolve(TransactionSummary);
    AccountingKeysResolve(AccountingTreatmentAnalysis);
  }

  /** The key list holds exactly the registry's keys, each once: 16 primary keys and 5 aliases. */
  lemma RegistryKeysListed()
    ensures forall k :: k in Registry <==> k in RegistryKeys
  {
  }

  lemma RegistryKeysDistinct()
    ensures forall i, j :: 0 <= i < j < |RegistryKeys| ==> RegistryKeys[i] != RegistryKeys[j]
    ensures |RegistryKeys| == 21 && |Aliases| == 5
  {
  }

  /** A registered key is an alias exactly when the template it names has another primary key. */
  lemma AliasesAreTheOtherKeys()
    ensures forall k :: k in Aliases <==> k in Registry && Registry[k].Key() != k
  {
  }

  /** The catalogue describes exactly the primary keys. */
  lemma DescriptionsCoverPrimaryKeys()
    ensures forall k :: k in Descriptions <==> k in Registry && k !in Aliases
  {
  }

  /** No description is empty. */
  lemma DescriptionsNonEmpty()
    ensures forall k :: k in Descriptions ==> |Descriptions[k]| > 0
  {
  }

  /** `SqlReadsItsTable` for the loan templates. */
  lemma LoanReadsItsTable(q: QueryName)
    requires q.Loan?
    ensures Contains(q.Sql(), "SELECT")
    ensures Contains(q.Sql(), "FROM " + q.Source().QualifiedName())
  {
    LoanSqlReadsLoans(q.loan);
  }

  /** `SqlReadsItsTable` for the transaction templates. */
  lemma TransactionReadsItsTable(q: QueryName)
    requires q.Transaction?
    ensures Contains(q.Sql(), "SELECT")
    ensures Contains(q.Sql(), "FROM " + q.Source().QualifiedName())
  {
    TransactionSqlReadsTransactions(q.transaction);
  }

  /** `SqlReadsItsTable` for the accounting templates. */
  lemma AccountingReadsItsTable(q: QueryName)
    requires q.Accounting?
    ensures Contains(q.Sql(), "SELECT")
    ensures Contains(q.Sql(), "FROM " + q.Source().QualifiedName())
  {
    AccountingSqlReadsTransactions(q.accounting);
  }

  /** Each template's SQL is a `SELECT` from the table it belongs to: loan templates read
      `historical_loans`, the others `raw_transactions`. */
  lemma SqlReadsItsTable(q: QueryName)
    ensures Contains(q.Sql(), "SELECT")
    ensures Contains(q.Sql(), "FROM " + q.Source().QualifiedName())
  {
    match q
    case Loan(_) => LoanReadsItsTable(q);
    case Transaction(_) => TransactionReadsItsTable(q);
    case Accounting(_) => AccountingReadsItsTable(q);
  }

  /** Whatever registered name is asked for, aliases included, the SQL sent is a `SELECT`
      from the table of the template it names. */
  lemma RegistrySqlReadsItsTable(k: string)
    requires k in Registry
    ensures Contains(Registry[k].Sql(), "SELECT")
    ensures Contains(Registry[k].Sql(), "FROM " + Registry[k].Source().QualifiedName())
  {
    SqlReadsItsTable(Registry[k]);
  }

  /** The facade's outcome table for one answer of the database: the data of a result that
      carries data, otherwise `None` with exactly one status message, a warning when nothing
      came back and an error (the prefix followed by the exception text) when it raised. */
  function Settle(a: Answer, noResults: string, failurePrefix: string): (r: (Option<Frame>, seq<Message>))
    ensures r.0.Some? <==> a.Returned? && a.result.data.Some?
    ensures r.0.Some? ==> r.0 == a.result.data && r.1 == []
    ensures r.0.None? ==> |r.1| == 1
    ensures r.0.None? && !a.Raised? ==> r.1 == [Warning(noResults)]
    ensures a.Raised? ==> r.1 == [Error(failurePrefix + a.message)]
  {
    match a
    case Returned(res) => if res.data.Some? then (res.data, []) else (None, [Warning(noResults)])
    case NoResult => (None, [Warning(noResults)])
    case Raised(e) => (None, [Error(failurePrefix + e)])
  }

  /** One error and one warning can never both come out of a single answer. */
  lemma SettleEmitsAtMostOne(a: Answer, noResults: string, failurePrefix: string)
    ensures ErrorCount(Settle(a, noResults, failurePrefix).1) + WarningCount(Settle(a, noResults, failurePrefix).1) <= 1
    ensures Settle(a, noResults, failurePrefix).0.None? ==>
              ErrorCount(Settle(a, noResults, failurePrefix).1) + WarningCount(Settle(a, noResults, failurePrefix).1) == 1
  {
    var ms := Settle(a, noResults, failurePrefix).1;
    if ms != [] {
      assert ms[1..] == [];
    }
  }

  /** An empty table that did come back is handed to the caller as it is, with no warning:
      only a missing result or missing data counts as "no results". */
  lemma EmptyFrameIsReturned(f: Frame, m: Metadata, noResults: string, failurePrefix: string)
    requires f.Empty()
    ensures Settle(Returned(QueryResult(Some(f), m)), noResults, failurePrefix) == (Some(f), [])
  {
  }

  function NoResultsWarning(queryType: string): string
  {
    Caution + "Query '" + queryType + "' returned no results"
  }

  function FailurePrefix(queryType: string): string
  {
    Cross + "Failed to execute query '" + queryType + "': "
  }

  function UnknownQueryError(queryType: string): Message
  {
    Error(Cross + "Unknown query type: " + queryType)
  }

  const CustomNoResults := Caution + "Custom query returned no results"
  const CustomFailurePrefix := Cross + "Custom query failed: "

  class QueryManager {
    const db: Backend
    /** `query_registry`, and its keys in insertion order. */
    const registry: map<string, QueryName>
    const registryKeys: seq<string>
    /** Calling a registry entry: the bound method of the manager's `LoanQueries`,
        `TransactionQueries` or `AccountingQueries` instance that it names. */
    const render: QueryName -> string

    /** The registry is the constant `Registry`, and each entry renders its template's SQL. */
    ghost predicate Valid()
    {
      registry == Registry && registryKeys == RegistryKeys &&
      forall q {:trigger q.Sql()} :: render(q) == q.Sql()
    }

    /** `QueryManager()`: a registry as `Valid` says, and the connection it builds is the
        given backend. */
    constructor (db: Backend)
      ensures this.db == db && Valid()
    {
      this.db := db;
      registry := Registry;
      registryKeys := RegistryKeys;
      render := (q: QueryName) => q.Sql();
      new;
      forall q ensures render(q) == q.Sql() {
      }
    }

    /** `execute_predefined_query`: an unregistered name is reported, with the list of known
        names, without touching the database; a registered one sends its template's SQL to
        the database once and settles the answer. */
    method ExecutePredefinedQuery(queryType: string) returns (r: Option<Frame>)
      modifies db`received, db.ui
      ensures queryType !in registry ==>
                r.None? && db.received == old(db.received) &&
                db.ui.messages == old(db.ui.messages) +
                  [UnknownQueryError(queryType), Info("Available query types: " + Join(registryKeys, ", "))]
      ensures queryType in registry ==>
                db.received == old(db.received) + [render(registry[queryType])] &&
                var s := Settle(db.answers(render(registry[queryType])), NoResultsWarning(queryType), FailurePrefix(queryType));
                r == s.0 && db.ui.messages == old(db.ui.messages) + s.1
    {
      if queryType !in registry {
        db.ui.Emit(UnknownQueryError(queryType));
        db.ui.Emit(Info("Available query types: " + Join(registryKeys, ", ")));
        return None;
      }
      var querySql := render(registry[queryType]);
      var result := ExecuteQueryCached(querySql, queryType);
      r := ReportAnswer(result, NoResultsWarning(queryType), FailurePrefix(queryType));
    }

    /** `_execute_query_cached`: the Streamlit data cache is a pass-through here. */
    method ExecuteQueryCached(querySql: string, queryType: string) returns (a: Answer)
      modifies db`received
      ensures db.received == old(db.received) + [querySql]
      ensures a == db.answers(querySql)
    {
      a := db.ExecuteQuery(querySql);
    }

    /** The `if result and result['data'] is not None` test and its `else`/`except` arms. */
    method ReportAnswer(result: Answer, noResults: string, failurePrefix: string) returns (r: Option<Frame>)
      modifies db.ui
      ensures r == Settle(result, noResults, failurePrefix).0
      ensures db.ui.messages == old(db.ui.messages) + Settle(result, noResults, failurePrefix).1
    {
      match result {
        case Returned(res) =>
          if res.data.Some? {
            r := res.data;
          } else {
            db.ui.Emit(Warning(noResults));
            r := None;
          }
        case NoResult =>
          db.ui.Emit(Warning(noResults));
          r := None;
        case Raised(e) =>
          db.ui.Emit(Error(failurePrefix + e));
          r := None;
      }
    }

    /** `execute_custom_query`: the text goes to the database unchanged and the answer is
        settled by the same table. */
    method ExecuteCustomQuery(query: string) returns (r: Option<Frame>)
      modifies db`received, db.ui
      ensures db.received == old(db.received) + [query]
      ensures r == Settle(db.answers(query), CustomNoResults, CustomFailurePrefix).0
      ensures db.ui.messages == old(db.ui.messages) + Settle(db.answers(query), CustomNoResults, CustomFailurePrefix).1
    {
      var result := db.ExecuteQuery(query);
      r := ReportAnswer(result, CustomNoResults, CustomFailurePrefix);
    }

    /** `test_connection`: the connection's own probe. */
    method TestConnection() returns (ok: bool)
      modifies db`received, db.ui
      ensures db.received == old(db.received) + [TestQuery]
      ensures ok == ProbeResult(db.answers(TestQuery))
      ensures db.ui.messages == old(db.ui.messages) + ProbeMessages(db.answers(TestQuery))
    {
      ok := db.TestConnection();
    }

    /** `get_available_queries`: one non-empty description per primary query type, and none
        for the legacy aliases. */
    method GetAvailableQueries() returns (d: map<string, string>)
      ensures d == Descriptions
      ensures forall k :: k in d <==> k in Registry && k !in Aliases
      ensures forall k :: k in d ==> |d[k]| > 0
    {
      d := Descriptions;
      DescriptionsCoverPrimaryKeys();
      DescriptionsNonEmpty();
    }
  }
}
