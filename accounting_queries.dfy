/** The four accounting templates: constant SQL over `raw_transactions`, one of them
    joined to the `ref_accounting` lookup. */
module AccountingQueries {
  import opened Text
  import opened TableSchemas
  import opened Templates

  datatype AccountingQuery = AccountingTreatmentAnalysis | BalanceAnalysis | AccountingByState | InterestAnalysis
  {
    function Sql(): string
    {
      Render(Parts())
    }

    /** The template's pieces, in order. */
    function Parts(): seq<Part>
    {
      match this
      case AccountingTreatmentAnalysis => AccountingTreatmentAnalysisParts()
      case BalanceAnalysis => BalanceAnalysisParts()
      case AccountingByState => AccountingByStateParts()
      case InterestAnalysis => InterestAnalysisParts()
    }
  }

  /** The join condition from a transaction to its treatment: the text id cast to the
      lookup table's numeric key. */
  const TreatmentJoinKey := "CAST(rt.accounting_treatment_id AS LONG) = ra.id"

  /** The `CASE` branch that divides by the summed balance only when that sum is positive. */
  const PositiveBalanceGuard :=
    "WHEN SUM(CAST(COALESCE(balance, "
    + "'0') AS DOUBLE)) > 0"

  /** The filter every accounting template applies: a balance that is present and not the
      empty string; `alias` is the table alias prefix (`rt.` in the joined template). */
  function BalancePresent(alias: string): string
  {
    alias + ("balance IS NOT NULL" + " AND ") + alias + "balance != ''"
  }

  lemma BalancePresentText(s: string, alias: string)
    requires Contains(s, BalancePresent(alias))
    ensures Contains(s, "balance IS NOT NULL")
    ensures Contains(s, "balance != ''")
  {
    var x := "balance IS NOT NULL" + " AND ";
    ContainsDropLeft(s, alias + x + alias, "balance != ''");
    ContainsDropRight(s, alias + x + alias, "balance != ''");
    ContainsDropRight(s, alias + x, alias);
    ContainsDropLeft(s, alias, x);
    ContainsDropRight(s, "balance IS NOT NULL", " AND ");
  }

  /** What every accounting template shares: constant text that reads `raw_transactions`
      and keeps only rows whose balance is present and non-empty. */
  predicate AccountingShape(parts: seq<Part>, alias: string)
  {
    Lit("SELECT") in parts &&
    Lit("FROM " + RawTransactions.QualifiedName()) in parts &&
    Lit(BalancePresent(alias)) in parts &&
    NoInterpolation(parts)
  }

  /** What the shape means for the SQL text. */
  lemma AccountingShapeText(parts: seq<Part>, alias: string)
    requires AccountingShape(parts, alias)
    ensures Contains(Render(parts), "SELECT")
    ensures Contains(Render(parts), "FROM " + RawTransactions.QualifiedName())
    ensures Contains(Render(parts), RawTransactions.QualifiedName())
    ensures Contains(Render(parts), "balance IS NOT NULL")
    ensures Contains(Render(parts), "balance != ''")
  {
    RenderContains(parts, Lit("SELECT"));
    RenderReadsFrom(parts, RawTransactions);
    RenderContains(parts, Lit(BalancePresent(alias)));
    BalancePresentText(Render(parts), alias);
  }

  /** A template holding the treatment join names the lookup table and the join key. */
  lemma TreatmentJoinText(parts: seq<Part>)
    requires Lit("LEFT JOIN " + RefAccounting.QualifiedName()) in parts
    requires Lit(TreatmentJoinKey) in parts
    ensures Contains(Render(parts), RefAccounting.QualifiedName())
    ensures Contains(Render(parts), TreatmentJoinKey)
  {
    RenderContains(parts, Lit("LEFT JOIN " + RefAccounting.QualifiedName()));
    ContainsDropLeft(Render(parts), "LEFT JOIN ", RefAccounting.QualifiedName());
    RenderContains(parts, Lit(TreatmentJoinKey));
  }

  /** `get_accounting_treatment_analysis`. */
  function AccountingTreatmentAnalysisParts(): seq<Part>
  {
    [
      Lit(
        "\n"
        + "            "),
      Lit("SELECT"),
      Lit(
        " \n"
        + "                "),
      Lit(OrUnknown("ra.accounting_treatment")),
      Lit(
        " as treatment_type,\n"
        + "                "
        + "COUNT(rt.id) as "
        + "transaction_count,\n"
        + "                "
        + "SUM(CAST(COALESCE(rt.balance, "
        + "\'0\') AS DOUBLE)) as "
        + "total_balance,\n"
        + "                "
        + "AVG(CAST(COALESCE(rt.balance, "
        + "\'0\') AS DOUBLE)) as "
        + "avg_balance,\n"
        + "                "
        + "SUM(CAST(COALESCE(rt.accrued_interest, "
        + "\'0\') AS DOUBLE)) as "
        + "total_accrued_interest,\n"
        + "                "
        + "AVG(CAST(COALESCE(rt.accrued_interest, "
        + "\'0\') AS DOUBLE)) as "
        + "avg_accrued_interest\n"
        + "            "),
      Lit("FROM " + RawTransactions.QualifiedName()),
      Lit(
        " rt\n"
        + "            "),
      Lit("LEFT JOIN " + RefAccounting.QualifiedName()),
      Lit(
        " ra \n"
        + "                ON "),
      Lit(TreatmentJoinKey),
      Lit(
        "\n"
        + "            WHERE "),
      Lit(BalancePresent("rt.")),
      Lit(
        "\n"
        + "            "
        + "GROUP BY ra.accounting_treatment\n"
        + "            "
        + "ORDER BY total_balance DESC\n"
        + "        ")
    ]
  }

  /** `get_balance_analysis`. */
  function BalanceAnalysisParts(): seq<Part>
  {
    [
      Lit(
        "\n"
        + "            "),
      Lit("SELECT"),
      Lit(
        " \n"
        + "                "),
      Lit(OrUnknown("type")),
      Lit(
        " as transaction_type,\n"
        + "                "),
      Lit(OrUnknown("status")),
      Lit(
        " as transaction_status,\n"
        + "                "
        + "COUNT(*) as transaction_count,\n"
        + "                "
        + "SUM(CAST(COALESCE(balance, \'0\') "
        + "AS DOUBLE)) as total_balance,\n"
        + "                "
        + "AVG(CAST(COALESCE(balance, \'0\') "
        + "AS DOUBLE)) as avg_balance,\n"
        + "                "
        + "MIN(CAST(COALESCE(balance, \'0\') "
        + "AS DOUBLE)) as min_balance,\n"
        + "                "
        + "MAX(CAST(COALESCE(balance, \'0\') "
        + "AS DOUBLE)) as max_balance\n"
        + "            "),
      Lit("FROM " + RawTransactions.QualifiedName()),
      Lit(
        "\n"
        + "            WHERE "),
      Lit(BalancePresent("")),
      Lit(
        "\n"
        + "            "
        + "GROUP BY type, status\n"
        + "            "
        + "ORDER BY total_balance DESC\n"
        + "        ")
    ]
  }

  /** `get_accounting_by_state`. */
  function AccountingByStateParts(): seq<Part>
  {
    [
      Lit(
        "\n"
        + "            "),
      Lit("SELECT"),
      Lit(
        " \n"
        + "                "),
      Lit(OrUnknown("state_code")),
      Lit(
        " as state_code,\n"
        + "                "
        + "COUNT(*) as transaction_count,\n"
        + "                "
        + "SUM(CAST(COALESCE(balance, \'0\') "
        + "AS DOUBLE)) as total_balance,\n"
        + "                "
        + "AVG(CAST(COALESCE(balance, \'0\') "
        + "AS DOUBLE)) as avg_balance,\n"
        + "                "
        + "SUM(CAST(COALESCE(accrued_interest, "
        + "\'0\') AS DOUBLE)) as "
        + "total_accrued_interest,\n"
        + "                "
        + "COUNT(DISTINCT type) as "
        + "transaction_types\n"
        + "            "),
      Lit("FROM " + RawTransactions.QualifiedName()),
      Lit(
        "\n"
        + "            WHERE "),
      Lit(BalancePresent("")),
      Lit(
        " AND state_code IS NOT NULL\n"
        + "            GROUP BY state_code\n"
        + "            "
        + "ORDER BY total_balance DESC\n"
        + "        ")
    ]
  }

  /** `get_interest_analysis`. */
  function InterestAnalysisParts(): seq<Part>
  {
    [
      Lit(
        "\n"
        + "            "),
      Lit("SELECT"),
      Lit(
        " \n"
        + "                "),
      Lit(OrUnknown("type")),
      Lit(
        " as transaction_type,\n"
        + "                "
        + "COUNT(*) as transaction_count,\n"
        + "                "
        + "SUM(CAST(COALESCE(accrued_interest, "
        + "\'0\') AS DOUBLE)) as "
        + "total_accrued_interest,\n"
        + "                "
        + "AVG(CAST(COALESCE(accrued_interest, "
        + "\'0\') AS DOUBLE)) as "
        + "avg_accrued_interest,\n"
        + "                "
        + "SUM(CAST(COALESCE(balance, \'0\') "
        + "AS DOUBLE)) as total_balance,\n"
        + "                CASE \n"
        + "                    "),
      Lit(PositiveBalanceGuard),
      Lit(
        " \n"
        + "                    "
        + "THEN "
        + "SUM(CAST(COALESCE(accrued_interest, "
        + "\'0\') AS DOUBLE)) / "
        + "SUM(CAST(COALESCE(balance, \'0\') "
        + "AS DOUBLE)) * 100\n"
        + "                    "),
      Lit("ELSE 0"),
      Lit(
        "\n"
        + "                "
        + "END as interest_to_balance_ratio\n"
        + "            "),
      Lit("FROM " + RawTransactions.QualifiedName()),
      Lit(
        "\n"
        + "            "
        + "WHERE accrued_interest IS NOT "
        + "NULL AND accrued_interest != \'\' "
        + "\n"
        + "                AND "),
      Lit(BalancePresent("")),
      Lit(
        "\n"
        + "            GROUP BY type\n"
        + "            "
        + "ORDER BY total_accrued_interest "
        + "DESC\n"
        + "        ")
    ]
  }

  /** Where the fragments sit in `AccountingTreatmentAnalysis`. */
  lemma AccountingTreatmentAnalysisLayout()
    ensures AccountingTreatmentAnalysisParts()[1] == Lit("SELECT")
    ensures AccountingTreatmentAnalysisParts()[5] == Lit("FROM " + RawTransactions.QualifiedName())
    ensures AccountingTreatmentAnalysisParts()[7] == Lit("LEFT JOIN " + RefAccounting.QualifiedName())
    ensures AccountingTreatmentAnalysisParts()[9] == Lit(TreatmentJoinKey)
    ensures AccountingTreatmentAnalysisParts()[11] == Lit(BalancePresent("rt."))
    ensures AccountingTreatmentAnalysisParts()[3] == Lit(OrUnknown("ra.accounting_treatment"))
    ensures NoInterpolation(AccountingTreatmentAnalysisParts())
  {
  }

  /** Transactions are LEFT JOINed to their treatment after the `FROM`, on `TreatmentJoinKey`;
      a transaction with no matching treatment is labelled `'Unknown'`. */
  lemma AccountingTreatmentAnalysisShape()
    ensures AccountingShape(AccountingTreatmentAnalysisParts(), "rt.")
    ensures Precedes(AccountingTreatmentAnalysisParts(), Lit("FROM " + RawTransactions.QualifiedName()), Lit("LEFT JOIN " + RefAccounting.QualifiedName()))
    ensures Precedes(AccountingTreatmentAnalysisParts(), Lit("LEFT JOIN " + RefAccounting.QualifiedName()), Lit(TreatmentJoinKey))
    ensures Lit(OrUnknown("ra.accounting_treatment")) in AccountingTreatmentAnalysisParts()
  {
    AccountingTreatmentAnalysisLayout();
  }

  /** Where the fragments sit in `BalanceAnalysis`. */
  lemma BalanceAnalysisLayout()
    ensures BalanceAnalysisParts()[1] == Lit("SELECT")
    ensures BalanceAnalysisParts()[7] == Lit("FROM " + RawTransactions.QualifiedName())
    ensures BalanceAnalysisParts()[9] == Lit(BalancePresent(""))
    ensures BalanceAnalysisParts()[3] == Lit(OrUnknown("type"))
    ensures BalanceAnalysisParts()[5] == Lit(OrUnknown("status"))
    ensures NoInterpolation(BalanceAnalysisParts())
  {
  }

  /** Balances are grouped by type and status, each defaulting to `'Unknown'`. */
  lemma BalanceAnalysisShape()
    ensures AccountingShape(BalanceAnalysisParts(), "")
    ensures Lit(OrUnknown("type")) in BalanceAnalysisParts()
    ensures Lit(OrUnknown("status")) in BalanceAnalysisParts()
  {
    BalanceAnalysisLayout();
  }

  /** Where the fragments sit in `AccountingByState`. */
  lemma AccountingByStateLayout()
    ensures AccountingByStateParts()[1] == Lit("SELECT")
    ensures AccountingByStateParts()[5] == Lit("FROM " + RawTransactions.QualifiedName())
    ensures AccountingByStateParts()[7] == Lit(BalancePresent(""))
    ensures AccountingByStateParts()[3] == Lit(OrUnknown("state_code"))
    ensures NoInterpolation(AccountingByStateParts())
  {
  }

  /** Balances are grouped by state code, defaulting to `'Unknown'`. */
  lemma AccountingByStateShape()
    ensures AccountingShape(AccountingByStateParts(), "")
    ensures Lit(OrUnknown("state_code")) in AccountingByStateParts()
  {
    AccountingByStateLayout();
  }

  /** Where the fragments sit in `InterestAnalysis`. */
  lemma InterestAnalysisLayout()
    ensures InterestAnalysisParts()[1] == Lit("SELECT")
    ensures InterestAnalysisParts()[9] == Lit("FROM " + RawTransactions.QualifiedName())
    ensures InterestAnalysisParts()[11] == Lit(BalancePresent(""))
    ensures InterestAnalysisParts()[3] == Lit(OrUnknown("type"))
    ensures InterestAnalysisParts()[5] == Lit(PositiveBalanceGuard)
    ensures InterestAnalysisParts()[7] == Lit("ELSE 0")
    ensures NoInterpolation(InterestAnalysisParts())
  {
  }

  /** The interest-to-balance ratio is guarded: the positive-balance branch comes before `ELSE 0`. */
  lemma InterestAnalysisShape()
    ensures AccountingShape(InterestAnalysisParts(), "")
    ensures Precedes(InterestAnalysisParts(), Lit(PositiveBalanceGuard), Lit("ELSE 0"))
    ensures Lit(OrUnknown("type")) in InterestAnalysisParts()
  {
    InterestAnalysisLayout();
  }

  /** The alias prefix of a template's balance filter. */
  function Alias(q: AccountingQuery): string
  {
    if q == AccountingTreatmentAnalysis then "rt." else ""
  }

  /** The shape of `AccountingTreatmentAnalysis`, stated on the query value. */
  lemma AccountingTreatmentAnalysisCase(q: AccountingQuery)
    requires q.AccountingTreatmentAnalysis?
    ensures AccountingShape(q.Parts(), Alias(q))
  {
    AccountingTreatmentAnalysisShape();
  }

  /** The shape of `BalanceAnalysis`, stated on the query value. */
  lemma BalanceAnalysisCase(q: AccountingQuery)
    requires q.BalanceAnalysis?
    ensures AccountingShape(q.Parts(), Alias(q))
  {
    BalanceAnalysisShape();
  }

  /** The shape of `AccountingByState`, stated on the query value. */
  lemma AccountingByStateCase(q: AccountingQuery)
    requires q.AccountingByState?
    ensures AccountingShape(q.Parts(), Alias(q))
  {
    AccountingByStateShape();
  }

  /** The shape of `InterestAnalysis`, stated on the query value. */
  lemma InterestAnalysisCase(q: AccountingQuery)
    requires q.InterestAnalysis?
    ensures AccountingShape(q.Parts(), Alias(q))
  {
    InterestAnalysisShape();
  }

  /** Every accounting template has the shape all accounting templates share. */
  lemma AccountingQueryShape(q: AccountingQuery)
    ensures AccountingShape(q.Parts(), Alias(q))
  {
    match q
    case AccountingTreatmentAnalysis => AccountingTreatmentAnalysisCase(q);
    case BalanceAnalysis => BalanceAnalysisCase(q);
    case AccountingByState => AccountingByStateCase(q);
    case InterestAnalysis => InterestAnalysisCase(q);
  }

  /** Every accounting template selects from `raw_transactions`. */
  lemma AccountingSqlReadsTransactions(q: AccountingQuery)
    ensures Contains(q.Sql(), "SELECT")
    ensures Contains(q.Sql(), "FROM " + RawTransactions.QualifiedName())
  {
    AccountingQueryShape(q);
    AccountingShapeText(q.Parts(), Alias(q));
  }
}
