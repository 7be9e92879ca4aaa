/** The four accounting-transaction templates over `raw_transactions`. */
module TransactionQueries {
  import opened Text
  import opened TableSchemas
  import opened Templates

  datatype TransactionQuery = TransactionSummary | TransactionByStatus | TransactionByPurpose | PaymentAnalysis
  {
    function Sql(): string
    {
      Render(Parts())
    }

    /** The template's pieces, in order. */
    function Parts(): seq<Part>
    {
      match this
      case TransactionSummary => TransactionSummaryParts()
      case TransactionByStatus => TransactionByStatusParts()
      case TransactionByPurpose => TransactionByPurposeParts()
      case PaymentAnalysis => PaymentAnalysisParts()
    }
  }

  /** The filter every transaction template puts in its `WHERE` clause. */
  const NonZeroBalance := "balance IS NOT NULL AND CAST(balance AS DOUBLE) != 0"

  /** The field mappings of the transaction table's domain. */
  const TransactionFields := {TransactionBalance, TransactionInterest, ArrearsAmount}

  /** What every transaction template shares: it reads `raw_transactions`, keeps the rows
      with a non-zero balance, and splices only transaction-domain mappings. */
  predicate TransactionShape(parts: seq<Part>)
  {
    Lit("SELECT") in parts &&
    Lit("FROM " + RawTransactions.QualifiedName()) in parts &&
    Lit(NonZeroBalance) in parts &&
    SplicesOnly(parts, TransactionFields)
  }

  /** What the shape means for the SQL text. */
  lemma TransactionShapeText(parts: seq<Part>)
    requires TransactionShape(parts)
    ensures Contains(Render(parts), "SELECT")
    ensures Contains(Render(parts), "FROM " + RawTransactions.QualifiedName())
    ensures Contains(Render(parts), RawTransactions.QualifiedName())
    ensures Contains(Render(parts), NonZeroBalance)
  {
    RenderContains(parts, Lit("SELECT"));
    RenderReadsFrom(parts, RawTransactions);
    RenderContains(parts, Lit(NonZeroBalance));
  }

  /** A transaction template splices no loan-table mapping such as `loan_amount`. */
  lemma TransactionShapeNoLoanField(parts: seq<Part>, f: Field)
    requires TransactionShape(parts)
    requires Mapping(f) in parts
    ensures !f.IsLoanField()
  {
    var i :| 0 <= i < |parts| && parts[i] == Mapping(f);
    assert f in TransactionFields;
  }

  /** `get_transaction_summary`. */
  function TransactionSummaryParts(): seq<Part>
  {
    [
      Lit(
        "\n"
        + "            "),
      Lit("SELECT"),
      Lit(
        " \n"
        + "                "
        + "COUNT(*) as total_transactions,\n"
        + "                COUNT(DISTINCT "),
      Lit("accounting_treatment_id"),
      Lit(
        ") as unique_treatments,\n"
        + "                AVG("),
      Mapping(TransactionBalance),
      Lit(
        ") as avg_balance,\n"
        + "                SUM("),
      Mapping(TransactionBalance),
      Lit(
        ") as total_balance,\n"
        + "                "
        + "COUNT(DISTINCT status) as "
        + "unique_statuses,\n"
        + "                "
        + "COUNT(DISTINCT type) as "
        + "unique_types,\n"
        + "                "
        + "COUNT(DISTINCT purpose) as "
        + "unique_purposes\n"
        + "            "),
      Lit("FROM " + RawTransactions.QualifiedName()),
      Lit(
        "\n"
        + "            WHERE "),
      Lit(NonZeroBalance),
      Lit(
        "\n"
        + "        ")
    ]
  }

  /** `get_transaction_by_status`. */
  function TransactionByStatusParts(): seq<Part>
  {
    [
      Lit(
        "\n"
        + "            "),
      Lit("SELECT"),
      Lit(
        " \n"
        + "                "),
      Lit(OrUnknown("status")),
      Lit(
        " as transaction_status,\n"
        + "                "
        + "COUNT(*) as transaction_count,\n"
        + "                AVG("),
      Mapping(TransactionBalance),
      Lit(
        ") as avg_balance,\n"
        + "                SUM("),
      Mapping(TransactionBalance),
      Lit(
        ") as total_balance,\n"
        + "                AVG("),
      Mapping(TransactionInterest),
      Lit(
        ") as avg_accrued_interest,\n"
        + "                "
        + "ROUND(COUNT(*) * 100.0 / "
        + "SUM(COUNT(*)) OVER (), 2) as "
        + "percentage\n"
        + "            "),
      Lit("FROM " + RawTransactions.QualifiedName()),
      Lit(
        "\n"
        + "            WHERE "),
      Lit(NonZeroBalance),
      Lit(
        "\n"
        + "            GROUP BY status\n"
        + "            "
        + "ORDER BY transaction_count DESC\n"
        + "        ")
    ]
  }

  /** `get_transaction_by_purpose`. */
  function TransactionByPurposeParts(): seq<Part>
  {
    [
      Lit(
        "\n"
        + "            "),
      Lit("SELECT"),
      Lit(
        " \n"
        + "                "),
      Lit(OrUnknown("purpose")),
      Lit(
        " as transaction_purpose,\n"
        + "                "
        + "COUNT(*) as transaction_count,\n"
        + "                AVG("),
      Mapping(TransactionBalance),
      Lit(
        ") as avg_balance,\n"
        + "                SUM("),
      Mapping(TransactionBalance),
      Lit(
        ") as total_balance,\n"
        + "                AVG("),
      Mapping(TransactionInterest),
      Lit(
        ") as avg_accrued_interest,\n"
        + "                "
        + "ROUND(COUNT(*) * 100.0 / "
        + "SUM(COUNT(*)) OVER (), 2) as "
        + "percentage\n"
        + "            "),
      Lit("FROM " + RawTransactions.QualifiedName()),
      Lit(
        "\n"
        + "            WHERE "),
      Lit(NonZeroBalance),
      Lit(
        " AND "),
      Lit("purpose IS NOT NULL"),
      Lit(
        "\n"
        + "            GROUP BY purpose\n"
        + "            "
        + "ORDER BY transaction_count DESC\n"
        + "        ")
    ]
  }

  /** `get_payment_analysis`. */
  function PaymentAnalysisParts(): seq<Part>
  {
    [
      Lit(
        "\n"
        + "            "),
      Lit("SELECT"),
      Lit(
        " \n"
        + "                "),
      Lit(OrUnknown("type")),
      Lit(
        " as transaction_type,\n"
        + "                "
        + "COUNT(*) as transaction_count,\n"
        + "                AVG("),
      Mapping(TransactionBalance),
      Lit(
        ") as avg_balance,\n"
        + "                SUM("),
      Mapping(TransactionBalance),
      Lit(
        ") as total_balance,\n"
        + "                AVG("),
      Mapping(TransactionInterest),
      Lit(
        ") as avg_accrued_interest,\n"
        + "                SUM("),
      Mapping(TransactionInterest),
      Lit(
        ") as total_accrued_interest,\n"
        + "                AVG("),
      Mapping(ArrearsAmount),
      Lit(
        ") as avg_arrears,\n"
        + "                COUNT(DISTINCT "),
      Lit("accounting_treatment_id"),
      Lit(
        ") as unique_treatments\n"
        + "            "),
      Lit("FROM " + RawTransactions.QualifiedName()),
      Lit(
        "\n"
        + "            WHERE "),
      Lit(NonZeroBalance),
      Lit(
        "\n"
        + "            GROUP BY type\n"
        + "            "
        + "ORDER BY total_balance DESC\n"
        + "        ")
    ]
  }

  /** Where the fragments sit in `TransactionSummary`. */
  lemma TransactionSummaryLayout()
    ensures TransactionSummaryParts()[1] == Lit("SELECT")
    ensures TransactionSummaryParts()[9] == Lit("FROM " + RawTransactions.QualifiedName())
    ensures TransactionSummaryParts()[11] == Lit(NonZeroBalance)
    ensures TransactionSummaryParts()[5] == Mapping(TransactionBalance)
    ensures TransactionSummaryParts()[3] == Lit("accounting_treatment_id")
    ensures SplicesOnly(TransactionSummaryParts(), TransactionFields)
  {
  }

  /** The summary averages the cast balance and counts distinct treatment ids. */
  lemma TransactionSummaryShape()
    ensures TransactionShape(TransactionSummaryParts())
    ensures Mapping(TransactionBalance) in TransactionSummaryParts()
    ensures Lit("accounting_treatment_id") in TransactionSummaryParts()
  {
    TransactionSummaryLayout();
  }

  /** Where the fragments sit in `TransactionByStatus`. */
  lemma TransactionByStatusLayout()
    ensures TransactionByStatusParts()[1] == Lit("SELECT")
    ensures TransactionByStatusParts()[11] == Lit("FROM " + RawTransactions.QualifiedName())
    ensures TransactionByStatusParts()[13] == Lit(NonZeroBalance)
    ensures TransactionByStatusParts()[3] == Lit(OrUnknown("status"))
    ensures SplicesOnly(TransactionByStatusParts(), TransactionFields)
  {
  }

  /** Transactions are grouped by status, a NULL status labelled `'Unknown'`. */
  lemma TransactionByStatusShape()
    ensures TransactionShape(TransactionByStatusParts())
    ensures Lit(OrUnknown("status")) in TransactionByStatusParts()
  {
    TransactionByStatusLayout();
  }

  /** Where the fragments sit in `TransactionByPurpose`. */
  lemma TransactionByPurposeLayout()
    ensures TransactionByPurposeParts()[1] == Lit("SELECT")
    ensures TransactionByPurposeParts()[11] == Lit("FROM " + RawTransactions.QualifiedName())
    ensures TransactionByPurposeParts()[13] == Lit(NonZeroBalance)
    ensures TransactionByPurposeParts()[3] == Lit(OrUnknown("purpose"))
    ensures TransactionByPurposeParts()[15] == Lit("purpose IS NOT NULL")
    ensures SplicesOnly(TransactionByPurposeParts(), TransactionFields)
  {
  }

  /** Grouping by purpose additionally requires a purpose; the label still defaults to `'Unknown'`. */
  lemma TransactionByPurposeShape()
    ensures TransactionShape(TransactionByPurposeParts())
    ensures Lit(OrUnknown("purpose")) in TransactionByPurposeParts()
    ensures Lit("purpose IS NOT NULL") in TransactionByPurposeParts()
  {
    TransactionByPurposeLayout();
  }

  /** Where the fragments sit in `PaymentAnalysis`. */
  lemma PaymentAnalysisLayout()
    ensures PaymentAnalysisParts()[1] == Lit("SELECT")
    ensures PaymentAnalysisParts()[17] == Lit("FROM " + RawTransactions.QualifiedName())
    ensures PaymentAnalysisParts()[19] == Lit(NonZeroBalance)
    ensures PaymentAnalysisParts()[3] == Lit(OrUnknown("type"))
    ensures PaymentAnalysisParts()[13] == Mapping(ArrearsAmount)
    ensures SplicesOnly(PaymentAnalysisParts(), TransactionFields)
  {
  }

  /** Transactions are grouped by type, a NULL type labelled `'Unknown'`. */
  lemma PaymentAnalysisShape()
    ensures TransactionShape(PaymentAnalysisParts())
    ensures Lit(OrUnknown("type")) in PaymentAnalysisParts()
  {
    PaymentAnalysisLayout();
  }

  /** The shape of `TransactionSummary`, stated on the query value. */
  lemma TransactionSummaryCase(q: TransactionQuery)
    requires q.TransactionSummary?
    ensures TransactionShape(q.Parts())
  {
    TransactionSummaryShape();
  }

  /** The shape of `TransactionByStatus`, stated on the query value. */
  lemma TransactionByStatusCase(q: TransactionQuery)
    requires q.TransactionByStatus?
    ensures TransactionShape(q.Parts())
  {
    TransactionByStatusShape();
  }

  /** The shape of `TransactionByPurpose`, stated on the query value. */
  lemma TransactionByPurposeCase(q: TransactionQuery)
    requires q.TransactionByPurpose?
    ensures TransactionShape(q.Parts())
  {
    TransactionByPurposeShape();
  }

  /** The shape of `PaymentAnalysis`, stated on the query value. */
  lemma PaymentAnalysisCase(q: TransactionQuery)
    requires q.PaymentAnalysis?
    ensures TransactionShape(q.Parts())
  {
    PaymentAnalysisShape();
  }

  /** Every transaction template has the shape all transaction templates share. */
  lemma TransactionQueryShape(q: TransactionQuery)
    ensures TransactionShape(q.Parts())
  {
    match q
    case TransactionSummary => TransactionSummaryCase(q);
    case TransactionByStatus => TransactionByStatusCase(q);
    case TransactionByPurpose => TransactionByPurposeCase(q);
    case PaymentAnalysis => PaymentAnalysisCase(q);
  }

  /** Every transaction template selects from `raw_transactions`. */
  lemma TransactionSqlReadsTransactions(q: TransactionQuery)
    ensures Contains(q.Sql(), "SELECT")
    ensures Contains(q.Sql(), "FROM " + RawTransactions.QualifiedName())
  {
    TransactionQueryShape(q);
    TransactionShapeText(q.Parts());
  }
}
