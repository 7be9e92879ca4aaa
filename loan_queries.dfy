/** The eight loan-analysis templates over `historical_loans`, and the employment-length
    bucketing and ordering that one of them performs. */
module LoanQueries {
  import opened Wrappers
  import opened Text
  import opened TableSchemas
  import opened Templates

  datatype LoanQuery =
    | LoanSummary | LoanStatusDistribution | GradeAnalysis | PurposeAnalysis
    | StateDistribution | MonthlyLoanTrend | RiskAnalysis | EmploymentAnalysis
  {
    function Sql(): string
    {
      Render(Parts())
    }

    /** The `COMMON_CONDITIONS` the template adds to `valid_loans`. */
    function Filters(): seq<Condition>
    {
      match this
      case LoanStatusDistribution => [ValidStatus]
      case GradeAnalysis => [ValidGrade]
      case PurposeAnalysis => [ValidPurpose]
      case StateDistribution => [ValidState]
      case MonthlyLoanTrend => [RecentLoans]
      case RiskAnalysis => [ValidGrade, ValidStatus]
      case _ => []
    }

    /** The template's pieces, in order. */
    function Parts(): seq<Part>
    {
      match this
      case LoanSummary => LoanSummaryParts()
      case LoanStatusDistribution => LoanStatusDistributionParts()
      case GradeAnalysis => GradeAnalysisParts()
      case PurposeAnalysis => PurposeAnalysisParts()
      case StateDistribution => StateDistributionParts()
      case MonthlyLoanTrend => MonthlyLoanTrendParts()
      case RiskAnalysis => RiskAnalysisParts()
      case EmploymentAnalysis => EmploymentAnalysisParts()
    }
  }

  /** What a loan template's shape means for its SQL text: the table name, the
      `valid_loans` condition and every requested validity predicate occur in it. */
  lemma LoanShapeText(parts: seq<Part>, filters: seq<Condition>)
    requires LoanShape(parts, filters)
    ensures Contains(Render(parts), "SELECT")
    ensures Contains(Render(parts), "FROM " + HistoricalLoans.QualifiedName())
    ensures Contains(Render(parts), HistoricalLoans.QualifiedName())
    ensures Contains(Render(parts), ValidLoans.Expr())
    ensures Contains(Render(parts), "loan_amnt IS NOT NULL")
    ensures forall c :: c in filters ==> Contains(Render(parts), c.Expr())
  {
    RenderContains(parts, Lit("SELECT"));
    RenderReadsFrom(parts, HistoricalLoans);
    RenderContains(parts, Filter(ValidLoans));
    ValidLoansPieces();
    ContainsTrans(Render(parts), ValidLoans.Expr(), "loan_amnt IS NOT NULL");
    forall c | c in filters
      ensures Contains(Render(parts), c.Expr())
    {
      RenderContains(parts, Filter(c));
    }
  }

  /** `get_loan_summary`. */
  function LoanSummaryParts(): seq<Part>
  {
    [
      Lit(
        "\n"
        + "            "),
      Lit("SELECT"),
      Lit(
        " \n"
        + "                "
        + "COUNT(*) as total_loans,\n"
        + "                AVG("),
      Mapping(LoanAmount),
      Lit(
        ") as avg_loan_amount,\n"
        + "                SUM("),
      Mapping(LoanAmount),
      Lit(
        ") as total_loan_amount,\n"
        + "                "
        + "COUNT(DISTINCT member_id) as "
        + "unique_borrowers,\n"
        + "                "
        + "COUNT(DISTINCT grade) as "
        + "unique_grades,\n"
        + "                MIN("),
      Mapping(LoanAmount),
      Lit(
        ") as min_loan_amount,\n"
        + "                MAX("),
      Mapping(LoanAmount),
      Lit(
        ") as max_loan_amount,\n"
        + "                STDDEV("),
      Mapping(LoanAmount),
      Lit(
        ") as loan_amount_stddev\n"
        + "            "),
      Lit("FROM " + HistoricalLoans.QualifiedName()),
      Lit(
        "\n"
        + "            WHERE "),
      Filter(ValidLoans),
      Lit(
        "\n"
        + "        ")
    ]
  }

  /** `get_loan_status_distribution`. */
  function LoanStatusDistributionParts(): seq<Part>
  {
    [
      Lit(
        "\n"
        + "            "),
      Lit("SELECT"),
      Lit(
        " \n"
        + "                loan_status,\n"
        + "                "
        + "COUNT(*) as count,\n"
        + "                AVG("),
      Mapping(LoanAmount),
      Lit(
        ") as avg_amount,\n"
        + "                SUM("),
      Mapping(LoanAmount),
      Lit(
        ") as total_amount,\n"
        + "                "
        + "ROUND(COUNT(*) * 100.0 / "
        + "SUM(COUNT(*)) OVER (), 2) as "
        + "percentage\n"
        + "            "),
      Lit("FROM " + HistoricalLoans.QualifiedName()),
      Lit(
        "\n"
        + "            WHERE "),
      Filter(ValidLoans),
      Lit(
        " AND "),
      Filter(ValidStatus),
      Lit(
        "\n"
        + "            GROUP BY loan_status\n"
        + "            ORDER BY count DESC\n"
        + "        ")
    ]
  }

  /** `get_grade_analysis`. */
  function GradeAnalysisParts(): seq<Part>
  {
    [
      Lit(
        "\n"
        + "            "),
      Lit("SELECT"),
      Lit(
        " \n"
        + "                grade,\n"
        + "                "
        + "COUNT(*) as loan_count,\n"
        + "                AVG("),
      Mapping(LoanAmount),
      Lit(
        ") as avg_loan_amount,\n"
        + "                SUM("),
      Mapping(LoanAmount),
      Lit(
        ") as total_amount,\n"
        + "                AVG("),
      Mapping(InterestRate),
      Lit(
        ") as avg_interest_rate,\n"
        + "                "
        + "AVG(annual_inc) as "
        + "avg_annual_income,\n"
        + "                "
        + "AVG(dti) as avg_debt_to_income,\n"
        + "                "
        + "ROUND(COUNT(*) * 100.0 / "
        + "SUM(COUNT(*)) OVER (), 2) as "
        + "percentage\n"
        + "            "),
      Lit("FROM " + HistoricalLoans.QualifiedName()),
      Lit(
        "\n"
        + "            WHERE "),
      Filter(ValidLoans),
      Lit(
        " AND "),
      Filter(ValidGrade),
      Lit(
        "\n"
        + "            GROUP BY grade\n"
        + "            ORDER BY grade\n"
        + "        ")
    ]
  }

  /** `get_purpose_analysis`. */
  function PurposeAnalysisParts(): seq<Part>
  {
    [
      Lit(
        "\n"
        + "            "),
      Lit("SELECT"),
      Lit(
        " \n"
        + "                purpose,\n"
        + "                "
        + "COUNT(*) as loan_count,\n"
        + "                AVG("),
      Mapping(LoanAmount),
      Lit(
        ") as avg_loan_amount,\n"
        + "                SUM("),
      Mapping(LoanAmount),
      Lit(
        ") as total_amount,\n"
        + "                AVG("),
      Mapping(InterestRate),
      Lit(
        ") as avg_interest_rate,\n"
        + "                "
        + "ROUND(COUNT(*) * 100.0 / "
        + "SUM(COUNT(*)) OVER (), 2) as "
        + "percentage\n"
        + "            "),
      Lit("FROM " + HistoricalLoans.QualifiedName()),
      Lit(
        "\n"
        + "            WHERE "),
      Filter(ValidLoans),
      Lit(
        " AND "),
      Filter(ValidPurpose),
      Lit(
        "\n"
        + "            GROUP BY purpose\n"
        + "            "
        + "ORDER BY loan_count DESC\n"
        + "        ")
    ]
  }

  /** `get_state_distribution`. */
  function StateDistributionParts(): seq<Part>
  {
    [
      Lit(
        "\n"
        + "            "),
      Lit("SELECT"),
      Lit(
        " \n"
        + "                addr_state,\n"
        + "                "
        + "COUNT(*) as loan_count,\n"
        + "                AVG("),
      Mapping(LoanAmount),
      Lit(
        ") as avg_loan_amount,\n"
        + "                SUM("),
      Mapping(LoanAmount),
      Lit(
        ") as total_amount,\n"
        + "                AVG("),
      Mapping(InterestRate),
      Lit(
        ") as avg_interest_rate,\n"
        + "                "
        + "AVG(annual_inc) as "
        + "avg_annual_income\n"
        + "            "),
      Lit("FROM " + HistoricalLoans.QualifiedName()),
      Lit(
        "\n"
        + "            WHERE "),
      Filter(ValidLoans),
      Lit(
        " AND "),
      Filter(ValidState),
      Lit(
        "\n"
        + "            GROUP BY addr_state\n"
        + "            "
        + "ORDER BY loan_count DESC\n"
        + "        ")
    ]
  }

  /** `get_monthly_loan_trend`. */
  function MonthlyLoanTrendParts(): seq<Part>
  {
    [
      Lit(
        "\n"
        + "            "),
      Lit("SELECT"),
      Lit(
        " \n"
        + "                "
        + "issue_d as month,\n"
        + "                "
        + "COUNT(*) as loan_count,\n"
        + "                SUM("),
      Mapping(LoanAmount),
      Lit(
        ") as total_amount,\n"
        + "                AVG("),
      Mapping(LoanAmount),
      Lit(
        ") as avg_amount,\n"
        + "                AVG("),
      Mapping(InterestRate),
      Lit(
        ") as avg_interest_rate\n"
        + "            "),
      Lit("FROM " + HistoricalLoans.QualifiedName()),
      Lit(
        "\n"
        + "            WHERE "),
      Filter(ValidLoans),
      Lit(
        " \n"
        + "                AND "),
      Filter(RecentLoans),
      Lit(
        "\n"
        + "            GROUP BY issue_d\n"
        + "            ORDER BY issue_d\n"
        + "            "),
      Lit("LIMIT 50"),
      Lit(
        "\n"
        + "        ")
    ]
  }

  /** `get_risk_analysis`. */
  function RiskAnalysisParts(): seq<Part>
  {
    [
      Lit(
        "\n"
        + "            "),
      Lit("SELECT"),
      Lit(
        " \n"
        + "                grade,\n"
        + "                loan_status,\n"
        + "                "
        + "COUNT(*) as loan_count,\n"
        + "                AVG("),
      Mapping(LoanAmount),
      Lit(
        ") as avg_loan_amount,\n"
        + "                AVG("),
      Mapping(InterestRate),
      Lit(
        ") as avg_interest_rate,\n"
        + "                "
        + "AVG(dti) as avg_debt_to_income,\n"
        + "                "
        + "ROUND(COUNT(*) * 100.0 / "
        + "SUM(COUNT(*)) OVER (PARTITION BY "
        + "grade), 2) as "
        + "status_percentage_in_grade\n"
        + "            "),
      Lit("FROM " + HistoricalLoans.QualifiedName()),
      Lit(
        "\n"
        + "            WHERE "),
      Filter(ValidLoans),
      Lit(
        " \n"
        + "                AND "),
      Filter(ValidGrade),
      Lit(
        "\n"
        + "                AND "),
      Filter(ValidStatus),
      Lit(
        "\n"
        + "            "
        + "GROUP BY grade, loan_status\n"
        + "            "
        + "ORDER BY grade, loan_count DESC\n"
        + "        ")
    ]
  }

  /** `get_employment_analysis`. */
  function EmploymentAnalysisParts(): seq<Part>
  {
    [
      Lit(
        "\n"
        + "            "),
      Lit("SELECT"),
      Lit(
        " \n"
        + "                CASE \n"
        + "                    "
        + "WHEN emp_length = \'< 1 year\' "
        + "THEN \'< 1 year\'\n"
        + "                    "
        + "WHEN emp_length = \'1 year\' THEN "
        + "\'1 year\'\n"
        + "                    "
        + "WHEN emp_length IN (\'2 years\', "
        + "\'3 years\', \'4 years\') THEN "
        + "\'2-4 years\'\n"
        + "                    "
        + "WHEN emp_length IN (\'5 years\', "
        + "\'6 years\', \'7 years\', \'8 "
        + "years\', \'9 years\') THEN \'5-9 "
        + "years\'\n"
        + "                    "
        + "WHEN emp_length = \'10+ years\' "
        + "THEN \'10+ years\'\n"
        + "                    "
        + "ELSE \'Unknown\'\n"
        + "                "
        + "END as emp_length_group,\n"
        + "                "
        + "COUNT(*) as loan_count,\n"
        + "                AVG("),
      Mapping(LoanAmount),
      Lit(
        ") as avg_loan_amount,\n"
        + "                "
        + "AVG(annual_inc) as "
        + "avg_annual_income,\n"
        + "                AVG("),
      Mapping(InterestRate),
      Lit(
        ") as avg_interest_rate,\n"
        + "                "
        + "AVG(dti) as avg_debt_to_income\n"
        + "            "),
      Lit("FROM " + HistoricalLoans.QualifiedName()),
      Lit(
        "\n"
        + "            WHERE "),
      Filter(ValidLoans),
      Lit(
        "\n"
        + "            "
        + "GROUP BY emp_length_group\n"
        + "            ORDER BY \n"
        + "                "
        + "CASE emp_length_group\n"
        + "                    "
        + "WHEN \'< 1 year\' THEN 1\n"
        + "                    "
        + "WHEN \'1 year\' THEN 2\n"
        + "                    "
        + "WHEN \'2-4 years\' THEN 3\n"
        + "                    "
        + "WHEN \'5-9 years\' THEN 4\n"
        + "                    "
        + "WHEN \'10+ years\' THEN 5\n"
        + "                    ELSE 6\n"
        + "                END\n"
        + "        ")
    ]
  }

  /** What every loan template is made of: it reads `historical_loans`, keeps `valid_loans`
      and the given validity predicates, and splices only loan-table mappings. */
  predicate LoanShape(parts: seq<Part>, filters: seq<Condition>)
  {
    && Lit("SELECT") in parts
    && Lit("FROM " + HistoricalLoans.QualifiedName()) in parts
    && Filter(ValidLoans) in parts
    && (forall c :: c in filters ==> Filter(c) in parts)
    && SplicesOnly(parts, {LoanAmount, InterestRate})
  }

  /** Where the fragments sit in `LoanSummary`. */
  lemma LoanSummaryLayout()
    ensures LoanSummaryParts()[1] == Lit("SELECT")
    ensures LoanSummaryParts()[13] == Lit("FROM " + HistoricalLoans.QualifiedName())
    ensures LoanSummaryParts()[15] == Filter(ValidLoans)
    ensures LoanSummaryParts()[3] == Mapping(LoanAmount)
    ensures SplicesOnly(LoanSummaryParts(), {LoanAmount, InterestRate})
  {
  }

  /** The portfolio summary aggregates `loan_amount` over valid loans. */
  lemma LoanSummaryShape()
    ensures LoanShape(LoanSummaryParts(), [])
    ensures Mapping(LoanAmount) in LoanSummaryParts()
  {
    LoanSummaryLayout();
  }

  /** Where the fragments sit in `LoanStatusDistribution`. */
  lemma LoanStatusDistributionLayout()
    ensures LoanStatusDistributionParts()[1] == Lit("SELECT")
    ensures LoanStatusDistributionParts()[7] == Lit("FROM " + HistoricalLoans.QualifiedName())
    ensures LoanStatusDistributionParts()[9] == Filter(ValidLoans)
    ensures LoanStatusDistributionParts()[11] == Filter(ValidStatus)
    ensures SplicesOnly(LoanStatusDistributionParts(), {LoanAmount, InterestRate})
  {
  }

  /** The status breakdown also requires a known status. */
  lemma LoanStatusDistributionShape()
    ensures LoanShape(LoanStatusDistributionParts(), [ValidStatus])
  {
    LoanStatusDistributionLayout();
  }

  /** Where the fragments sit in `GradeAnalysis`. */
  lemma GradeAnalysisLayout()
    ensures GradeAnalysisParts()[1] == Lit("SELECT")
    ensures GradeAnalysisParts()[9] == Lit("FROM " + HistoricalLoans.QualifiedName())
    ensures GradeAnalysisParts()[11] == Filter(ValidLoans)
    ensures GradeAnalysisParts()[13] == Filter(ValidGrade)
    ensures SplicesOnly(GradeAnalysisParts(), {LoanAmount, InterestRate})
  {
  }

  /** The grade breakdown also requires a grade. */
  lemma GradeAnalysisShape()
    ensures LoanShape(GradeAnalysisParts(), [ValidGrade])
  {
    GradeAnalysisLayout();
  }

  /** Where the fragments sit in `PurposeAnalysis`. */
  lemma PurposeAnalysisLayout()
    ensures PurposeAnalysisParts()[1] == Lit("SELECT")
    ensures PurposeAnalysisParts()[9] == Lit("FROM " + HistoricalLoans.QualifiedName())
    ensures PurposeAnalysisParts()[11] == Filter(ValidLoans)
    ensures PurposeAnalysisParts()[13] == Filter(ValidPurpose)
    ensures SplicesOnly(PurposeAnalysisParts(), {LoanAmount, InterestRate})
  {
  }

  /** The purpose breakdown also requires a purpose. */
  lemma PurposeAnalysisShape()
    ensures LoanShape(PurposeAnalysisParts(), [ValidPurpose])
  {
    PurposeAnalysisLayout();
  }

  /** Where the fragments sit in `StateDistribution`. */
  lemma StateDistributionLayout()
    ensures StateDistributionParts()[1] == Lit("SELECT")
    ensures StateDistributionParts()[9] == Lit("FROM " + HistoricalLoans.QualifiedName())
    ensures StateDistributionParts()[11] == Filter(ValidLoans)
    ensures StateDistributionParts()[13] == Filter(ValidState)
    ensures SplicesOnly(StateDistributionParts(), {LoanAmount, InterestRate})
  {
  }

  /** The state breakdown also requires a state. */
  lemma StateDistributionShape()
    ensures LoanShape(StateDistributionParts(), [ValidState])
  {
    StateDistributionLayout();
  }

  /** Where the fragments sit in `MonthlyLoanTrend`. */
  lemma MonthlyLoanTrendLayout()
    ensures MonthlyLoanTrendParts()[1] == Lit("SELECT")
    ensures MonthlyLoanTrendParts()[9] == Lit("FROM " + HistoricalLoans.QualifiedName())
    ensures MonthlyLoanTrendParts()[11] == Filter(ValidLoans)
    ensures MonthlyLoanTrendParts()[13] == Filter(RecentLoans)
    ensures MonthlyLoanTrendParts()[15] == Lit("LIMIT 50")
    ensures SplicesOnly(MonthlyLoanTrendParts(), {LoanAmount, InterestRate})
  {
  }

  /** The monthly trend keeps recent loans only and is capped at fifty months. */
  lemma MonthlyLoanTrendShape()
    ensures LoanShape(MonthlyLoanTrendParts(), [RecentLoans])
    ensures Lit("LIMIT 50") in MonthlyLoanTrendParts()
  {
    MonthlyLoanTrendLayout();
  }

  /** Where the fragments sit in `RiskAnalysis`. */
  lemma RiskAnalysisLayout()
    ensures RiskAnalysisParts()[1] == Lit("SELECT")
    ensures RiskAnalysisParts()[7] == Lit("FROM " + HistoricalLoans.QualifiedName())
    ensures RiskAnalysisParts()[9] == Filter(ValidLoans)
    ensures RiskAnalysisParts()[11] == Filter(ValidGrade)
    ensures RiskAnalysisParts()[13] == Filter(ValidStatus)
    ensures SplicesOnly(RiskAnalysisParts(), {LoanAmount, InterestRate})
  {
  }

  /** The risk matrix requires both a grade and a status. */
  lemma RiskAnalysisShape()
    ensures LoanShape(RiskAnalysisParts(), [ValidGrade, ValidStatus])
  {
    RiskAnalysisLayout();
  }

  /** Where the fragments sit in `EmploymentAnalysis`. */
  lemma EmploymentAnalysisLayout()
    ensures EmploymentAnalysisParts()[1] == Lit("SELECT")
    ensures EmploymentAnalysisParts()[7] == Lit("FROM " + HistoricalLoans.QualifiedName())
    ensures EmploymentAnalysisParts()[9] == Filter(ValidLoans)
    ensures SplicesOnly(EmploymentAnalysisParts(), {LoanAmount, InterestRate})
  {
  }

  /** The employment breakdown filters on `valid_loans` alone; its buckets are `EmploymentGroup`. */
  lemma EmploymentAnalysisShape()
    ensures LoanShape(EmploymentAnalysisParts(), [])
  {
    EmploymentAnalysisLayout();
  }

  /** The five named employment-length groups, in their reporting order. */
  const EmploymentGroups: seq<string> := ["< 1 year", "1 year", "2-4 years", "5-9 years", "10+ years"]

  /** The `CASE` that buckets `emp_length` (SQL `NULL` is `None`). */
  function EmploymentGroup(empLength: Option<string>): (g: string)
    ensures g in EmploymentGroups || g == "Unknown"
  {
    match empLength
    case None => "Unknown"
    case Some(e) =>
      if e == "< 1 year" then "< 1 year"
      else if e == "1 year" then "1 year"
      else if e in ["2 years", "3 years", "4 years"] then "2-4 years"
      else if e in ["5 years", "6 years", "7 years", "8 years", "9 years"] then "5-9 years"
      else if e == "10+ years" then "10+ years"
      else "Unknown"
  }

  /** The `ORDER BY CASE` rank of a group label. */
  function GroupRank(g: string): (r: nat)
    ensures 1 <= r <= 6
  {
    if g == "< 1 year" then 1
    else if g == "1 year" then 2
    else if g == "2-4 years" then 3
    else if g == "5-9 years" then 4
    else if g == "10+ years" then 5
    else 6
  }

  /** Which raw values land in which group, in both directions. */
  lemma EmploymentGroupMembers(empLength: Option<string>)
    ensures EmploymentGroup(empLength) == "< 1 year" <==> empLength == Some("< 1 year")
    ensures EmploymentGroup(empLength) == "1 year" <==> empLength == Some("1 year")
    ensures EmploymentGroup(empLength) == "2-4 years" <==>
            empLength.Some? && empLength.value in ["2 years", "3 years", "4 years"]
    ensures EmploymentGroup(empLength) == "5-9 years" <==>
            empLength.Some? && empLength.value in ["5 years", "6 years", "7 years", "8 years", "9 years"]
    ensures EmploymentGroup(empLength) == "10+ years" <==> empLength == Some("10+ years")
  {
  }

  /** The named groups get the distinct ranks 1 to 5 in label order; anything else, and in
      particular `'Unknown'`, sorts last with rank 6. */
  lemma GroupRankOrder()
    ensures forall i :: 0 <= i < |EmploymentGroups| ==> GroupRank(EmploymentGroups[i]) == i + 1
    ensures forall g :: g !in EmploymentGroups ==> GroupRank(g) == 6
  {
  }

  /** A loan's employment bucket sorts last exactly when it is `'Unknown'`. */
  lemma UnknownSortsLast(empLength: Option<string>)
    ensures GroupRank(EmploymentGroup(empLength)) == 6 <==> EmploymentGroup(empLength) == "Unknown"
    ensures GroupRank(EmploymentGroup(empLength)) < 6 ==>
            EmploymentGroups[GroupRank(EmploymentGroup(empLength)) - 1] == EmploymentGroup(empLength)
  {
    GroupRankOrder();
  }

  /** The shape of `LoanSummary`, stated on the query value. */
  lemma LoanSummaryCase(q: LoanQuery)
    requires q.LoanSummary?
    ensures LoanShape(q.Parts(), q.Filters())
  {
    LoanSummaryShape();
  }

  /** The shape of `LoanStatusDistribution`, stated on the query value. */
  lemma LoanStatusDistributionCase(q: LoanQuery)
    requires q.LoanStatusDistribution?
    ensures LoanShape(q.Parts(), q.Filters())
  {
    LoanStatusDistributionShape();
  }

  /** The shape of `GradeAnalysis`, stated on the query value. */
  lemma GradeAnalysisCase(q: LoanQuery)
    requires q.GradeAnalysis?
    ensures LoanShape(q.Parts(), q.Filters())
  {
    GradeAnalysisShape();
  }

  /** The shape of `PurposeAnalysis`, stated on the query value. */
  lemma PurposeAnalysisCase(q: LoanQuery)
    requires q.PurposeAnalysis?
    ensures LoanShape(q.Parts(), q.Filters())
  {
    PurposeAnalysisShape();
  }

  /** The shape of `StateDistribution`, stated on the query value. */
  lemma StateDistributionCase(q: LoanQuery)
    requires q.StateDistribution?
    ensures LoanShape(q.Parts(), q.Filters())
  {
    StateDistributionShape();
  }

  /** The shape of `MonthlyLoanTrend`, stated on the query value. */
  lemma MonthlyLoanTrendCase(q: LoanQuery)
    requires q.MonthlyLoanTrend?
    ensures LoanShape(q.Parts(), q.Filters())
  {
    MonthlyLoanTrendShape();
  }

  /** The shape of `RiskAnalysis`, stated on the query value. */
  lemma RiskAnalysisCase(q: LoanQuery)
    requires q.RiskAnalysis?
    ensures LoanShape(q.Parts(), q.Filters())
  {
    RiskAnalysisShape();
  }

  /** The shape of `EmploymentAnalysis`, stated on the query value. */
  lemma EmploymentAnalysisCase(q: LoanQuery)
    requires q.EmploymentAnalysis?
    ensures LoanShape(q.Parts(), q.Filters())
  {
    EmploymentAnalysisShape();
  }

  /** Every loan template has the shape all loan templates share, with its own filters. */
  lemma LoanQueryShape(q: LoanQuery)
    ensures LoanShape(q.Parts(), q.Filters())
  {
    match q
    case LoanSummary => LoanSummaryCase(q);
    case LoanStatusDistribution => LoanStatusDistributionCase(q);
    case GradeAnalysis => GradeAnalysisCase(q);
    case PurposeAnalysis => PurposeAnalysisCase(q);
    case StateDistribution => StateDistributionCase(q);
    case MonthlyLoanTrend => MonthlyLoanTrendCase(q);
    case RiskAnalysis => RiskAnalysisCase(q);
    case EmploymentAnalysis => EmploymentAnalysisCase(q);
  }

  /** Every loan template selects from `historical_loans` and keeps its validity predicates. */
  lemma LoanSqlReadsLoans(q: LoanQuery)
    ensures Contains(q.Sql(), "SELECT")
    ensures Contains(q.Sql(), "FROM " + HistoricalLoans.QualifiedName())
    ensures Contains(q.Sql(), ValidLoans.Expr())
    ensures forall c :: c in q.Filters() ==> Contains(q.Sql(), c.Expr())
  {
    LoanQueryShape(q);
    LoanShapeText(q.Parts(), q.Filters());
  }
}
