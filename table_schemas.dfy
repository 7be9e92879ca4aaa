/** Expected structure of the three loan_io tables, and the shared SQL fragments
    (field mappings and filter conditions) the query templates are built from. */
module TableSchemas {
  import opened Wrappers
  import opened Text

  /** A column description; the comment defaults to `None` and the column is nullable
      unless said otherwise, as in the dataclass. */
  datatype ColumnInfo = ColumnInfo(name: string, dataType: string, comment: Option<string> := None, nullable: bool := true)

  datatype TableSchema = TableSchema(tableName: string, columns: seq<ColumnInfo>, primaryKey: Option<string> := None, description: string := "")
  {
    /** The first column called `name`, found by a linear scan. */
    method GetColumn(name: string) returns (r: Option<ColumnInfo>)
      ensures r == FindColumn(columns, name)
    {
      for i := 0 to |columns|
        invariant FindColumn(columns, name) == FindColumn(columns[i..], name)
      {
        assert columns[i..][1..] == columns[i + 1..];
        if columns[i].name == name {
          return Some(columns[i]);
        }
      }
      return None;
    }

    function NumericColumns(): seq<string>
    {
      NamesWhere(columns, IsNumeric)
    }

    function StringColumns(): seq<string>
    {
      NamesWhere(columns, IsString)
    }

    function DateColumns(): seq<string>
    {
      NamesWhere(columns, IsDateLike)
    }
  }

  lemma ColumnDefaults(name: string, dataType: string)
    ensures ColumnInfo(name, dataType).comment == None
    ensures ColumnInfo(name, dataType).nullable
  {
  }

  /** The first column with the given name, or `None` when no column has it. */
  function FindColumn(columns: seq<ColumnInfo>, name: string): (r: Option<ColumnInfo>)
    ensures r.None? <==> forall i :: 0 <= i < |columns| ==> columns[i].name != name
    ensures r.Some? ==> exists i :: FirstNamed(columns, name, i) && columns[i] == r.value
  {
    if columns == [] then None
    else if columns[0].name == name then
      assert FirstNamed(columns, name, 0);
      Some(columns[0])
    else
      var r := FindColumn(columns[1..], name);
      if r.Some? then
        var i :| FirstNamed(columns[1..], name, i) && columns[1..][i] == r.value;
        assert FirstNamed(columns, name, i + 1);
        r
      else
        r
  }

  /** Column `i` is the first one called `name`. */
  predicate FirstNamed(columns: seq<ColumnInfo>, name: string, i: int)
  {
    0 <= i < |columns| && columns[i].name == name &&
    forall j :: 0 <= j < i ==> columns[j].name != name
  }

  const NumericTypes: seq<string> := ["LONG", "INT", "DOUBLE", "FLOAT", "DECIMAL"]
  const DateIndicators: seq<string> := ["_d", "_date", "issue_d", "earliest_cr_line"]

  predicate IsNumeric(c: ColumnInfo)
  {
    c.dataType in NumericTypes
  }

  predicate IsString(c: ColumnInfo)
  {
    c.dataType == "STRING"
  }

  /** Python's `any(indicator in name for indicator in indicators)`. */
  predicate AnyIndicator(name: string, indicators: seq<string>)
  {
    exists i :: 0 <= i < |indicators| && Contains(name, indicators[i])
  }

  predicate IsDateLike(c: ColumnInfo)
  {
    c.dataType == "STRING" && AnyIndicator(c.name, DateIndicators)
  }

  /** The list comprehension `[col.name for col in columns if keep(col)]`. */
  function NamesWhere(columns: seq<ColumnInfo>, keep: ColumnInfo -> bool): seq<string>
  {
    if columns == [] then []
    else (if keep(columns[0]) then [columns[0].name] else []) + NamesWhere(columns[1..], keep)
  }

  function Names(columns: seq<ColumnInfo>): seq<string>
  {
    NamesWhere(columns, _ => true)
  }

  /** `a` can be obtained from `b` by deleting elements: same order, nothing new. */
  predicate IsSubsequence(a: seq<string>, b: seq<string>)
    decreases |b|
  {
    a == [] ||
    (b != [] && ((a[0] == b[0] && IsSubsequence(a[1..], b[1..])) || IsSubsequence(a, b[1..])))
  }

  /** A name is selected exactly when some column with that name passes the filter. */
  lemma {:induction false} NamesWhereMembers(columns: seq<ColumnInfo>, keep: ColumnInfo -> bool, n: string)
    ensures n in NamesWhere(columns, keep) <==>
            exists i :: 0 <= i < |columns| && columns[i].name == n && keep(columns[i])
    decreases |columns|
  {
    if columns != [] {
      NamesWhereMembers(columns[1..], keep, n);
      if n in NamesWhere(columns[1..], keep) {
        var i :| 0 <= i < |columns[1..]| && columns[1..][i].name == n && keep(columns[1..][i]);
        assert columns[i + 1] == columns[1..][i];
      }
      if exists i :: 0 <= i < |columns| && columns[i].name == n && keep(columns[i]) {
        var i :| 0 <= i < |columns| && columns[i].name == n && keep(columns[i]);
        if i > 0 {
          assert columns[1..][i - 1] == columns[i];
        }
      }
    }
  }

  /** A filter that keeps fewer columns yields a subsequence of the names the wider filter
      yields: same order, nothing added. */
  lemma {:induction false} NamesWhereNarrower(columns: seq<ColumnInfo>, narrow: ColumnInfo -> bool, wide: ColumnInfo -> bool)
    requires forall i :: 0 <= i < |columns| && narrow(columns[i]) ==> wide(columns[i])
    ensures IsSubsequence(NamesWhere(columns, narrow), NamesWhere(columns, wide))
    decreases |columns|
  {
    if columns != [] {
      var rest := columns[1..];
      assert forall i :: 0 <= i < |rest| && narrow(rest[i]) ==> wide(rest[i]) by {
        forall i | 0 <= i < |rest| && narrow(rest[i]) ensures wide(rest[i]) {
          assert rest[i] == columns[i + 1];
        }
      }
      NamesWhereNarrower(rest, narrow, wide);
      var a, b := NamesWhere(rest, narrow), NamesWhere(rest, wide);
      if narrow(columns[0]) {
        assert NamesWhere(columns, narrow) == [columns[0].name] + a;
        assert NamesWhere(columns, wide) == [columns[0].name] + b;
        assert ([columns[0].name] + a)[1..] == a;
        assert ([columns[0].name] + b)[1..] == b;
      } else if wide(columns[0]) {
        assert NamesWhere(columns, narrow) == a;
        assert NamesWhere(columns, wide) == [columns[0].name] + b;
        assert ([columns[0].name] + b)[1..] == b;
      } else {
        assert NamesWhere(columns, narrow) == a;
        assert NamesWhere(columns, wide) == b;
      }
    }
  }

  /** The numeric-column list holds exactly the names of numeric columns, in table order. */
  lemma NumericColumnsExact(schema: TableSchema, n: string)
    ensures n in schema.NumericColumns() <==>
            exists i :: 0 <= i < |schema.columns| && schema.columns[i].name == n && schema.columns[i].dataType in NumericTypes
    ensures IsSubsequence(schema.NumericColumns(), Names(schema.columns))
  {
    NamesWhereMembers(schema.columns, IsNumeric, n);
    NamesWhereNarrower(schema.columns, IsNumeric, _ => true);
  }

  /** The string-column list holds exactly the names of `STRING` columns, in table order. */
  lemma StringColumnsExact(schema: TableSchema, n: string)
    ensures n in schema.StringColumns() <==>
            exists i :: 0 <= i < |schema.columns| && schema.columns[i].name == n && schema.columns[i].dataType == "STRING"
    ensures IsSubsequence(schema.StringColumns(), Names(schema.columns))
  {
    NamesWhereMembers(schema.columns, IsString, n);
    NamesWhereNarrower(schema.columns, IsString, _ => true);
  }

  predicate UniqueNames(columns: seq<ColumnInfo>)
  {
    forall i, j :: 0 <= i < j < |columns| ==> columns[i].name != columns[j].name
  }

  /** With distinct column names no name is listed both as numeric and as string. */
  lemma NumericAndStringDisjoint(schema: TableSchema, n: string)
    requires UniqueNames(schema.columns)
    ensures !(n in schema.NumericColumns() && n in schema.StringColumns())
  {
    NamesWhereMembers(schema.columns, IsNumeric, n);
    NamesWhereMembers(schema.columns, IsString, n);
  }

  /** `'_date'` and `'issue_d'` both contain `'_d'`, so the four indicators amount to two. */
  lemma DateIndicatorsReduce(name: string)
    ensures AnyIndicator(name, DateIndicators) <==>
            Contains(name, "_d") || Contains(name, "earliest_cr_line")
  {
    if Contains(name, "_date") {
      assert "_date" == "_d" + "ate";
      ContainsDropRight(name, "_d", "ate");
    }
    if Contains(name, "issue_d") {
      assert "issue_d" == "issue" + "_d";
      ContainsDropLeft(name, "issue", "_d");
    }
    if Contains(name, "_d") {
      assert Contains(name, DateIndicators[0]);
    }
    if Contains(name, "earliest_cr_line") {
      assert Contains(name, DateIndicators[3]);
    }
  }

  /** Date-like columns are string columns: their list is a subsequence of the string list. */
  lemma DateColumnsAreStringColumns(schema: TableSchema)
    ensures IsSubsequence(schema.DateColumns(), schema.StringColumns())
  {
    NamesWhereNarrower(schema.columns, IsDateLike, IsString);
  }

  function HistoricalLoansSchema(): TableSchema
  {
    TableSchema(
      tableName := "historical_loans",
      columns := [
        ColumnInfo("id", "LONG", Some("Unique loan identifier")),
        ColumnInfo("member_id", "INT", Some("Member identifier")),
        ColumnInfo("loan_amnt", "STRING", Some("Loan amount (cast to numeric)")),
        ColumnInfo("funded_amnt", "STRING", Some("Funded amount (cast to numeric)")),
        ColumnInfo("term", "STRING", Some("Loan term")),
        ColumnInfo("int_rate", "STRING", Some("Interest rate (cast to numeric)")),
        ColumnInfo("grade", "STRING", Some("Loan grade (A-G)")),
        ColumnInfo("sub_grade", "STRING", Some("Loan sub-grade")),
        ColumnInfo("purpose", "STRING", Some("Loan purpose")),
        ColumnInfo("loan_status", "STRING", Some("Current loan status")),
        ColumnInfo("issue_d", "STRING", Some("Issue date")),
        ColumnInfo("addr_state", "STRING", Some("Borrower state")),
        ColumnInfo("annual_inc", "DOUBLE", Some("Annual income")),
        ColumnInfo("emp_length", "STRING", Some("Employment length")),
        ColumnInfo("home_ownership", "STRING", Some("Home ownership status")),
        ColumnInfo("verification_status", "STRING", Some("Income verification status")),
        ColumnInfo("total_pymnt", "DOUBLE", Some("Total payments received")),
        ColumnInfo("installment", "DOUBLE", Some("Monthly installment")),
        ColumnInfo("dti", "DOUBLE", Some("Debt-to-income ratio")),
        ColumnInfo("accounting_treatment_id", "INT", Some("Accounting treatment ID"))
      ],
      primaryKey := Some("id"),
      description :=
        "Historical loan data with borrower and loan characteristics")
  }

  function RawTransactionsSchema(): TableSchema
  {
    TableSchema(
      tableName := "raw_transactions",
      columns := [
        ColumnInfo("id", "STRING", Some("Unique transaction identifier")),
        ColumnInfo("accounting_treatment_id", "STRING", Some("Accounting treatment ID")),
        ColumnInfo("balance", "STRING", Some("Account balance (cast to numeric)")),
        ColumnInfo("accrued_interest", "STRING", Some("Accrued interest (cast to numeric)")),
        ColumnInfo("arrears_balance", "STRING", Some("Arrears balance (cast to numeric)")),
        ColumnInfo("date", "STRING", Some("Transaction date")),
        ColumnInfo("status", "STRING", Some("Transaction status")),
        ColumnInfo("type", "STRING", Some("Transaction type")),
        ColumnInfo("purpose", "STRING", Some("Transaction purpose")),
        ColumnInfo("state_code", "STRING", Some("State code")),
        ColumnInfo("base_rate", "STRING", Some("Base rate")),
        ColumnInfo("cost_center_code", "STRING", Some("Cost center")),
        ColumnInfo("acc_fv_change_before_taxes", "STRING", Some("FV change before taxes (cast to numeric)"))
      ],
      primaryKey := Some("id"),
      description :=
        "Accounting and financial transaction data")
  }

  function RefAccountingSchema(): TableSchema
  {
    TableSchema(
      tableName := "ref_accounting",
      columns := [
        ColumnInfo("id", "LONG", Some("Unique identifier")),
        ColumnInfo("accounting_treatment", "STRING", Some("Accounting treatment description"))
      ],
      primaryKey := Some("id"),
      description :=
        "Reference lookup table for accounting treatments")
  }

  /** The column names of `historical_loans`, in declaration order. */
  function HistoricalLoansColumnNames(): seq<string>
  {
    ["id", "member_id", "loan_amnt", "funded_amnt", "term", "int_rate", "grade", "sub_grade",
     "purpose", "loan_status", "issue_d", "addr_state", "annual_inc", "emp_length",
     "home_ownership", "verification_status", "total_pymnt", "installment", "dti",
     "accounting_treatment_id"]
  }

  /** The column names of `raw_transactions`, in declaration order. */
  function RawTransactionsColumnNames(): seq<string>
  {
    ["id", "accounting_treatment_id", "balance", "accrued_interest", "arrears_balance", "date",
     "status", "type", "purpose", "state_code", "base_rate", "cost_center_code",
     "acc_fv_change_before_taxes"]
  }

  /** `columns` carry exactly `names`, position by position. */
  predicate NamedBy(columns: seq<ColumnInfo>, names: seq<string>)
  {
    |columns| == |names| && forall i :: 0 <= i < |columns| ==> columns[i].name == names[i]
  }

  lemma HistoricalLoansNamedBy()
    ensures NamedBy(HistoricalLoansSchema().columns, HistoricalLoansColumnNames())
  {
  }

  lemma RawTransactionsNamedBy()
    ensures NamedBy(RawTransactionsSchema().columns, RawTransactionsColumnNames())
  {
  }

  lemma HistoricalLoansNamesDistinct()
    ensures forall i, j :: 0 <= i < j < |HistoricalLoansColumnNames()| ==>
      HistoricalLoansColumnNames()[i] != HistoricalLoansColumnNames()[j]
  {
  }

  lemma RawTransactionsNamesDistinct()
    ensures forall i, j :: 0 <= i < j < |RawTransactionsColumnNames()| ==>
      RawTransactionsColumnNames()[i] != RawTransactionsColumnNames()[j]
  {
  }

  /** No shipped schema names a column twice, so `NumericAndStringDisjoint` applies to
      each of them. */
  lemma ShippedSchemasHaveUniqueNames()
    ensures UniqueNames(HistoricalLoansSchema().columns)
    ensures UniqueNames(RawTransactionsSchema().columns)
    ensures UniqueNames(RefAccountingSchema().columns)
  {
    HistoricalLoansNamedBy();
    HistoricalLoansNamesDistinct();
    RawTransactionsNamedBy();
    RawTransactionsNamesDistinct();
  }

  function AllSchemas(): map<string, TableSchema>
  {
    map[
      "historical_loans" := HistoricalLoansSchema(),
      "raw_transactions" := RawTransactionsSchema(),
      "ref_accounting" := RefAccountingSchema()
    ]
  }

  /** `get_all_schemas` returns exactly three schemas. */
  lemma AllSchemasKeys()
    ensures AllSchemas().Keys == {"historical_loans", "raw_transactions", "ref_accounting"}
    ensures |AllSchemas()| == 3
  {
    var keys := AllSchemas().Keys;
    assert keys == {"historical_loans", "raw_transactions", "ref_accounting"};
    assert |keys| == 3 by {
      assert keys == {"historical_loans"} + {"raw_transactions"} + {"ref_accounting"};
    }
  }

  lemma HistoricalLoansHeader()
    ensures HistoricalLoansSchema().tableName == "historical_loans"
    ensures HistoricalLoansSchema().primaryKey == Some("id")
  {
  }

  lemma RawTransactionsHeader()
    ensures RawTransactionsSchema().tableName == "raw_transactions"
    ensures RawTransactionsSchema().primaryKey == Some("id")
  {
  }

  lemma RefAccountingHeader()
    ensures RefAccountingSchema().tableName == "ref_accounting"
    ensures RefAccountingSchema().primaryKey == Some("id")
    ensures |RefAccountingSchema().columns| == 2
  {
  }

  /** Each schema is filed under its own table name and keyed on `id`. */
  lemma AllSchemasKeyedByName()
    ensures forall k :: k in AllSchemas() ==> AllSchemas()[k].tableName == k && AllSchemas()[k].primaryKey == Some("id")
  {
    HistoricalLoansHeader();
    RawTransactionsHeader();
    RefAccountingHeader();
  }

  /** The treatment lookup table has exactly two columns. */
  lemma RefAccountingHasTwoColumns()
    ensures "ref_accounting" in AllSchemas() && |AllSchemas()["ref_accounting"].columns| == 2
  {
    RefAccountingHeader();
  }

  /** In the loan table the id is numeric while the loan amount is stored as text. */
  lemma LoanIdIsLong()
    ensures FindColumn(HistoricalLoansSchema().columns, "id").Some?
    ensures FindColumn(HistoricalLoansSchema().columns, "id").value.dataType == "LONG"
  {
    FirstNamedIsFound(HistoricalLoansSchema().columns, "id", 0);
  }

  lemma LoanAmountIsString()
    ensures FindColumn(HistoricalLoansSchema().columns, "loan_amnt").Some?
    ensures FindColumn(HistoricalLoansSchema().columns, "loan_amnt").value.dataType == "STRING"
  {
    FirstNamedIsFound(HistoricalLoansSchema().columns, "loan_amnt", 2);
  }

  /** In the transaction table the balance is stored as text. */
  lemma TransactionColumnTypes()
    ensures FindColumn(RawTransactionsSchema().columns, "balance").Some?
    ensures FindColumn(RawTransactionsSchema().columns, "balance").value.dataType == "STRING"
  {
    FirstNamedIsFound(RawTransactionsSchema().columns, "balance", 2);
  }

  /** The lookup returns the first column of that name. */
  lemma FirstNamedIsFound(columns: seq<ColumnInfo>, name: string, i: int)
    requires FirstNamed(columns, name, i)
    ensures FindColumn(columns, name) == Some(columns[i])
  {
    var r := FindColumn(columns, name);
    var k :| FirstNamed(columns, name, k) && columns[k] == r.value;
  }

  /** The three warehouse tables, by their short names. */
  datatype TableRef = HistoricalLoans | RawTransactions | RefAccounting
  {
    function ShortName(): string
    {
      match this
      case HistoricalLoans => "historical_loans"
      case RawTransactions => "raw_transactions"
      case RefAccounting => "ref_accounting"
    }

    /** `catalog.schema.table`, as written in every query. */
    function QualifiedName(): (q: string)
      ensures LastSegment(q, '.') == ShortName()
    {
      LastSegmentAfter(CatalogSchema, '.', ShortName());
      CatalogSchema + "." + ShortName()
    }
  }

  const CatalogSchema := "efeld_cuj.loan_io"

  /** The semantic names of `FIELD_MAPPINGS`; the first five belong to the loan table, the
      other five to the transaction table. */
  datatype Field =
    | LoanAmount | InterestRate | FundedAmount | IssueDate | BorrowerId
    | TransactionBalance | TransactionInterest | ArrearsAmount | FvChange | TransactionDate
  {
    predicate IsLoanField()
    {
      this in {LoanAmount, InterestRate, FundedAmount, IssueDate, BorrowerId}
    }

    function Key(): string
    {
      match this
      case LoanAmount => "loan_amount"
      case InterestRate => "interest_rate"
      case FundedAmount => "funded_amount"
      case IssueDate => "issue_date"
      case BorrowerId => "borrower_id"
      case TransactionBalance => "transaction_balance"
      case TransactionInterest => "transaction_interest"
      case ArrearsAmount => "arrears_amount"
      case FvChange => "fv_change"
      case TransactionDate => "transaction_date"
    }

    function Expr(): string
    {
      match this
      case LoanAmount => "CAST(loan_amnt AS DOUBLE)"
      case InterestRate => "CAST(REPLACE(int_rate, '%', '') AS DOUBLE)"
      case FundedAmount => "CAST(funded_amnt AS DOUBLE)"
      case IssueDate => "TO_DATE(issue_d, 'MMM-yyyy')"
      case BorrowerId => "member_id"
      case TransactionBalance => "CAST(balance AS DOUBLE)"
      case TransactionInterest => "CAST(accrued_interest AS DOUBLE)"
      case ArrearsAmount => "CAST(arrears_balance AS DOUBLE)"
      case FvChange => "CAST(acc_fv_change_before_taxes AS DOUBLE)"
      case TransactionDate => "TO_DATE(date, 'yyyy-MM-dd')"
    }
  }

  const FieldMappings: map<string, string> := map[
    "loan_amount" := "CAST(loan_amnt AS DOUBLE)",
    "interest_rate" := "CAST(REPLACE(int_rate, '%', '') AS DOUBLE)",
    "funded_amount" := "CAST(funded_amnt AS DOUBLE)",
    "issue_date" := "TO_DATE(issue_d, 'MMM-yyyy')",
    "borrower_id" := "member_id",
    "transaction_balance" := "CAST(balance AS DOUBLE)",
    "transaction_interest" := "CAST(accrued_interest AS DOUBLE)",
    "arrears_amount" := "CAST(arrears_balance AS DOUBLE)",
    "fv_change" := "CAST(acc_fv_change_before_taxes AS DOUBLE)",
    "transaction_date" := "TO_DATE(date, 'yyyy-MM-dd')"
  ]

  /** The semantic names of `COMMON_CONDITIONS`. */
  datatype Condition = ValidLoans | RecentLoans | ValidStatus | ValidState | ValidGrade | ValidPurpose
  {
    function Key(): string
    {
      match this
      case ValidLoans => "valid_loans"
      case RecentLoans => "recent_loans"
      case ValidStatus => "valid_status"
      case ValidState => "valid_state"
      case ValidGrade => "valid_grade"
      case ValidPurpose => "valid_purpose"
    }

    function Expr(): string
    {
      match this
      case ValidLoans => "loan_amnt IS NOT NULL" + (" AND " + (LoanAmount.Expr() + " > 0"))
      case RecentLoans => "issue_d IS NOT NULL"
      case ValidStatus => "loan_status IS NOT NULL"
      case ValidState => "addr_state IS NOT NULL AND addr_state != ''"
      case ValidGrade => "grade IS NOT NULL AND grade != ''"
      case ValidPurpose => "purpose IS NOT NULL AND purpose != ''"
    }
  }

  const CommonConditions: map<string, string> := map[
    "valid_loans" := "loan_amnt IS NOT NULL" + (" AND " + (LoanAmount.Expr() + " > 0")),
    "recent_loans" := "issue_d IS NOT NULL",
    "valid_status" := "loan_status IS NOT NULL",
    "valid_state" := "addr_state IS NOT NULL AND addr_state != ''",
    "valid_grade" := "grade IS NOT NULL AND grade != ''",
    "valid_purpose" := "purpose IS NOT NULL AND purpose != ''"
  ]

  /** `FIELD_MAPPINGS` is exactly the named field expressions: one entry per field, each
      holding that field's expression. */
  lemma FieldMappingsMatchFields()
    ensures forall f: Field :: f.Key() in FieldMappings && FieldMappings[f.Key()] == f.Expr()
    ensures forall k :: k in FieldMappings ==> exists f: Field :: f.Key() == k
  {
    forall k | k in FieldMappings ensures exists f: Field :: f.Key() == k {
      if k == "loan_amount" { assert LoanAmount.Key() == k; }
      else if k == "interest_rate" { assert InterestRate.Key() == k; }
      else if k == "funded_amount" { assert FundedAmount.Key() == k; }
      else if k == "issue_date" { assert IssueDate.Key() == k; }
      else if k == "borrower_id" { assert BorrowerId.Key() == k; }
      else if k == "transaction_balance" { assert TransactionBalance.Key() == k; }
      else if k == "transaction_interest" { assert TransactionInterest.Key() == k; }
      else if k == "arrears_amount" { assert ArrearsAmount.Key() == k; }
      else if k == "fv_change" { assert FvChange.Key() == k; }
      else { assert TransactionDate.Key() == k; }
    }
  }

  /** `COMMON_CONDITIONS` is exactly the named conditions, each holding its expression. */
  lemma CommonConditionsMatchConditions()
    ensures forall c: Condition :: c.Key() in CommonConditions && CommonConditions[c.Key()] == c.Expr()
    ensures forall k :: k in CommonConditions ==> exists c: Condition :: c.Key() == k
  {
    forall k | k in CommonConditions ensures exists c: Condition :: c.Key() == k {
      if k == "valid_loans" { assert ValidLoans.Key() == k; }
      else if k == "recent_loans" { assert RecentLoans.Key() == k; }
      else if k == "valid_status" { assert ValidStatus.Key() == k; }
      else if k == "valid_state" { assert ValidState.Key() == k; }
      else if k == "valid_grade" { assert ValidGrade.Key() == k; }
      else { assert ValidPurpose.Key() == k; }
    }
  }

  /** `valid_loans` tests for presence and casts the amount with the same expression the
      `loan_amount` mapping uses. */
  lemma ValidLoansPieces()
    ensures Contains(ValidLoans.Expr(), "loan_amnt IS NOT NULL")
    ensures Contains(ValidLoans.Expr(), LoanAmount.Expr() + " > 0")
  {
    var head, tail := "loan_amnt IS NOT NULL", " AND " + (LoanAmount.Expr() + " > 0");
    ContainsSelf(head);
    ContainsExtendRight(head, tail, head);
    ContainsSelf(head + tail);
    ContainsDropLeft(head + tail, head, tail);
    ContainsDropLeft(head + tail, " AND ", LoanAmount.Expr() + " > 0");
  }
}
