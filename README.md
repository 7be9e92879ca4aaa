# Loan analytics dashboard: query catalogue, execution facade and schema checks

This project models the core of a Streamlit dashboard over a Databricks SQL warehouse. The
dashboard analyses three tables of the `efeld_cuj.loan_io` schema: `historical_loans`,
`raw_transactions` and `ref_accounting`. The model covers these parts:

- **Table schemas** (`TableSchemas`): the `ColumnInfo`/`TableSchema` records, the first-match
  column lookup, and the three order-preserving column filters (numeric, `STRING`, date-like).
  It also holds the three fixed schemas and the two constant fragment tables,
  `FIELD_MAPPINGS` and `COMMON_CONDITIONS`.
- **Query templates** (`Templates`, `LoanQueries`, `TransactionQueries`,
  `AccountingQueries`): each of the sixteen parameterless SQL templates is a sequence of
  parts. A part is literal text, a spliced field mapping or a spliced common condition. A
  template's SQL is the concatenation of its rendered parts, so "template X contains
  fragment Y" follows from its structure. The employment-length `CASE` bucket and its
  `ORDER BY` rank are plain functions.
- **Registry and execution facade** (`QueryManagement`, `Dashboard`):
  - the registry maps 21 query-type keys to templates: 16 primary keys and 5 legacy aliases;
  - `QueryManager` runs a registered or custom query against the database and reports the
    outcome through an outcome table;
  - the package-level lazy singleton and its module-level functions wrap that manager.
- **Database connection** (`DatabaseConnections`):
  - the warehouse-id guard and the cache clearing on a failed connection;
  - the metadata record of a query result;
  - the connection probe;
  - the `DESCRIBE TABLE` lookup.
- **Schema validator** (`SchemaValidation`): the column, sample and column-exists helpers
  over `DESCRIBE` / `SELECT * … LIMIT`. It also covers `validate_all_tables`, which loops
  over the three tables and fills a results dictionary keyed by each table's short name.

### Modelling conventions

- **The database's answer.** The dashboard's components call `db.execute_query` and see
  one of three outcomes: a result dictionary, `None`, or a raised exception. The `Backend`
  class models this. Its `answers` function gives the outcome for each SQL text, and its
  `received` log records every statement sent. `DatabaseConnection` models the layer below,
  over an abstract `Driver`.
- **Status messages.** Every `st.error`, `st.warning`, `st.info` and `st.success` call is
  appended to one shared log, `Ui.messages`, so contracts can state how many messages of
  which kind an operation shows. Display-only calls (`st.write`, `st.code`, expanders) are
  not recorded.
- **Data frames.** A pandas `DataFrame` is a `Frame`: a column-label sequence plus one
  record per row. `df.empty` holds when there are no rows or no columns.

## Model

| member | source | states |
|---|---|---|
| TableSchemas.ColumnDefaults | src/models/table_schemas.py:10-16 | a `ColumnInfo` built from a name and a type alone has no comment and is nullable |
| TableSchemas.TableSchema.GetColumn | src/models/table_schemas.py:27-32 | the lookup loop returns exactly `FindColumn`: the first column with that name, or `None` |
| TableSchemas.FindColumn | src/models/table_schemas.py:27-32 | `None` exactly when no column has the name; otherwise a column that is the first one carrying the name |
| TableSchemas.FirstNamedIsFound | src/models/table_schemas.py:27-32 | whenever column `i` is the first with the name, the lookup returns that column |
| TableSchemas.NamesWhereMembers | src/models/table_schemas.py:37 | a name is in a filtered name list exactly when some column has that name and passes the filter |
| TableSchemas.NamesWhereNarrower | src/models/table_schemas.py:43-48 | filtering by a narrower predicate gives a subsequence (same order) of filtering by a wider one |
| TableSchemas.NumericColumnsExact | src/models/table_schemas.py:34-37 | `get_numeric_columns` lists exactly the names typed LONG, INT, DOUBLE, FLOAT or DECIMAL, in column order |
| TableSchemas.StringColumnsExact | src/models/table_schemas.py:39-41 | `get_string_columns` lists exactly the names typed `STRING`, in column order |
| TableSchemas.NumericAndStringDisjoint | src/models/table_schemas.py:34-41 | with unique column names, no name is both numeric and string |
| TableSchemas.ShippedSchemasHaveUniqueNames | src/models/table_schemas.py:55-126 | no column name appears twice in `historical_loans`, `raw_transactions` or `ref_accounting`, so the disjointness above holds for each |
| TableSchemas.DateIndicatorsReduce | src/models/table_schemas.py:45-48 | matching any date indicator is the same as containing `_d` or `earliest_cr_line` |
| TableSchemas.DateColumnsAreStringColumns | src/models/table_schemas.py:43-48 | the date-like columns are a subsequence of the string columns |
| TableSchemas.AllSchemasKeys | src/models/table_schemas.py:129-135 | `get_all_schemas` has exactly the three keys `historical_loans`, `raw_transactions`, `ref_accounting` |
| TableSchemas.AllSchemasKeyedByName | src/models/table_schemas.py:80-135 | each schema is keyed by its own table name and has primary key `id` |
| TableSchemas.HistoricalLoansHeader | src/models/table_schemas.py:80-85 | table name `historical_loans`, primary key `id` |
| TableSchemas.RawTransactionsHeader | src/models/table_schemas.py:106-111 | table name `raw_transactions`, primary key `id` |
| TableSchemas.RefAccountingHeader | src/models/table_schemas.py:114-126 | table name `ref_accounting`, primary key `id`, exactly two columns |
| TableSchemas.RefAccountingHasTwoColumns | src/models/table_schemas.py:116-119 | the `ref_accounting` entry of `get_all_schemas` has two columns |
| TableSchemas.LoanIdIsLong | src/models/table_schemas.py:58 | the historical-loans `id` column exists and is LONG |
| TableSchemas.LoanAmountIsString | src/models/table_schemas.py:60 | the historical-loans `loan_amnt` column exists and is STRING |
| TableSchemas.TransactionColumnTypes | src/models/table_schemas.py:93 | the raw-transactions `balance` column exists and is STRING |
| TableSchemas.FieldMappingsMatchFields | src/models/table_schemas.py:139-153 | `FIELD_MAPPINGS` has exactly one key per field, mapped to that field's SQL expression |
| TableSchemas.CommonConditionsMatchConditions | src/models/table_schemas.py:156-163 | `COMMON_CONDITIONS` has exactly one key per condition, mapped to that condition's SQL |
| TableSchemas.ValidLoansPieces | src/models/table_schemas.py:141-157 | `valid_loans` contains `loan_amnt IS NOT NULL` and the `loan_amount` mapping followed by ` > 0` |
| TableSchemas.TableRef.QualifiedName | src/utils/schema_validator.py:90-94 | the last `.`-segment of a table's full name is its short name |
| Text.Join | src/query_manager.py:68 | every joined item occurs in `sep.join(items)` |
| Text.LastSegmentFree | src/utils/schema_validator.py:99 | `split('.')[-1]` holds no `.` |
| Text.LastSegmentSuffix | src/utils/schema_validator.py:99 | `split('.')[-1]` is the end of the name, preceded by a `.` unless it is the whole name |
| Text.LastSegmentAfter | src/utils/schema_validator.py:99 | for `p + '.' + q` with no `.` in `q`, the last segment is exactly `q` |
| Text.NatToString | src/utils/schema_validator.py:116 | `str(n)` of a count is a non-empty string of decimal digits |
| Text.IntToString | src/utils/schema_validator.py:68 | `str(limit)` is non-empty and starts with `-` exactly when the limit is negative |
| Text.ContainsEachPart | src/queries/loan_queries.py:14-26 | every piece of an f-string occurs in the assembled text |
| Templates.RenderContains | src/queries/loan_queries.py:14-26 | every part of a template, literal or spliced, occurs in its SQL |
| Templates.RenderReadsFrom | src/queries/loan_queries.py:24 | a template with a `FROM <table>` part reads that table's full name |
| Templates.RenderLabelsUnknown | src/queries/transaction_queries.py:33 | a `COALESCE(column, 'Unknown')` part puts the column and `'Unknown'` in the SQL |
| LoanQueries.LoanShapeText | src/queries/loan_queries.py:24-25 | a loan-shaped template's SQL contains `SELECT` and `FROM efeld_cuj.loan_io.historical_loans`, contains `valid_loans` (hence `loan_amnt IS NOT NULL`) and each extra condition |
| LoanQueries.LoanSummaryLayout | src/queries/loan_queries.py:14-26 | the leading `SELECT` part; positions of the `FROM`, the `valid_loans` filter and the `loan_amount` mapping; only loan mappings spliced |
| LoanQueries.LoanSummaryShape | src/queries/loan_queries.py:12-26 | loan-shaped with no extra condition, and splices the `loan_amount` mapping |
| LoanQueries.LoanStatusDistributionLayout | src/queries/loan_queries.py:38-39 | the leading `SELECT` part; the `FROM`, `valid_loans` and `valid_status` parts and their positions |
| LoanQueries.LoanStatusDistributionShape | src/queries/loan_queries.py:29-42 | loan-shaped with the extra condition `valid_status` |
| LoanQueries.GradeAnalysisLayout | src/queries/loan_queries.py:57-58 | the leading `SELECT` part; the `FROM`, `valid_loans` and `valid_grade` parts |
| LoanQueries.GradeAnalysisShape | src/queries/loan_queries.py:45-61 | loan-shaped with the extra condition `valid_grade` |
| LoanQueries.PurposeAnalysisLayout | src/queries/loan_queries.py:74-75 | the leading `SELECT` part; the `FROM`, `valid_loans` and `valid_purpose` parts |
| LoanQueries.PurposeAnalysisShape | src/queries/loan_queries.py:64-78 | loan-shaped with the extra condition `valid_purpose` |
| LoanQueries.StateDistributionLayout | src/queries/loan_queries.py:91-92 | the leading `SELECT` part; the `FROM`, `valid_loans` and `valid_state` parts |
| LoanQueries.StateDistributionShape | src/queries/loan_queries.py:81-95 | loan-shaped with the extra condition `valid_state` |
| LoanQueries.MonthlyLoanTrendLayout | src/queries/loan_queries.py:107-112 | the leading `SELECT` part; the `FROM`, `valid_loans`, `recent_loans` and `LIMIT 50` parts |
| LoanQueries.MonthlyLoanTrendShape | src/queries/loan_queries.py:98-113 | loan-shaped with the extra condition `recent_loans`, capped by `LIMIT 50` |
| LoanQueries.RiskAnalysisLayout | src/queries/loan_queries.py:127-130 | the leading `SELECT` part; the `FROM`, `valid_loans`, `valid_grade` and `valid_status` parts |
| LoanQueries.RiskAnalysisShape | src/queries/loan_queries.py:116-133 | loan-shaped with the extra conditions `valid_grade` and `valid_status` |
| LoanQueries.EmploymentAnalysisLayout | src/queries/loan_queries.py:153-154 | the leading `SELECT` part; the `FROM` and `valid_loans` parts |
| LoanQueries.EmploymentAnalysisShape | src/queries/loan_queries.py:136-165 | loan-shaped with no extra condition |
| LoanQueries.LoanQueryShape | src/queries/loan_queries.py:12-165 | every one of the eight loan templates is loan-shaped with its own extra conditions |
| LoanQueries.LoanSqlReadsLoans | src/queries/loan_queries.py:12-165 | every loan template's SQL is a `SELECT … FROM historical_loans` that keeps `valid_loans` and its extra conditions |
| LoanQueries.EmploymentGroup | src/queries/loan_queries.py:140-147 | the bucketing is total: every value, `NULL` included, lands in one of the five named groups or `'Unknown'` |
| LoanQueries.GroupRank | src/queries/loan_queries.py:156-164 | every group gets a rank between 1 and 6 |
| LoanQueries.EmploymentGroupMembers | src/queries/loan_queries.py:140-147 | for each named group, the exact raw values that land in it (both directions) |
| LoanQueries.GroupRankOrder | src/queries/loan_queries.py:156-164 | the five named groups get ranks 1 to 5 in label order; any other label gets 6 |
| LoanQueries.UnknownSortsLast | src/queries/loan_queries.py:140-164 | a bucket sorts last exactly when it is `'Unknown'`, and a named bucket sorts at its position in the label list |
| TransactionQueries.TransactionShapeText | src/queries/transaction_queries.py:24-25 | a transaction-shaped template's SQL contains `SELECT` and `FROM efeld_cuj.loan_io.raw_transactions`, and filters on a non-zero balance |
| TransactionQueries.TransactionShapeNoLoanField | src/queries/transaction_queries.py:19-20 | a transaction-shaped template splices no loan-table mapping |
| TransactionQueries.TransactionSummaryLayout | src/queries/transaction_queries.py:15-26 | the leading `SELECT` part; the `FROM`, balance filter, `transaction_balance` mapping and `accounting_treatment_id` parts |
| TransactionQueries.TransactionSummaryShape | src/queries/transaction_queries.py:13-26 | transaction-shaped, with the `transaction_balance` mapping and `accounting_treatment_id` |
| TransactionQueries.TransactionByStatusLayout | src/queries/transaction_queries.py:31-43 | the leading `SELECT` part; the `COALESCE(status, 'Unknown')`, `FROM` and balance-filter parts |
| TransactionQueries.TransactionByStatusShape | src/queries/transaction_queries.py:29-43 | transaction-shaped, with status labelled `'Unknown'` when missing |
| TransactionQueries.TransactionByPurposeLayout | src/queries/transaction_queries.py:48-60 | the leading `SELECT` part; the `COALESCE(purpose, 'Unknown')`, `FROM`, balance filter and `purpose IS NOT NULL` parts |
| TransactionQueries.TransactionByPurposeShape | src/queries/transaction_queries.py:46-60 | transaction-shaped, labels missing purposes `'Unknown'` and also requires `purpose IS NOT NULL` |
| TransactionQueries.PaymentAnalysisLayout | src/queries/transaction_queries.py:65-79 | the leading `SELECT` part; the `COALESCE(type, 'Unknown')`, `arrears_amount` mapping, `FROM` and balance-filter parts |
| TransactionQueries.PaymentAnalysisShape | src/queries/transaction_queries.py:63-79 | transaction-shaped, with type labelled `'Unknown'` when missing |
| TransactionQueries.TransactionQueryShape | src/queries/transaction_queries.py:10-79 | every one of the four transaction templates is transaction-shaped |
| TransactionQueries.TransactionSqlReadsTransactions | src/queries/transaction_queries.py:10-79 | every transaction template's SQL is a `SELECT … FROM raw_transactions` |
| AccountingQueries.BalancePresentText | src/queries/accounting_queries.py:23 | text containing the balance-present filter contains `balance IS NOT NULL` and `balance != ''` |
| AccountingQueries.AccountingShapeText | src/queries/accounting_queries.py:40-41 | an accounting-shaped template's SQL contains `SELECT` and `FROM efeld_cuj.loan_io.raw_transactions`, and filters on a present balance |
| AccountingQueries.TreatmentJoinText | src/queries/accounting_queries.py:20-22 | the join parts put `ref_accounting` and the join key `CAST(rt.accounting_treatment_id AS LONG) = ra.id` in the SQL |
| AccountingQueries.AccountingTreatmentAnalysisLayout | src/queries/accounting_queries.py:12-26 | the leading `SELECT` part; the `FROM`, `LEFT JOIN`, join key, balance filter and `'Unknown'` treatment label parts; no interpolation |
| AccountingQueries.AccountingTreatmentAnalysisShape | src/queries/accounting_queries.py:10-26 | accounting-shaped; `FROM raw_transactions` precedes `LEFT JOIN ref_accounting`, which precedes its `ON` key; unmatched treatments are `'Unknown'` |
| AccountingQueries.BalanceAnalysisLayout | src/queries/accounting_queries.py:31-44 | the leading `SELECT` part; the `COALESCE` labels, `FROM` and balance-filter parts; no interpolation |
| AccountingQueries.BalanceAnalysisShape | src/queries/accounting_queries.py:29-44 | accounting-shaped, with type and status labelled `'Unknown'` when missing |
| AccountingQueries.AccountingByStateLayout | src/queries/accounting_queries.py:49-61 | the leading `SELECT` part; the `COALESCE(state_code, 'Unknown')`, `FROM` and balance-filter parts; no interpolation |
| AccountingQueries.AccountingByStateShape | src/queries/accounting_queries.py:47-61 | accounting-shaped, with state labelled `'Unknown'` when missing |
| AccountingQueries.InterestAnalysisLayout | src/queries/accounting_queries.py:66-83 | the leading `SELECT` part; the `COALESCE` label, positive-balance guard, `ELSE 0`, `FROM` and balance-filter parts; no interpolation |
| AccountingQueries.InterestAnalysisShape | src/queries/accounting_queries.py:64-83 | accounting-shaped; the ratio's positive-balance guard comes before its `ELSE 0` |
| AccountingQueries.AccountingQueryShape | src/queries/accounting_queries.py:9-83 | every one of the four accounting templates is accounting-shaped, with the `rt.` alias in the joined one |
| AccountingQueries.AccountingSqlReadsTransactions | src/queries/accounting_queries.py:9-83 | every accounting template's SQL is a `SELECT … FROM raw_transactions` |
| QueryManagement.LoanKeysResolve | src/query_manager.py:27-34 | each loan template's own key is registered, resolves to that template and is not an alias |
| QueryManagement.TransactionKeysResolve | src/query_manager.py:37-40 | each transaction template's own key resolves to that template |
| QueryManagement.AccountingKeysResolve | src/query_manager.py:43-46 | each accounting template's own key resolves to that template |
| QueryManagement.PrimaryKeysResolve | src/query_manager.py:25-46 | every template is registered under its primary key, which is not an alias |
| QueryManagement.AliasesResolve | src/query_manager.py:49-53 | each legacy alias resolves to the same template as its primary key |
| QueryManagement.RegistryKeysListed | src/query_manager.py:25-54 | the keys listed in insertion order are exactly the registry's keys |
| QueryManagement.RegistryKeysDistinct | src/query_manager.py:25-54 | 21 distinct keys, five of them aliases |
| QueryManagement.AliasesAreTheOtherKeys | src/query_manager.py:25-54 | a key is an alias exactly when it is registered under a name other than its template's own |
| QueryManagement.DescriptionsCoverPrimaryKeys | src/query_manager.py:146-168 | the described query types are exactly the registered non-alias keys |
| QueryManagement.DescriptionsNonEmpty | src/query_manager.py:146-168 | every description is non-empty |
| QueryManagement.SqlReadsItsTable | src/query_manager.py:25-54 | every registrable template's SQL is a `SELECT` from its own table: `historical_loans` for loan templates, `raw_transactions` for the others |
| QueryManagement.RegistrySqlReadsItsTable | src/query_manager.py:25-54 | whatever registered key is asked for, aliases included, the SQL it names is a `SELECT` from that template's table |
| QueryManagement.Settle | src/query_manager.py:83-100 | data is returned exactly when the database returned a result with data, and then unchanged and silently; otherwise one message: a warning for `None`, an error with the exception's text for a raise |
| QueryManagement.SettleEmitsAtMostOne | src/query_manager.py:83-100 | at most one error or warning, and exactly one when nothing is returned |
| QueryManagement.EmptyFrameIsReturned | src/query_manager.py:83-93 | a result whose table is empty is returned as is, with no message |
| QueryManagement.QueryManager.constructor | src/query_manager.py:18-54 | the registry and its key order are the constants above, each entry renders its template, and the connection is the given database |
| QueryManagement.QueryManager.ExecutePredefinedQuery | src/query_manager.py:56-100 | an unknown name shows an error and the list of available keys and never reaches the database; a known one sends its template's SQL once and settles the answer |
| QueryManagement.QueryManager.ExecuteQueryCached | src/query_manager.py:102-105 | the SQL is passed to the database unchanged and its answer returned |
| QueryManagement.QueryManager.ReportAnswer | src/query_manager.py:83-100 | the returned frame and the shown messages are those of the outcome table |
| QueryManagement.QueryManager.ExecuteCustomQuery | src/query_manager.py:107-128 | the text goes to the database unchanged, once, and the same outcome table applies with the custom-query texts |
| QueryManagement.QueryManager.TestConnection | src/query_manager.py:130-137 | sends `SELECT 1 as test` once and returns the probe's verdict with its messages |
| QueryManagement.QueryManager.GetAvailableQueries | src/query_manager.py:139-170 | one non-empty description per primary key, none for the aliases |
| Dashboard.Package.constructor | src/__init__.py:19 | no manager exists when the package is imported |
| Dashboard.Package.GetQueryManager | src/__init__.py:21-26 | creates a manager only when none exists and returns the identical instance afterwards; the manager returned is connected to the package's database and holds the constant registry |
| Dashboard.Package.ExecutePredefinedQuery | src/__init__.py:29-56 | a name that is not a registry key gives `None` and one error with no database call; a registry key sends exactly its template's SQL once and settles the answer |
| Dashboard.Package.ExecuteCustomQuery | src/__init__.py:58-60 | the singleton's custom-query behaviour, unchanged |
| Dashboard.Package.InitializeConnection | src/__init__.py:62-64 | the singleton's connection test, unchanged |
| DatabaseConnections.Frame.Column | src/utils/schema_validator.py:33 | `df[name].tolist()` exists exactly when the column does, with one cell per row, in row order |
| DatabaseConnections.Describe | src/database_connection.py:62-66 | `row_count` is the number of rows; column count and column list are the frame's when it is not empty, else 0 and `[]` |
| DatabaseConnections.ProbeResult | src/database_connection.py:84-89 | the probe succeeds exactly when a result with a non-empty table came back |
| DatabaseConnections.ProbeMessages | src/database_connection.py:84-89 | the probe shows one error exactly when it raised or its result had no table, else nothing |
| DatabaseConnections.TableInfoOf | src/database_connection.py:101-115 | info exactly for a non-empty describe result, carrying the name and one column record per row; a warning only on an exception |
| DatabaseConnections.TableInfoOfNoResult | src/database_connection.py:105-111 | a `None` result gives no info and no warning |
| DatabaseConnections.Driver.Connect | src/database_connection.py:31-35 | the connect attempt is recorded and fails exactly when the driver refuses it |
| DatabaseConnections.Driver.Execute | src/database_connection.py:57-59 | the statement is recorded and answered by the driver |
| DatabaseConnections.DatabaseConnection.constructor | src/database_connection.py:15-17 | the warehouse id is read once; no cache clear has happened |
| DatabaseConnections.DatabaseConnection.ConnectFailure | src/database_connection.py:27-42 | a missing or empty warehouse id fails with the `DATABRICKS_WAREHOUSE_ID` message before any connect; otherwise the driver's refusal |
| DatabaseConnections.DatabaseConnection.QueryOutcome | src/database_connection.py:54-75 | `None` exactly when connecting or executing fails; otherwise the table with its metadata |
| DatabaseConnections.DatabaseConnection.QueryMessages | src/database_connection.py:39-75 | messages appear exactly when the outcome is `None`, and they are all errors |
| DatabaseConnections.DatabaseConnection.GetConnection | src/database_connection.py:19-42 | a failure shows one connection error, clears the cache once and hands the same error back; a success changes neither; no connect attempt without a warehouse id |
| DatabaseConnections.DatabaseConnection.ExecuteQuery | src/database_connection.py:44-75 | returns the query outcome with its errors; the statement reaches the driver only when connecting succeeded |
| DatabaseConnections.DatabaseConnection.TestConnection | src/database_connection.py:77-89 | true exactly when `SELECT 1 as test` returned a non-empty table |
| DatabaseConnections.DatabaseConnection.GetTableInfo | src/database_connection.py:91-115 | issues `DESCRIBE TABLE <name>`, returns the table info of its outcome and adds no warning |
| DatabaseConnections.ConnectionNeverRaises | src/database_connection.py:44-75 | the real `execute_query` never lets an exception out: its answer is a table exactly when connecting and executing both succeed, `None` otherwise |
| DatabaseConnections.Backend.ExecuteQuery | src/database_connection.py:44-75 | every statement is recorded and answered by the oracle |
| DatabaseConnections.Backend.TestConnection | src/database_connection.py:77-89 | the probe as seen through the oracle: `SELECT 1 as test` sent once, verdict and messages from its answer |
| SchemaValidation.ColumnsOf | src/utils/schema_validator.py:26-38 | columns exactly for a non-empty result with a `col_name` column, one per row in order; at most one warning, shown exactly on a raise, a missing table or a missing `col_name` |
| SchemaValidation.SampleOf | src/utils/schema_validator.py:67-81 | a sample exactly for a non-empty result: its columns, first row and row count; a warning exactly on a raise or a missing table |
| SchemaValidation.ReportFrom | src/utils/schema_validator.py:105-112 | the record keeps name, columns and sample; `column_count` is the list length or 0; each flag holds exactly when columns were found and contain that field |
| SchemaValidation.Verdict | src/utils/schema_validator.py:115-134 | a success exactly when a non-empty column list was found, else an error |
| SchemaValidation.FailedCount | src/utils/schema_validator.py:98-134 | counts the tables that yield no column list: zero exactly when every table yields one, all of them exactly when none does |
| SchemaValidation.KeyedKeys | src/utils/schema_validator.py:96-105 | the results dictionary's keys are exactly the short names of the tables |
| SchemaValidation.ShortNamesMembers | src/utils/schema_validator.py:99 | a key is present exactly when it is the last segment of some table |
| SchemaValidation.KeyedEntry | src/utils/schema_validator.py:105-112 | a table whose short name no later table shares keeps its own entry |
| SchemaValidation.ValidatedShortNames | src/utils/schema_validator.py:90-99 | the three tables' short names are `historical_loans`, `raw_transactions`, `ref_accounting` |
| SchemaValidation.ValidatedTablesKeys | src/utils/schema_validator.py:90-112 | the dictionary of the three tables' reports has exactly the three short-name keys |
| SchemaValidation.FirstNonText | src/utils/schema_validator.py:119 | the position where `', '.join` stops: every earlier column name is a string and the one there is not |
| SchemaValidation.ListingError | src/utils/schema_validator.py:115-119 | the first-ten-columns line raises `TypeError` exactly when a non-empty column list has a non-string among its first ten names |
| SchemaValidation.AllListedEach | src/utils/schema_validator.py:98-119 | the tables all get past their first-ten-columns line exactly when each one does |
| SchemaValidation.AllListedPrefix | src/utils/schema_validator.py:98-119 | when all tables get past that line, so does every prefix of them |
| SchemaValidation.PrefixStep | src/utils/schema_validator.py:98-119 | one more loop iteration appends its two statements and its messages and stores its entry under its short name |
| SchemaValidation.ValidatedTablesEntries | src/utils/schema_validator.py:98-112 | each table's entry is the report of its own two queries, whatever happened to the others |
| SchemaValidation.ErrorCountAppend | src/utils/schema_validator.py:98-134 | errors of a concatenated log add up |
| SchemaValidation.WarningsCountNoError | src/utils/schema_validator.py:37 | a log made only of warnings, of any length, holds no error |
| SchemaValidation.TableMessagesErrors | src/utils/schema_validator.py:115-134 | a table shows one error exactly when its columns were not retrieved, else none |
| SchemaValidation.ErrorsAreFailedTables | src/utils/schema_validator.py:98-134 | the loop shows exactly one error per failed table |
| SchemaValidation.SchemaValidator.GetTableColumns | src/utils/schema_validator.py:16-38 | sends `DESCRIBE <table>` once; result and warning are those of `ColumnsOf` |
| SchemaValidation.SchemaValidator.ValidateColumnExists | src/utils/schema_validator.py:40-54 | true exactly when a non-empty column list was retrieved and contains the name |
| SchemaValidation.SchemaValidator.GetSampleData | src/utils/schema_validator.py:56-81 | sends `SELECT * FROM <table> LIMIT <limit>` once; result and warning are those of `SampleOf` |
| SchemaValidation.SchemaValidator.ValidateTable | src/utils/schema_validator.py:99-134 | one loop iteration: both queries in order, its warnings then its verdict; it yields the table's report exactly when the first-ten-columns line does not raise, and the `TypeError` text otherwise |
| SchemaValidation.SchemaValidator.ShowVerdict | src/utils/schema_validator.py:115-134 | shows exactly the verdict for the table |
| SchemaValidation.SchemaValidator.ValidateTables | src/utils/schema_validator.py:96-136 | when no table's first-ten-columns line raises, the dictionary, statements and messages are those of all tables in order, and a table without columns does not stop the rest; otherwise the call raises the first such table's `TypeError`, after exactly the statements and messages up to and including that table |
| SchemaValidation.SchemaValidator.ValidateAllTables | src/utils/schema_validator.py:83-136 | when no first-ten-columns line raises: exactly the three short-name keys, each with its table's report, and all six statements; otherwise the first raising table's `TypeError`, after the statements and messages up to it |

## Left out

- Streamlit caching (`st.cache_data`, `st.cache_resource` with their TTLs): every cached call is a plain pass-through. No deduplication and no expiry are modelled.
- Display-only output is not recorded. This covers `st.write`, `st.code`, expanders, the "Validating" line, the text of the first-ten-columns line and the loan/accounting field-status lines of the schema validator. The `TypeError` that the first-ten-columns line raises on a non-string column name is modelled.
- SQL semantics: what the aggregates, window functions and `DOUBLE` casts compute on the warehouse. Templates are modelled as text only.
- Floating-point values: result cells are `Null`, strings or integers.
- `DatabaseConnections.Frame` does not tie its rows to its column labels. A row may lack a listed column or carry a key that is not listed; pandas builds neither. `Frame.Column` fills a missing cell with `Null`, a case a real frame never reaches. Every contract holds for all frames, so it holds for the well-formed frames pandas builds.
- The Databricks driver, cursor, `fetchall_arrow().to_pandas()`, `Config()` and `os.getenv`. They are represented by the `Driver` oracle, a warehouse-id parameter and the `Backend` oracle.
- The `Backend` oracle stands for `db.execute_query` as its callers see it. The errors that `execute_query` itself shows before returning `None` are not part of its answer (`DatabaseConnection.ExecuteQuery` models them separately).
- `QueryManagement.QueryManager.constructor`: the bound template methods are a `render` function on the query-name datatype. Calling a registry entry is `render(entry)`.
- Template determinism: templates take no arguments, so each returns the same text on every call by construction. No separate lemma states it.
- The exceptions that `get_table_columns` and `get_sample_data` catch are written out case by case. A raised answer, a `None` table (`.empty` on `None`) and a missing `col_name` column (`KeyError`) each give the warning. The warning carries the exception's text: the answer's message in the first case, and in the others the text `str(e)` gives for the `AttributeError` or the `KeyError`.
- Column names in a `DESCRIBE` result are cells. The `'loan_amnt' in columns` test compares them with the string cell `Str("loan_amnt")`. A non-string cell never equals a string there. The `TypeError` text names the Python type as `NoneType` for a null cell and `int` for a number; other cell types are not modelled.
- `app.py`, `data_ingestion/data_generator.py`, `src/utils/debug_app.py` and the test runner are not part of this model. They are UI, a data generator and tooling.

## Where the code and its documentation differ

The model follows the code in each place below.

- The dashboard page treats an empty table and a failed query alike. For a custom query it shows "Query returned no results or failed to execute." when the result is `None` or empty (`app.py:348-364`). The query layer does not. In `src/query_manager.py:83-96` and `src/__init__.py:48-52` only a `None` result from the database triggers the "returned no results" warning. A result whose table is empty is returned as is, with no message (`QueryManagement.EmptyFrameIsReturned`). The page itself is not part of this model.
- `get_table_info` shows no warning when the query gives `None` or an empty table (`src/database_connection.py:105-111`); it warns only on an exception. `tests/unit/test_database_connection.py:174-186` nevertheless expects exactly one warning for a `None` result. `DatabaseConnections.TableInfoOfNoResult` and `DatabaseConnection.GetTableInfo` state the code's behaviour.
- The manager's `execute_predefined_query` shows an error and then an info line listing the available keys for an unknown name (`src/query_manager.py:66-69`). The package-level function shows the error alone (`src/__init__.py:36-38`).
