/** The package entry points: the lazily created process-wide query manager and the
    module-level query functions the dashboard calls. */
module Dashboard {
  import opened Wrappers
  import opened Status
  import opened DatabaseConnections
  import opened QueryManagement

  /** The package module's state: the global `_query_manager`, and the database a newly
      created manager connects to. */
  class Package {
    var queryManager: Option<QueryManager>
    const db: Backend

    /** Importing the package: no manager exists yet. */
    constructor (db: Backend)
      ensures this.db == db && queryManager == None
    {
      this.db := db;
      queryManager := None;
    }

    /** A manager, once created, is connected to the package's database and holds the
        constant registry. */
    ghost predicate Valid()
      reads this
    {
      queryManager.Some? ==> queryManager.value.db == db && queryManager.value.Valid()
    }

    /** `get_query_manager`: creates the manager on the first call only, and returns that
        same instance on every call. */
    method GetQueryManager() returns (qm: QueryManager)
      requires Valid()
      modifies this`queryManager
      ensures Valid()
      ensures old(queryManager).Some? ==> queryManager == old(queryManager) && qm == old(queryManager).value
      ensures old(queryManager).None? ==> fresh(qm) && queryManager == Some(qm)
      ensures qm.db == db && qm.Valid()
    {
      if queryManager.None? {
        var created := new QueryManager(db);
        queryManager := Some(created);
      }
      qm := queryManager.value;
    }

    /** The module-level `execute_predefined_query`: like the manager's method, but an
        unknown name gets the error alone, and the SQL goes to the database directly. */
    method ExecutePredefinedQuery(queryType: string) returns (r: Option<Frame>)
      requires Valid()
      modifies this`queryManager, db`received, db.ui
      ensures Valid() && queryManager.Some?
      ensures old(queryManager).Some? ==> queryManager == old(queryManager)
      ensures queryType !in Registry ==>
                r.None? && db.received == old(db.received) &&
                db.ui.messages == old(db.ui.messages) + [UnknownQueryError(queryType)]
      ensures queryType in Registry ==>
                var querySql := Registry[queryType].Sql();
                var s := Settle(db.answers(querySql), NoResultsWarning(queryType), FailurePrefix(queryType));
                db.received == old(db.received) + [querySql] &&
                r == s.0 && db.ui.messages == old(db.ui.messages) + s.1
    {
      var qm := GetQueryManager();
      if queryType !in qm.registry {
        db.ui.Emit(UnknownQueryError(queryType));
        return None;
      }
      var querySql := qm.render(qm.registry[queryType]);
      var result := qm.db.ExecuteQuery(querySql);
      r := qm.ReportAnswer(result, NoResultsWarning(queryType), FailurePrefix(queryType));
    }

    /** The module-level `execute_custom_query`: the manager's method, unchanged. */
    method ExecuteCustomQuery(query: string) returns (r: Option<Frame>)
      requires Valid()
      modifies this`queryManager, db`received, db.ui
      ensures Valid() && queryManager.Some?
      ensures old(queryManager).Some? ==> queryManager == old(queryManager)
      ensures db.received == old(db.received) + [query]
      ensures r == Settle(db.answers(query), CustomNoResults, CustomFailurePrefix).0
      ensures db.ui.messages == old(db.ui.messages) + Settle(db.answers(query), CustomNoResults, CustomFailurePrefix).1
    {
      var qm := GetQueryManager();
      r := qm.ExecuteCustomQuery(query);
    }

    /** `initialize_connection`: the manager's connection test, unchanged. */
    method InitializeConnection() returns (ok: bool)
      requires Valid()
      modifies this`queryManager, db`received, db.ui
      ensures Valid() && queryManager.Some?
      ensures old(queryManager).Some? ==> queryManager == old(queryManager)
      ensures db.received == old(db.received) + [TestQuery]
      ensures ok == ProbeResult(db.answers(TestQuery))
      ensures db.ui.messages == old(db.ui.messages) + ProbeMessages(db.answers(TestQuery))
    {
      var qm := GetQueryManager();
      ok := qm.TestConnection();
    }
  }
}
