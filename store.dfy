/** The database session both engines hold: adding a row, committing a change to a
    loaded row, and appending an audit entry. */
module Store {
  import opened Records

  class Database {
    var results: map<int, ControlResult>
    var nextId: int
    var audit: seq<AuditLog>
    var accounts: map<int, CloudAccount>

    function State(): DbState
      reads this
    {
      DbState(results, nextId, audit, accounts)
    }

    predicate Valid()
      reads this
    {
      Records.Valid(State())
    }

    /** An empty store holding the given accounts. */
    constructor (initialAccounts: map<int, CloudAccount>)
      ensures State() == DbState(map[], 1, [], initialAccounts)
      ensures Valid()
    {
      results := map[];
      nextId := 1;
      audit := [];
      accounts := initialAccounts;
    }

    /** `db.add(result)` and commit: the row gets the next id. */
    method Insert(row: ControlResult) returns (id: int)
      requires Valid()
      modifies this
      ensures id == old(nextId) && id !in old(results)
      ensures State() == old(State()).(results := old(results)[id := row], nextId := old(nextId) + 1)
      ensures Valid()
    {
      id := nextId;
      results := results[id := row];
      nextId := nextId + 1;
    }

    /** `db.add(log)` and commit. */
    method Append(log: AuditLog)
      modifies this
      ensures State() == old(State()).(audit := old(audit) + [log])
      ensures old(Valid()) ==> Valid()
    {
      audit := audit + [log];
    }

    /** Commit a change to a loaded result row. */
    method Update(id: int, row: ControlResult)
      requires id in results
      modifies this
      ensures State() == old(State()).(results := old(results)[id := row])
      ensures old(Valid()) ==> Valid()
    {
      results := results[id := row];
    }

    /** Commit a change to a loaded account row. */
    method SetAccount(id: int, account: CloudAccount)
      requires id in accounts
      modifies this
      ensures State() == old(State()).(accounts := old(accounts)[id := account])
      ensures old(Valid()) ==> Valid()
    {
      accounts := accounts[id := account];
    }
  }
}
