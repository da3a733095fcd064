/**
  The two MongoDB collections the core uses, held in memory: `users` keyed
  by username and the append-only `apilogs`.
 */
module Store {
  import opened Models

  class Database {
    /** The users collection; a lookup `find_one({"username": u})` is `u in users`. */
    var users: map<string, UserRecord>
    /** The apilogs collection, in insertion order. */
    var apilogs: seq<LogEntry>

    /** Every user document is filed under its own username. */
    ghost predicate Valid()
      reads this
    {
      forall u | u in users :: users[u].username == u
    }

    constructor ()
      ensures Valid()
      ensures users == map[] && apilogs == []
    {
      users := map[];
      apilogs := [];
    }
  }
}
