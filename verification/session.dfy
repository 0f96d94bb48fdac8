/** The database session of one request (`get_db`): the handler works on its own
    copy, which is committed when it returns and thrown away when it raises. */
module DatabaseSession {
  import opened Schema

  class Session {
    var committed: Db
    var work: Db

    constructor ()
      ensures committed == work == EMPTY_DB
    {
      committed, work := EMPTY_DB, EMPTY_DB;
    }

    method Begin()
      modifies this
      ensures committed == old(committed) && work == committed
    {
      work := committed;
    }

    method Commit()
      modifies this
      ensures work == old(work) && committed == work
    {
      committed := work;
    }

    method Rollback()
      modifies this
      ensures committed == old(committed) && work == committed
    {
      work := committed;
    }

    /** The end of every request: what is committed is what `Settle` says. */
    method Close<T>(outcome: Outcome<T>)
      modifies this
      ensures committed == work == Settle(old(committed), Attempt(old(work), outcome))
    {
      if outcome.Ok? {
        Commit();
      } else {
        Rollback();
      }
    }
  }
}
