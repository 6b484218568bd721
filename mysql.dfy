/** database/mysql/mysql.go: `NewMySQL` refuses a configuration without
    query, execute and transaction timeouts, then opens one write and any
    number of read connections. `sql.Open` is an oracle passed in. */
module MySql {
  import opened Common

  /** The text `NewMySQL` panics with when a timeout is missing. */
  const TimeoutPanic: string := "mysql must be set query/execute/transction timeout"

  /** `*Config` (durations in nanoseconds). */
  datatype Config = Config(
    addr: string, dsn: string, readDSN: seq<string>, active: int, idle: int,
    idleTimeout: int, queryTimeout: int, execTimeout: int, tranTimeout: int)

  /** A `*conn`, by the driver handle `connect` returned. */
  datatype Conn = Conn(handle: int)

  /** A `*DB`. */
  class DB {
    var write: Conn
    var read: seq<Conn>
    var idx: int
    var master: DB?

    constructor (w: Conn, rs: seq<Conn>, m: DB?)
      ensures write == w && read == rs && idx == 0 && master == m
    {
      write, read, idx, master := w, rs, 0, m;
    }
  }

  /** `Open`: connects the write DSN (`dial(0)`), then each read DSN in
      order (`dial(i + 1)`), and gives up with the first connect error; the
      master view shares the write connection and has no replicas. */
  method Open(c: Config, dial: nat -> Result<int>) returns (db: DB?, err: Option<Error>)
    ensures db == null <==> FirstFailure(dial, |c.readDSN| + 1).Some?
    ensures db == null ==> err == Some(dial(FirstFailure(dial, |c.readDSN| + 1).value).error)
    ensures db != null ==> err.None? && fresh(db) && db.idx == 0 && db.write == Conn(dial(0).value)
    ensures db != null ==> |db.read| == |c.readDSN|
    ensures db != null ==> forall i :: 0 <= i < |db.read| ==> db.read[i] == Conn(dial(i + 1).value)
    ensures db != null ==> db.master != null && fresh(db.master) && db.master.write == db.write
    ensures db != null ==> db.master != null && db.master.read == [] && db.master.master == null
  {
    if dial(0).Err? {
      return null, Some(dial(0).error);
    }
    var w := Conn(dial(0).value);
    var rs: seq<Conn> := [];
    for i := 0 to |c.readDSN|
      invariant |rs| == i
      invariant FirstFailure(dial, i + 1).None?
      invariant forall j :: 0 <= j < i ==> rs[j] == Conn(dial(j + 1).value)
    {
      if dial(i + 1).Err? {
        assert FirstFailure(dial, i + 2) == Some(i + 1);
        FirstFailureStays(dial, i + 2, |c.readDSN| + 1);
        return null, Some(dial(i + 1).error);
      }
      rs := rs + [Conn(dial(i + 1).value)];
    }
    var m := new DB(w, [], null);
    db := new DB(w, rs, m);
    err := None;
  }

  /** The timeout guard of `NewMySQL`. */
  predicate TimeoutsSet(c: Config)
  {
    c.queryTimeout != 0 && c.execTimeout != 0 && c.tranTimeout != 0
  }

  /** `NewMySQL`: panics when any of the three timeouts is zero, before
      connecting anything; panics with `Open`'s error when a connect fails;
      otherwise returns the opened handle. */
  method NewMySQL(c: Config, dial: nat -> Result<int>) returns (r: Outcome<DB>)
    ensures !TimeoutsSet(c) ==> r == Panicked(TimeoutPanic)
    ensures TimeoutsSet(c) && FirstFailure(dial, |c.readDSN| + 1).Some? ==>
      r == Panicked(dial(FirstFailure(dial, |c.readDSN| + 1).value).error.msg)
    ensures TimeoutsSet(c) && FirstFailure(dial, |c.readDSN| + 1).None? ==>
      r.Returned? && fresh(r.value) && r.value.idx == 0 && r.value.write == Conn(dial(0).value) && |r.value.read| == |c.readDSN|
    ensures TimeoutsSet(c) && FirstFailure(dial, |c.readDSN| + 1).None? ==>
      r.Returned? && forall i :: 0 <= i < |r.value.read| ==> r.value.read[i] == Conn(dial(i + 1).value)
    ensures TimeoutsSet(c) && FirstFailure(dial, |c.readDSN| + 1).None? ==>
      r.Returned? && r.value.master != null && r.value.master.write == r.value.write && r.value.master.read == []
  {
    if c.queryTimeout == 0 || c.execTimeout == 0 || c.tranTimeout == 0 {
      return Panicked(TimeoutPanic);
    }
    var db, err := Open(c, dial);
    if err.Some? {
      return Panicked(err.value.msg);
    }
    r := Returned(db);
  }
}
