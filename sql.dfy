/** database/sql/sql.go and database/sql/qurey.go: a MySQL handle made of
    one write connection, read replicas picked round-robin, and a master
    view sharing the write connection. Driver calls (`sql.Open`,
    `mysql.ParseDSN`, `Close`, `QueryContext`) are oracles passed in. */
module Sql {
  import opened Common

  /** `ErrNoMaster`. */
  const ErrNoMaster: Error := Error("sql: no master instance")

  /** A `*conn`: the driver handle `connect` returned and the address
      recorded with it. */
  datatype Conn = Conn(handle: int, addr: string)

  /** The parts of `*Config` that `Open` reads. */
  datatype Config = Config(dsn: string, readDSN: seq<string>)

  /** `parseDSN`, given what `mysql.ParseDSN` made of the DSN: its address,
      or "" when it could not be parsed. */
  function ParseDSN(parsed: Result<string>): (addr: string)
    ensures parsed.Ok? ==> addr == parsed.value
    ensures parsed.Err? ==> addr == ""
  {
    match parsed
    case Ok(a) => a
    case Err(_) => ""
  }

  /** The error of the last of the closes `0 .. n-1` that fails, if any. */
  function LastFailure(closeErr: nat -> Option<Error>, n: nat): Option<Error>
  {
    if n == 0 then None
    else if closeErr(n - 1).Some? then closeErr(n - 1)
    else LastFailure(closeErr, n - 1)
  }

  /** No error exactly when every close succeeds; otherwise the error of a
      failing close after which none fails. */
  lemma {:induction false} LastFailureMeaning(closeErr: nat -> Option<Error>, n: nat)
    ensures LastFailure(closeErr, n).None? <==> forall j :: 0 <= j < n ==> closeErr(j).None?
    ensures LastFailure(closeErr, n).Some? ==>
      exists k :: 0 <= k < n && closeErr(k) == LastFailure(closeErr, n) && (forall j :: k < j < n ==> closeErr(j).None?)
  {
    if n > 0 && closeErr(n - 1).None? {
      LastFailureMeaning(closeErr, n - 1);
    }
  }

  /** The replica `readIndex` picks when the counter stood at `idx`. */
  function Pick(idx: nat, n: nat): (i: nat)
    requires n > 0
    ensures i < n
  {
    (idx + 1) % n
  }

  /** A query argument: one value, or a whole slice passed as one value. */
  datatype Arg = Scalar(text: string) | Packed(values: seq<string>)

  /** One `QueryContext`/`QueryRowContext` call. */
  datatype QueryCall = QueryCall(conn: Conn, query: string, args: seq<Arg>)

  /** `args...`: each argument passed on its own. */
  function Spread(args: seq<string>): (a: seq<Arg>)
    ensures |a| == |args| && forall i :: 0 <= i < |args| ==> a[i] == Scalar(args[i])
  {
    seq(|args|, i requires 0 <= i < |args| => Scalar(args[i]))
  }

  /** What `Qurey` returns and which queries it issues, in order, for a
      handle whose counter stood at `idx`. */
  function QureyOutcome(write: Conn, read: seq<Conn>, idx: nat, query: string, args: seq<string>,
                        exec: QueryCall -> Result<int>): (r: (Result<int>, seq<QueryCall>))
    ensures 1 <= |r.1| <= 2 && r.0 == exec(r.1[|r.1| - 1])
    ensures read == [] ==> r.1 == [QueryCall(write, query, Spread(args))]
    ensures read != [] ==> r.1[0] == QueryCall(read[Pick(idx, |read|)], query, [Packed(args)])
    ensures read != [] && exec(r.1[0]).Err? ==> |r.1| == 1
    ensures read != [] && exec(r.1[0]).Ok? ==> |r.1| == 2 && r.1[1] == QueryCall(write, query, Spread(args))
  {
    var wc := QueryCall(write, query, Spread(args));
    if read == [] then (exec(wc), [wc])
    else
      var rc := QueryCall(read[Pick(idx, |read|)], query, [Packed(args)]);
      if exec(rc).Err? then (exec(rc), [rc]) else (exec(wc), [rc, wc])
  }

  /** `Qurey` as its name promises: one query, on the picked replica when
      there is one, with the arguments spread. */
  function QureyIntendedOutcome(write: Conn, read: seq<Conn>, idx: nat, query: string, args: seq<string>,
                                exec: QueryCall -> Result<int>): (r: (Result<int>, QueryCall))
    ensures r.0 == exec(r.1) && r.1.args == Spread(args) && r.1.query == query
    ensures read == [] ==> r.1.conn == write
    ensures read != [] ==> r.1.conn == read[Pick(idx, |read|)]
  {
    var conn := if read == [] then write else read[Pick(idx, |read|)];
    var call := QueryCall(conn, query, Spread(args));
    (exec(call), call)
  }

  /** The `QueryRowContext` call `QureyRow` makes. */
  function QureyRowCall(write: Conn, read: seq<Conn>, idx: nat, query: string, args: seq<string>): (c: QueryCall)
    ensures c.query == query && c.args == [Packed(args)]
    ensures read == [] ==> c.conn == write
    ensures read != [] ==> c.conn == read[Pick(idx, |read|)]
  {
    QueryCall(if read == [] then write else read[Pick(idx, |read|)], query, [Packed(args)])
  }

  /** `QureyRow` with the arguments spread. */
  function QureyRowIntendedCall(write: Conn, read: seq<Conn>, idx: nat, query: string, args: seq<string>): (c: QueryCall)
    ensures c.query == query && c.args == Spread(args)
    ensures c.conn == QureyRowCall(write, read, idx, query, args).conn
  {
    QueryCall(if read == [] then write else read[Pick(idx, |read|)], query, Spread(args))
  }

  /** A `*DB`. */
  class DB {
    var write: Conn
    var read: seq<Conn>
    var idx: nat
    var master: DB?

    constructor (w: Conn, rs: seq<Conn>, m: DB?)
      ensures write == w && read == rs && idx == 0 && master == m
    {
      write, read, idx, master := w, rs, 0, m;
    }

    /** `Open`: connects the write DSN, then each read DSN in order, and
        gives up with the first connect error; every connection records the
        write DSN's address. The master view shares the write connection.
        `dial(0)` is the connect of the write DSN, `dial(i + 1)` that of the
        `i`-th read DSN. */
    static method Open(c: Config, dial: nat -> Result<int>, dsnAddr: Result<string>)
      returns (db: DB?, err: Option<Error>)
      ensures db == null <==> FirstFailure(dial, |c.readDSN| + 1).Some?
      ensures db == null ==> err == Some(dial(FirstFailure(dial, |c.readDSN| + 1).value).error)
      ensures db != null ==> err.None? && fresh(db) && db.idx == 0
      ensures db != null ==> db.write == Conn(dial(0).value, ParseDSN(dsnAddr))
      ensures db != null ==> |db.read| == |c.readDSN|
      ensures db != null ==> forall i :: 0 <= i < |db.read| ==> db.read[i] == Conn(dial(i + 1).value, ParseDSN(dsnAddr))
      ensures db != null ==> db.master != null && fresh(db.master) && db.master.write == db.write
      ensures db != null ==> db.master != null && db.master.read == [] && db.master.master == null && db.master.idx == 0
    {
      if dial(0).Err? {
        return null, Some(dial(0).error);
      }
      var addr := ParseDSN(dsnAddr);
      var w := Conn(dial(0).value, addr);
      var rs: seq<Conn> := [];
      for i := 0 to |c.readDSN|
        invariant |rs| == i
        invariant FirstFailure(dial, i + 1).None?
        invariant forall j :: 0 <= j < i ==> rs[j] == Conn(dial(j + 1).value, addr)
      {
        if dial(i + 1).Err? {
          assert FirstFailure(dial, i + 2) == Some(i + 1);
          assert FirstFailure(dial, |c.readDSN| + 1) == Some(i + 1) by {
            FirstFailureStays(dial, i + 2, |c.readDSN| + 1);
          }
          return null, Some(dial(i + 1).error);
        }
        rs := rs + [Conn(dial(i + 1).value, addr)];
      }
      var m := new DB(w, [], null);
      db := new DB(w, rs, m);
      err := None;
    }

    /** `readIndex`: 0 with no replicas; otherwise the counter goes up by
        one and the result is its new value modulo the replica count. */
    method ReadIndex() returns (i: nat)
      modifies this`idx
      ensures read == [] ==> i == 0 && idx == old(idx)
      ensures read != [] ==> idx == old(idx) + 1 && i == idx % |read| && i == Pick(old(idx), |read|)
    {
      if |read| == 0 {
        return 0;
      }
      idx := idx + 1;
      i := idx % |read|;
    }

    /** `Close`: closes the write connection, then every replica in order,
        whatever fails, and returns the error of the last failing close. */
    method Close(closeErr: nat -> Option<Error>) returns (err: Option<Error>, closed: seq<Conn>)
      ensures closed == [write] + read
      ensures err == LastFailure(closeErr, |read| + 1)
    {
      closed := [write];
      err := None;
      if closeErr(0).Some? {
        err := closeErr(0);
      }
      for i := 0 to |read|
        invariant closed == [write] + read[..i]
        invariant err == LastFailure(closeErr, i + 1)
      {
        assert read[..i + 1] == read[..i] + [read[i]];
        closed := closed + [read[i]];
        assert LastFailure(closeErr, i + 2) ==
          if closeErr(i + 1).Some? then closeErr(i + 1) else LastFailure(closeErr, i + 1);
        if closeErr(i + 1).Some? {
          err := closeErr(i + 1);
        }
      }
    }

    /** `Master`: panics with `ErrNoMaster` exactly when there is no master. */
    method Master() returns (m: Outcome<DB>)
      ensures master == null <==> m.Panicked?
      ensures m.Panicked? ==> m.reason == ErrNoMaster.msg
      ensures m.Returned? ==> m.value == master
    {
      if master == null {
        return Panicked(ErrNoMaster.msg);
      }
      m := Returned(master);
    }

    /** `Qurey`: advances the counter; with a replica, queries it with the
        arguments packed into one, returning at once on error; then queries
        the write connection with the arguments spread and returns that. */
    method Qurey(query: string, args: seq<string>, exec: QueryCall -> Result<int>)
      returns (rows: Result<int>, issued: seq<QueryCall>)
      modifies this`idx
      ensures idx == if read == [] then old(idx) else old(idx) + 1
      ensures (rows, issued) == QureyOutcome(write, read, old(idx), query, args, exec)
    {
      var i := ReadIndex();
      var wc := QueryCall(write, query, Spread(args));
      if |read| > i {
        ModUnique(i, 0, i, |read|);
        var rc := QueryCall(read[i % |read|], query, [Packed(args)]);
        assert rc == QueryCall(read[Pick(old(idx), |read|)], query, [Packed(args)]);
        rows := exec(rc);
        if rows.Err? {
          return rows, [rc];
        }
        issued := [rc, wc];
      } else {
        assert read == [];
        issued := [wc];
      }
      rows := exec(wc);
    }

    /** `Qurey` corrected: one query, on the picked replica if any. */
    method QureyIntended(query: string, args: seq<string>, exec: QueryCall -> Result<int>)
      returns (rows: Result<int>, issued: QueryCall)
      modifies this`idx
      ensures idx == if read == [] then old(idx) else old(idx) + 1
      ensures (rows, issued) == QureyIntendedOutcome(write, read, old(idx), query, args, exec)
    {
      var i := ReadIndex();
      if |read| > i {
        issued := QueryCall(read[i], query, Spread(args));
      } else {
        issued := QueryCall(write, query, Spread(args));
      }
      rows := exec(issued);
    }

    /** `QureyRow`: advances the counter and queries the picked replica, or
        the write connection when there is none, with the arguments packed
        into one. */
    method QureyRow(query: string, args: seq<string>, execRow: QueryCall -> int)
      returns (row: int, issued: QueryCall)
      modifies this`idx
      ensures idx == if read == [] then old(idx) else old(idx) + 1
      ensures issued == QureyRowCall(write, read, old(idx), query, args) && row == execRow(issued)
    {
      var i := ReadIndex();
      if |read| > i {
        ModUnique(i, 0, i, |read|);
        issued := QueryCall(read[i % |read|], query, [Packed(args)]);
      } else {
        issued := QueryCall(write, query, [Packed(args)]);
      }
      row := execRow(issued);
    }

    /** `QureyRow` corrected: the arguments spread. */
    method QureyRowIntended(query: string, args: seq<string>, execRow: QueryCall -> int)
      returns (row: int, issued: QueryCall)
      modifies this`idx
      ensures idx == if read == [] then old(idx) else old(idx) + 1
      ensures issued == QureyRowIntendedCall(write, read, old(idx), query, args) && row == execRow(issued)
    {
      var i := ReadIndex();
      if |read| > i {
        issued := QueryCall(read[i], query, Spread(args));
      } else {
        issued := QueryCall(write, query, Spread(args));
      }
      row := execRow(issued);
    }
  }

  /** Round-robin: from any counter value, the next `n` picks reach every
      replica ... */
  lemma {:induction false} RoundRobinCovers(start: nat, n: nat, t: nat)
    requires n > 0 && t < n
    ensures var j := (t - start - 1) % n; 0 <= j < n && Pick(start + j, n) == t
  {
    var j := (t - start - 1) % n;
    var q := (t - start - 1) / n;
    assert t - start - 1 == q * n + j;
    ModUnique(start + j + 1, -q, t, n);
  }

  /** ... and no replica twice. */
  lemma {:induction false} RoundRobinDistinct(start: nat, n: nat, j1: nat, j2: nat)
    requires n > 0 && j2 < j1 < n
    ensures Pick(start + j1, n) != Pick(start + j2, n)
  {
    var b := start + j2 + 1;
    var q := b / n;
    var r := b % n;
    assert b == q * n + r;
    if r + (j1 - j2) < n {
      ModUnique(start + j1 + 1, q, r + (j1 - j2), n);
    } else {
      ModUnique(start + j1 + 1, q + 1, r + (j1 - j2) - n, n);
    }
  }

  /** `k` reads in a row on a fresh handle (counter 0) with `n` replicas:
      the counter ends at `k`, and the `j`-th read (counting from 1) picks
      replica `j mod n`, so the picks cycle 1, 2, ..., n - 1, 0, 1, ... */
  method ReadRounds(db: DB, k: nat) returns (picks: seq<nat>)
    requires db.idx == 0 && |db.read| > 0
    modifies db`idx
    ensures db.idx == k && |picks| == k
    ensures forall j :: 1 <= j <= k ==> picks[j - 1] == j % |db.read|
  {
    picks := [];
    for j := 0 to k
      invariant db.idx == j && |picks| == j
      invariant forall m :: 1 <= m <= j ==> picks[m - 1] == m % |db.read|
    {
      var i := db.ReadIndex();
      picks := picks + [i];
    }
  }

  /** A replica that answers is still followed by a query on the write
      connection, and the replica's rows are dropped: with one replica
      answering 7 and the write connection answering 9, `Qurey` runs both
      queries and returns 9 where the replica's 7 was meant. */
  lemma QureyDiscardsReplicaRows()
    ensures var w, r := Conn(0, "w"), Conn(1, "r");
      var exec := (c: QueryCall) => if c.conn == r then Ok(7) else Ok(9);
      && QureyOutcome(w, [r], 0, "q", [], exec) ==
           (Ok(9), [QueryCall(r, "q", [Packed([])]), QueryCall(w, "q", [])])
      && QureyIntendedOutcome(w, [r], 0, "q", [], exec).0 == Ok(7)
  {
  }

  /** The replica query of `Qurey` and both calls of `QureyRow` receive
      one argument, the whole slice, however many were given: two
      arguments arrive as one. */
  lemma ArgsArrivePacked(w: Conn, read: seq<Conn>, idx: nat, exec: QueryCall -> Result<int>)
    ensures |QureyRowCall(w, read, idx, "q", ["a", "b"]).args| == 1
    ensures |QureyRowIntendedCall(w, read, idx, "q", ["a", "b"]).args| == 2
    ensures read != [] ==> |QureyOutcome(w, read, idx, "q", ["a", "b"], exec).1[0].args| == 1
    ensures |QureyIntendedOutcome(w, read, idx, "q", ["a", "b"], exec).1.args| == 2
  {
  }
}
