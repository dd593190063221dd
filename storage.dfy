/** The message log the connections share, and the player store that stands
    in for the `storage` module. A timestamp (`time::Timespec`) is an `int`. */
module TransactionStorage {
  import LG = Logon
  import CH = Character

  /** One row of the messages table. */
  datatype Transaction = Transaction(id: int, message: string, timeCreated: int)

  /** `Transaction::new`: a row not yet stored, with id 0. */
  function NewTransaction(msg: string, createdTime: int): (t: Transaction)
    ensures t.id == 0 && t.message == msg && t.timeCreated == createdTime
  {
    Transaction(0, msg, createdTime)
  }

  /** The rows `WHERE time_created > since`, in table order. */
  function After(records: seq<Transaction>, since: int): (rows: seq<Transaction>)
    ensures |rows| <= |records|
    ensures forall r :: r in rows <==> r in records && r.timeCreated > since
    decreases |records|
  {
    if records == [] then []
    else
      var rest := After(records[1..], since);
      assert forall r :: r in records <==> r == records[0] || r in records[1..];
      if records[0].timeCreated > since then [records[0]] + rest else rest
  }

  /** A later watermark selects no more rows than an earlier one. */
  lemma {:induction false} AfterShrinks(records: seq<Transaction>, early: int, late: int)
    requires early <= late
    ensures multiset(After(records, late)) <= multiset(After(records, early))
    decreases |records|
  {
    if records != [] {
      AfterShrinks(records[1..], early, late);
    }
  }

  /** With strictly increasing timestamps (the order rows are inserted in),
      the rows after the k-th row's time are exactly the rows behind it. */
  lemma {:induction false} AfterSorted(records: seq<Transaction>, k: nat)
    requires k < |records|
    requires forall i, j :: 0 <= i < j < |records| ==> records[i].timeCreated < records[j].timeCreated
    ensures After(records, records[k].timeCreated) == records[k + 1..]
    decreases |records|
  {
    if k > 0 {
      AfterSorted(records[1..], k - 1);
      assert records[1..][k - 1] == records[k];
      assert records[1..][k - 1 + 1..] == records[k + 1..];
    } else {
      AllAfter(records[1..], records[0].timeCreated);
    }
  }

  lemma {:induction false} AllAfter(records: seq<Transaction>, since: int)
    requires forall i :: 0 <= i < |records| ==> records[i].timeCreated > since
    ensures After(records, since) == records
    decreases |records|
  {
    if records != [] {
      AllAfter(records[1..], since);
      assert [records[0]] + records[1..] == records;
    }
  }

  /** The messages table. */
  class MessageLog {
    var records: seq<Transaction>

    /** `createDB` on a new database: an empty table. */
    constructor ()
      ensures records == []
    {
      records := [];
    }

    /** `insertRecord`: appends the row; the table's autoincrement key
        gives it the next id. */
    method InsertRecord(record: Transaction)
      modifies this
      ensures records == old(records) + [Transaction(|old(records)| + 1, record.message, record.timeCreated)]
    {
      records := records + [Transaction(|records| + 1, record.message, record.timeCreated)];
    }

    /** `getRecord`: the rows newer than `updatedTime`. The query has no
        ORDER BY, so only the collection of rows is promised, not its order. */
    method GetRecord(updatedTime: int) returns (rows: seq<Transaction>)
      ensures multiset(rows) == multiset(After(records, updatedTime))
    {
      rows := [];
      var i := |records|;
      while i > 0
        invariant 0 <= i <= |records|
        invariant rows == After(records[i..], updatedTime)
        decreases i
      {
        i := i - 1;
        assert records[i..][1..] == records[i + 1..];
        if records[i].timeCreated > updatedTime {
          rows := [records[i]] + rows;
        }
      }
      assert records[0..] == records;
    }
  }

  /** What `user_exists`, `save_player` and `save_character` see: the known
      user names and the rows saved so far. */
  class PlayerStore {
    var users: set<string>
    var players: seq<LG.PlayerRecord>
    var characters: seq<CH.Character>

    constructor ()
      ensures users == {} && players == [] && characters == []
    {
      users := {};
      players := [];
      characters := [];
    }

    /** `save_player`: the row is appended and its name becomes known. */
    method SavePlayer(p: LG.PlayerRecord)
      modifies this
      ensures players == old(players) + [p] && users == old(users) + {p.username}
      ensures characters == old(characters)
    {
      players := players + [p];
      users := users + {p.username};
    }

    /** `save_character`: the row is appended. */
    method SaveCharacter(c: CH.Character)
      modifies this
      ensures characters == old(characters) + [c]
      ensures users == old(users) && players == old(players)
    {
      characters := characters + [c];
    }
  }
}
