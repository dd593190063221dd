/** The listening server: the slab of accepted connections keyed by token,
    and the mio event handlers `ready` and `timeout`. The event loop and
    the sockets are outside the model; what they answer during one event
    is passed in as an `Io` value. */
module Server {
  import opened Text
  import CN = Connection
  import CH = Character
  import LG = Logon
  import TS = TransactionStorage

  /** The listener's token; kqueue's default Token(0) is never used. */
  const ServerToken: nat := 1
  /** `Slab::new_starting_at(Token(2), 128)`: tokens 2 .. 129. */
  const FirstToken: nat := 2
  const Capacity: nat := 128

  predicate InSlab(t: nat) { FirstToken <= t < FirstToken + Capacity }

  /** The readiness mio reports for one token. */
  datatype Events = Events(error: bool, hup: bool, writable: bool, readable: bool)

  /** What `Connection::readable` returned: the bytes read, and whether the
      returned buffer's `remaining()` equals its `capacity()`. */
  datatype ReadOutcome = ReadData(data: string, atCapacity: bool) | ReadFailed

  /** What the listener's `accept` returned. */
  datatype AcceptOutcome = Accepted | NothingPending | AcceptFailed

  /** The outside world's answers during one `ready` call. */
  datatype Io = Io(
    write: CN.WriteOutcome,      // the socket write in a writable event
    writeRereg: bool,            // the connection's reregistration after it
    read: ReadOutcome,           // the connection's read in a readable event
    loopRereg: bool,             // the reregistration inside `Server::readable`
    readRereg: bool,             // the reregistration in `ready` after it
    accept: AcceptOutcome,       // the listener's accept
    connRegister: bool,          // the registration of an accepted connection
    listenerRereg: bool,         // the listener's reregistration
    clock: CN.Clock,
    game: (string, CH.CharCreator) -> string)

  // ---------------------------------------------------------------------
  // Free slots

  function Range(lo: nat, hi: nat): (s: set<nat>)
    ensures forall t :: t in s <==> lo <= t < hi
    decreases hi - lo
  {
    if lo >= hi then {} else {lo} + Range(lo + 1, hi)
  }

  lemma {:induction false} RangeSize(lo: nat, hi: nat)
    requires lo <= hi
    ensures |Range(lo, hi)| == hi - lo
    decreases hi - lo
  {
    if lo < hi {
      RangeSize(lo + 1, hi);
      assert lo !in Range(lo + 1, hi);
    }
  }

  lemma {:induction false} SubsetSize(a: set<nat>, b: set<nat>)
    requires a <= b
    ensures |a| <= |b|
    decreases |b|
  {
    if b != {} {
      var x :| x in b;
      SubsetSize(a - {x}, b - {x});
    }
  }

  /** A table with fewer than `Capacity` entries has a vacant slot. */
  lemma FreeSlotExists(keys: set<nat>)
    requires forall t :: t in keys ==> InSlab(t)
    requires |keys| < Capacity
    ensures exists t :: InSlab(t) && t !in keys
  {
    if forall t :: InSlab(t) ==> t in keys {
      RangeSize(FirstToken, FirstToken + Capacity);
      SubsetSize(Range(FirstToken, FirstToken + Capacity), keys);
      assert false;
    }
  }

  /** Whether the writable arm of `ready` ends by resetting the token: the
      write failed or the reregistration after it did. */
  predicate WriteResets(v: CN.ConnView, events: Events, io: Io) {
    events.writable && (!CN.Flushed(v, io.write).ok || !io.writeRereg)
  }

  /** The panics `ready` has by design: the assertion against Token(0),
      the assertion against a writable event for the listener, and an
      event for a token with no connection (indexing a vacant slot).
      `conn` is the state of the token's connection, if it has one. */
  predicate StrayEvent(conn: Option<CN.ConnView>, t: nat, events: Events) {
    || t == 0
    || (&& !events.error && !events.hup
        && (|| (events.writable && t == ServerToken)
            || ((events.writable || events.readable) && t != ServerToken && conn.None?)))
  }

  /** When `ready` as written panics: besides the stray events, a readable
      event after the writable arm reset the token, and a readable event
      whose reregistration inside `Server::readable` failed, after which
      `ready` looks the removed token up again. */
  predicate ReadyPanics(conn: Option<CN.ConnView>, t: nat, events: Events, io: Io) {
    || StrayEvent(conn, t, events)
    || (&& t != 0 && !events.error && !events.hup && t != ServerToken && conn.Some? && events.readable
        && (|| WriteResets(conn.value, events, io)
            || (io.read.ReadData? && !io.read.atCapacity && !io.loopRereg)))
  }

  /** A connection whose write fails in an event that is also readable
      brings the server down, although nothing about the event is stray. */
  lemma WriteFailureThenReadPanics(v: CN.ConnView, t: nat, events: Events, io: Io)
    requires InSlab(t) && !events.error && !events.hup && events.writable && events.readable
    requires !CN.Flushed(v, io.write).ok || !io.writeRereg
    ensures ReadyPanics(Some(v), t, events, io) && !StrayEvent(Some(v), t, events)
  {
  }

  /** A connection whose reregistration fails after it handled a line
      brings the server down, although nothing about the event is stray. */
  lemma LoopReregFailurePanics(v: CN.ConnView, t: nat, events: Events, io: Io)
    requires InSlab(t) && !events.error && !events.hup && events.readable
    requires !WriteResets(v, events, io)
    requires io.read.ReadData? && !io.read.atCapacity && !io.loopRereg
    ensures ReadyPanics(Some(v), t, events, io) && !StrayEvent(Some(v), t, events)
  {
  }

  /** Whether a readable event hands a line to the connection: its write
      (if any) did not reset it, and the read returned a buffer that is
      not full to capacity. */
  predicate LineHandled(v: CN.ConnView, events: Events, io: Io) {
    events.readable && !WriteResets(v, events, io) && io.read.ReadData? && !io.read.atCapacity
  }

  /** The connection's state after the writable arm, before any read. */
  function PreRead(v: CN.ConnView, events: Events, io: Io): CN.ConnView {
    if events.writable then CN.Flushed(v, io.write).view else v
  }

  /** Whether the event's own connection is still in the table after an
      event that is neither an error nor a hang-up: its write did not
      reset it, and a readable event read successfully and
      reregistered both inside `Server::readable` (when a line was
      handled) and in `ready`. */
  predicate Survives(v: CN.ConnView, events: Events, io: Io) {
    && !WriteResets(v, events, io)
    && (events.readable ==> io.read.ReadData? && io.readRereg && (io.read.atCapacity || io.loopRereg))
  }

  /** What one heartbeat does to a connection: the state it moves to, and
      in play the rows it fetched are the rows newer than its last update. */
  predicate Beat(v: CN.ConnView, w: CN.ConnView, rows: seq<TS.Transaction>, records: seq<TS.Transaction>,
                 c: CN.Clock, outcome: CN.WriteOutcome)
  {
    && w == CN.Heartbeaten(v, rows, c, outcome)
    && (v.state == CN.Play ==> multiset(rows) == multiset(TS.After(records, v.lastUpdate)))
  }

  /** The store and log after an input with effect `e`. */
  function Applied(e: CN.InputEffect, users: set<string>, players: seq<LG.PlayerRecord>,
                   characters: seq<CH.Character>, records: seq<TS.Transaction>)
    : (set<string>, seq<LG.PlayerRecord>, seq<CH.Character>, seq<TS.Transaction>)
  {
    (users + (if e.players == [] then {} else {e.players[0].username}),
     players + e.players,
     characters + e.characters,
     records + (if e.logged == [] then []
                else [TS.Transaction(|records| + 1, e.logged[0].message, e.logged[0].timeCreated)]))
  }

  class Server {
    const token: nat
    var conns: map<nat, CN.Connection>
    var shutdown: bool
    var timerArmed: bool
    const db: TS.MessageLog
    const store: TS.PlayerStore

    ghost function Conns(): set<CN.Connection>
      reads this
    {
      set t | t in conns :: conns[t]
    }

    /** The connections' states, by token. */
    ghost function Views(): map<nat, CN.ConnView>
      reads this, Conns()
    {
      map t | t in conns :: conns[t].View()
    }

    /** Tokens lie in the slab's range and each connection knows its own
        token, so no connection sits under two tokens. */
    ghost predicate Valid()
      reads this
    {
      && token == ServerToken
      && forall t :: t in conns ==> InSlab(t) && conns[t].token == t
    }

    /** The player store and the message log are as they were. */
    twostate predicate StoreKept()
      reads this, store, db
    {
      && store.users == old(store.users) && store.players == old(store.players)
      && store.characters == old(store.characters) && db.records == old(db.records)
    }

    /** A connection in state `v` handled `line`: `conn` is in the state
        `handle_input` leaves it in, and the store and the log hold what
        it added to `users`, `players`, `characters` and `records`. */
    ghost predicate LineApplied(conn: CN.Connection, v: CN.ConnView, line: string, c: CN.Clock,
                                game: (string, CH.CharCreator) -> string, users: set<string>,
                                players: seq<LG.PlayerRecord>, characters: seq<CH.Character>,
                                records: seq<TS.Transaction>)
      reads conn, store, db
    {
      var e := CN.InputHandled(v, line, c, users, game);
      && conn.View() == e.view
      && (store.users, store.players, store.characters, db.records) == Applied(e, users, players, characters, records)
    }

    /** `Server::new`. */
    constructor (db: TS.MessageLog, store: TS.PlayerStore)
      ensures Valid() && token == ServerToken && conns == map[]
      ensures !shutdown && !timerArmed && this.db == db && this.store == store
    {
      token := ServerToken;
      conns := map[];
      shutdown := false;
      timerArmed := false;
      this.db := db;
      this.store := store;
    }

    /** `Server::register`: the heartbeat timer is armed, then the listener
        is registered for readability; the registration's outcome is
        returned. */
    method Register(registered: bool) returns (ok: bool)
      requires Valid()
      modifies this
      ensures Valid() && ok == registered && timerArmed
      ensures conns == old(conns) && shutdown == old(shutdown)
    {
      timerArmed := true;
      ok := registered;
    }

    /** `find_connection_by_token`: indexing the slab; a vacant slot panics,
        so callers must hold the token in the table. */
    method FindConnectionByToken(t: nat) returns (c: CN.Connection)
      requires t in conns
      ensures c == conns[t]
    {
      c := conns[t];
    }

    /** `reset_connection`: the listener's token shuts the server down, any
        other token leaves the table. */
    method ResetConnection(t: nat)
      requires Valid()
      modifies this
      ensures Valid()
      ensures t == token ==> shutdown && conns == old(conns)
      ensures t != token ==> conns == old(conns) - {t} && shutdown == old(shutdown)
      ensures timerArmed == old(timerArmed)
    {
      if t == token {
        shutdown := true;
      } else {
        conns := conns - {t};
      }
    }

    /** A new entry under a vacant token. */
    method Insert(t: nat, conn: CN.Connection)
      requires Valid() && InSlab(t) && t !in conns
      requires conn.token == t
      modifies this
      ensures Valid() && conns == old(conns)[t := conn]
      ensures shutdown == old(shutdown) && timerArmed == old(timerArmed)
    {
      conns := conns[t := conn];
    }

    /** `Server::reregister`: a failure resets the listener's token. */
    method ReregisterListener(ok: bool)
      requires Valid()
      modifies this
      ensures Valid() && conns == old(conns) && timerArmed == old(timerArmed)
      ensures shutdown == (old(shutdown) || !ok)
    {
      if !ok {
        ResetConnection(token);
      }
    }

    /** `accept`: a new connection goes under a vacant token when the slab
        has room and stays only if registering it succeeds; the listener is
        reregistered on every path. Which vacant token the slab picks is
        not modelled. */
    method Accept(io: Io) returns (inserted: Option<nat>)
      requires Valid()
      modifies this
      ensures Valid() && timerArmed == old(timerArmed)
      ensures inserted.Some? <==> io.accept == Accepted && |old(conns)| < Capacity && io.connRegister
      ensures inserted.None? ==> conns == old(conns)
      ensures inserted.Some? ==>
        var t := inserted.value;
        && InSlab(t) && t !in old(conns) && t in conns
        && conns == old(conns)[t := conns[t]]
        && fresh(conns[t])
        && conns[t].View() == CN.Registered(CN.InitialView(io.clock.now))
      ensures shutdown == (old(shutdown) || !io.listenerRereg)
    {
      inserted := None;
      if io.accept == Accepted && |conns| < Capacity {
        FreeSlotExists(conns.Keys);
        var t :| InSlab(t) && t !in conns;
        var conn := new CN.Connection(t, io.clock.now);
        // The slab holds the entry while it is registered and drops it
        // again on failure; only a registered connection remains.
        var registered := conn.Register(io.connRegister);
        if registered {
          Insert(t, conn);
          // `welcome` then writes the greeting straight to the socket.
          inserted := Some(t);
        }
      }
      ReregisterListener(io.listenerRereg);
    }

    /** `Server::readable` for a token in the table: a failed read is
        returned; a buffer at capacity is skipped; otherwise exactly the
        matching connection handles the input, and is reset after the loop
        when reregistering it fails. */
    method Readable(t: nat, read: ReadOutcome, loopRereg: bool, c: CN.Clock,
                    game: (string, CH.CharCreator) -> string) returns (ok: bool)
      requires Valid() && t in conns && t != token
      modifies this, conns[t], store, db
      ensures Valid() && shutdown == old(shutdown) && timerArmed == old(timerArmed)
      ensures ok <==> read.ReadData?
      ensures !(read.ReadData? && !read.atCapacity) ==>
        && conns == old(conns)
        && conns[t].View() == old(conns[t].View())
        && store.users == old(store.users) && store.players == old(store.players)
        && store.characters == old(store.characters) && db.records == old(db.records)
      ensures read.ReadData? && !read.atCapacity ==>
        && conns == (if loopRereg then old(conns) else old(conns) - {t})
        && LineApplied(old(conns[t]), old(conns[t].View()), read.data, c, game,
                       old(store.users), old(store.players), old(store.characters), old(db.records))
    {
      if read.ReadFailed? {
        return false;
      }
      ok := true;
      if read.atCapacity {
        return;
      }
      ghost var e := CN.InputHandled(conns[t].View(), read.data, c, store.users, game);
      var bad := Dispatch(t, read.data, loopRereg, c, game, e);
      ResetAll(bad);
    }

    /** The loop of `Server::readable`: only the connection whose token
        matches handles the input, and its token is collected for a reset
        when reregistering it fails. */
    method Dispatch(t: nat, message: string, loopRereg: bool, c: CN.Clock,
                    game: (string, CH.CharCreator) -> string, ghost e: CN.InputEffect) returns (bad: seq<nat>)
      requires Valid() && t in conns
      requires e == CN.InputHandled(conns[t].View(), message, c, store.users, game)
      modifies conns[t], store, db
      ensures bad == if loopRereg then [] else [t]
      ensures conns[t].View() == e.view
      ensures (store.users, store.players, store.characters, db.records)
           == Applied(e, old(store.users), old(store.players), old(store.characters), old(db.records))
    {
      ghost var before := conns[t].View();
      ghost var users, players, characters, records := store.users, store.players, store.characters, db.records;
      bad := [];
      var pending := conns.Keys;
      while pending != {}
        invariant pending <= conns.Keys
        invariant t in pending ==>
          && conns[t].View() == before && bad == []
          && store.users == users && store.players == players
          && store.characters == characters && db.records == records
        invariant t !in pending ==>
          && bad == (if loopRereg then [] else [t]) && conns[t].View() == e.view
          && (store.users, store.players, store.characters, db.records) == Applied(e, users, players, characters, records)
        decreases pending
      {
        var k :| k in pending;
        var conn := conns[k];
        if conn.token == t {
          var handled := HandleAt(k, message, c, game, e);
          if !(handled && loopRereg) {
            bad := bad + [conn.token];
          }
        }
        pending := pending - {k};
      }
    }

    /** The matching connection's `handle_input`, whose effect is `e`. */
    method HandleAt(k: nat, message: string, c: CN.Clock, game: (string, CH.CharCreator) -> string,
                    ghost e: CN.InputEffect) returns (ok: bool)
      requires k in conns && e == CN.InputHandled(conns[k].View(), message, c, store.users, game)
      modifies conns[k], store, db
      ensures ok && conns[k].View() == e.view
      ensures (store.users, store.players, store.characters, db.records)
           == Applied(e, old(store.users), old(store.players), old(store.characters), old(db.records))
    {
      ok := conns[k].HandleInput(message, c, game, store, db);
    }

    /** The resets after the loop of `Server::readable`. */
    method ResetAll(bad: seq<nat>)
      requires Valid() && token !in bad
      modifies this
      ensures Valid() && conns == old(conns) - set u | u in bad
      ensures shutdown == old(shutdown) && timerArmed == old(timerArmed)
    {
      var i := 0;
      while i < |bad|
        invariant 0 <= i <= |bad| && Valid()
        invariant conns == old(conns) - set u | u in bad[..i]
        invariant shutdown == old(shutdown) && timerArmed == old(timerArmed)
      {
        ResetConnection(bad[i]);
        assert bad[..i + 1] == bad[..i] + [bad[i]];
        i := i + 1;
      }
      assert bad[..i] == bad;
    }

    /** The loop of `timeout`: one heartbeat per connection, in no
        particular order. */
    method HeartbeatEach(writes: nat -> CN.WriteOutcome, c: CN.Clock)
      returns (fetched: map<nat, seq<TS.Transaction>>)
      requires Valid()
      modifies Conns()
      ensures fetched.Keys == conns.Keys
      ensures forall u :: u in conns ==>
        Beat(old(conns[u].View()), conns[u].View(), fetched[u], db.records, c, writes(u))
    {
      fetched := map[];
      var pending := conns.Keys;
      while pending != {}
        invariant pending <= conns.Keys && fetched.Keys == conns.Keys - pending
        invariant forall u :: u in conns ==>
          if u in pending then conns[u].View() == old(conns[u].View())
          else Beat(old(conns[u].View()), conns[u].View(), fetched[u], db.records, c, writes(u))
        decreases pending
      {
        var k :| k in pending;
        var rows := BeatAt(k, writes(k), c);
        fetched := fetched[k := rows];
        pending := pending - {k};
      }
    }

    /** The state of token t's connection, if it has one. */
    ghost function ViewOf(t: nat): Option<CN.ConnView>
      reads this, Conns()
    {
      if t in conns then Some(conns[t].View()) else None
    }

    /** The writable arm of `ready` for a connection: write, reregister,
        and reset the token when either fails. */
    method WriteEvent(t: nat, io: Io)
      requires Valid() && t in conns && t != token
      modifies this, conns[t]
      ensures Valid() && shutdown == old(shutdown) && timerArmed == old(timerArmed)
      ensures old(conns[t]).View() == CN.Flushed(old(conns[t].View()), io.write).view
      ensures conns == if !CN.Flushed(old(conns[t].View()), io.write).ok || !io.writeRereg
                       then old(conns) - {t} else old(conns)
    {
      var conn := FindConnectionByToken(t);
      var ok := conn.Writable(io.write);
      if ok {
        ok := io.writeRereg;
      }
      if !ok {
        ResetConnection(t);
      }
    }

    /** The readable arm of `ready` as written, for a token other than
        the listener's: `Server::readable`, then the token's connection
        is looked up again to reregister it; a failure resets the token. */
    method ReadEvent(t: nat, io: Io) returns (panicked: bool)
      requires Valid() && t != token
      modifies this, store, db, if t in conns then {conns[t]} else {}
      ensures Valid() && shutdown == old(shutdown) && timerArmed == old(timerArmed)
      ensures panicked <==> t !in old(conns) || (io.read.ReadData? && !io.read.atCapacity && !io.loopRereg)
      ensures conns == if !panicked && io.read.ReadData? && io.readRereg then old(conns) else old(conns) - {t}
      ensures t !in old(conns) ==> StoreKept()
      ensures t in old(conns) && !(io.read.ReadData? && !io.read.atCapacity) ==>
        old(conns[t]).View() == old(conns[t].View()) && StoreKept()
      ensures t in old(conns) && io.read.ReadData? && !io.read.atCapacity ==>
        LineApplied(old(conns[t]), old(conns[t].View()), io.read.data, io.clock, io.game,
                    old(store.users), old(store.players), old(store.characters), old(db.records))
    {
      if t !in conns {
        return true;
      }
      var ok := Readable(t, io.read, io.loopRereg, io.clock, io.game);
      if ok {
        if t !in conns {
          return true;
        }
        ok := io.readRereg;
      }
      if !ok {
        ResetConnection(t);
      }
      return false;
    }

    /** The readable arm without the second lookup of a token that
        `Server::readable` has already reset. */
    method ReadEventIsolated(t: nat, io: Io) returns (panicked: bool)
      requires Valid() && t != token
      modifies this, store, db, if t in conns then {conns[t]} else {}
      ensures Valid() && shutdown == old(shutdown) && timerArmed == old(timerArmed)
      ensures panicked <==> t !in old(conns)
      ensures conns == if !panicked && io.read.ReadData? && io.readRereg
                          && !(!io.read.atCapacity && !io.loopRereg)
                       then old(conns) else old(conns) - {t}
      ensures t !in old(conns) ==> StoreKept()
      ensures t in old(conns) && !(io.read.ReadData? && !io.read.atCapacity) ==>
        old(conns[t]).View() == old(conns[t].View()) && StoreKept()
      ensures t in old(conns) && io.read.ReadData? && !io.read.atCapacity ==>
        LineApplied(old(conns[t]), old(conns[t].View()), io.read.data, io.clock, io.game,
                    old(store.users), old(store.players), old(store.characters), old(db.records))
    {
      if t !in conns {
        return true;
      }
      var ok := Readable(t, io.read, io.loopRereg, io.clock, io.game);
      if ok {
        if t !in conns {
          return false;
        }
        ok := io.readRereg;
      }
      if !ok {
        ResetConnection(t);
      }
      return false;
    }

    /** `ready` for the listener's token, past the error and hang-up
        checks: a writable event fails the assertion, a readable one
        accepts. */
    method ListenerEvent(events: Events, io: Io) returns (panicked: bool, ghost accepted: Option<nat>)
      requires Valid() && !events.error && !events.hup
      modifies this
      ensures Valid() && timerArmed == old(timerArmed)
      ensures panicked <==> events.writable
      ensures panicked || !events.readable ==>
        conns == old(conns) && shutdown == old(shutdown) && accepted.None?
      ensures !panicked && events.readable ==>
        && shutdown == (old(shutdown) || !io.listenerRereg)
        && (accepted.Some? <==> io.accept == Accepted && |old(conns)| < Capacity && io.connRegister)
        && (accepted.None? ==> conns == old(conns))
        && (accepted.Some? ==>
              var n := accepted.value;
              && InSlab(n) && n !in old(conns) && n in conns
              && conns == old(conns)[n := conns[n]]
              && fresh(conns[n])
              && conns[n].View() == CN.Registered(CN.InitialView(io.clock.now)))
    {
      accepted := None;
      if events.writable {
        return true, None;
      }
      panicked := false;
      if events.readable {
        accepted := Accept(io);
      }
    }

    /** `ready` as written for a connection's token, past the error and
        hang-up checks: the writable arm, then the readable arm. */
    method ConnectionEvent(t: nat, events: Events, io: Io) returns (panicked: bool)
      requires Valid() && t != token && t != 0 && !events.error && !events.hup
      modifies this, store, db, if t in conns then {conns[t]} else {}
      ensures Valid() && shutdown == old(shutdown) && timerArmed == old(timerArmed)
      ensures panicked <==> ReadyPanics(old(ViewOf(t)), t, events, io)
      ensures t !in old(conns) ==> conns == old(conns) && StoreKept()
      ensures t in old(conns) ==>
        conns == if Survives(old(conns[t].View()), events, io) then old(conns) else old(conns) - {t}
      ensures t in old(conns) && !LineHandled(old(conns[t].View()), events, io) ==>
        old(conns[t]).View() == PreRead(old(conns[t].View()), events, io) && StoreKept()
      ensures t in old(conns) && LineHandled(old(conns[t].View()), events, io) ==>
        LineApplied(old(conns[t]), PreRead(old(conns[t].View()), events, io), io.read.data, io.clock, io.game,
                    old(store.users), old(store.players), old(store.characters), old(db.records))
    {
      if t !in conns {
        return events.writable || events.readable;
      }
      panicked := false;
      if events.writable {
        WriteEvent(t, io);
      }
      if events.readable {
        panicked := ReadEvent(t, io);
      }
    }

    /** The same with the two panics removed: once the writable arm has
        reset the token the event is finished, and a token that
        `Server::readable` already reset is not reregistered. */
    method ConnectionEventIsolated(t: nat, events: Events, io: Io) returns (panicked: bool)
      requires Valid() && t != token && t != 0 && !events.error && !events.hup
      modifies this, store, db, if t in conns then {conns[t]} else {}
      ensures Valid() && shutdown == old(shutdown) && timerArmed == old(timerArmed)
      ensures panicked <==> StrayEvent(old(ViewOf(t)), t, events)
      ensures t !in old(conns) ==> conns == old(conns) && StoreKept()
      ensures t in old(conns) ==>
        conns == if Survives(old(conns[t].View()), events, io) then old(conns) else old(conns) - {t}
      ensures t in old(conns) && !LineHandled(old(conns[t].View()), events, io) ==>
        old(conns[t]).View() == PreRead(old(conns[t].View()), events, io) && StoreKept()
      ensures t in old(conns) && LineHandled(old(conns[t].View()), events, io) ==>
        LineApplied(old(conns[t]), PreRead(old(conns[t].View()), events, io), io.read.data, io.clock, io.game,
                    old(store.users), old(store.players), old(store.characters), old(db.records))
    {
      if t !in conns {
        return events.writable || events.readable;
      }
      panicked := false;
      if events.writable {
        WriteEvent(t, io);
        if t !in conns {
          return;
        }
      }
      if events.readable {
        panicked := ReadEventIsolated(t, io);
      }
    }

    /** `ready` as written, for the events mio reports for token t; a
        panic stops the handler and is reported as `panicked`. An error or
        hang-up resets the token; a writable event writes; a readable event
        accepts on the listener's token and reads on a connection's. The
        token of an accepted connection is returned as `accepted`. */
    method Ready(t: nat, events: Events, io: Io) returns (panicked: bool, ghost accepted: Option<nat>)
      requires Valid()
      modifies this, Conns(), store, db
      ensures Valid() && timerArmed == old(timerArmed)
      ensures panicked <==> ReadyPanics(old(ViewOf(t)), t, events, io)
      ensures StrayEvent(old(ViewOf(t)), t, events) ==>
        conns == old(conns) && shutdown == old(shutdown) && StoreKept()
      ensures t != 0 && (events.error || events.hup) ==>
        && StoreKept()
        && if t == token then conns == old(conns) && shutdown
           else conns == old(conns) - {t} && shutdown == old(shutdown)
      ensures t == token && !events.error && !events.hup && !events.writable && events.readable ==>
        && StoreKept()
        && shutdown == (old(shutdown) || !io.listenerRereg)
        && (accepted.Some? <==> io.accept == Accepted && |old(conns)| < Capacity && io.connRegister)
        && (accepted.None? ==> conns == old(conns))
        && (accepted.Some? ==>
              var n := accepted.value;
              && InSlab(n) && n !in old(conns) && n in conns
              && conns == old(conns)[n := conns[n]]
              && fresh(conns[n])
              && conns[n].View() == CN.Registered(CN.InitialView(io.clock.now)))
      ensures t == token && !events.error && !events.hup && !events.readable ==>
        conns == old(conns) && shutdown == old(shutdown)
      ensures t != 0 && t != token && t in old(conns) && !events.error && !events.hup ==>
        && shutdown == old(shutdown)
        && conns == (if Survives(old(conns[t].View()), events, io) then old(conns) else old(conns) - {t})
        && (!LineHandled(old(conns[t].View()), events, io) ==>
              old(conns[t]).View() == PreRead(old(conns[t].View()), events, io) && StoreKept())
        && (LineHandled(old(conns[t].View()), events, io) ==>
              LineApplied(old(conns[t]), PreRead(old(conns[t].View()), events, io), io.read.data, io.clock, io.game,
                          old(store.users), old(store.players), old(store.characters), old(db.records)))
      ensures forall u :: u in old(conns) && u != t ==>
        u in conns && conns[u] == old(conns[u]) && conns[u].View() == old(conns[u].View())
    {
      accepted := None;
      if t == 0 {
        return true, None;
      }
      if events.error || events.hup {
        ResetConnection(t);
        return false, None;
      }
      if t == token {
        panicked, accepted := ListenerEvent(events, io);
      } else {
        panicked := ConnectionEvent(t, events, io);
      }
    }

    /** `ready` with the two panics removed; otherwise as `Ready`. */
    method ReadyIsolated(t: nat, events: Events, io: Io) returns (panicked: bool, ghost accepted: Option<nat>)
      requires Valid()
      modifies this, Conns(), store, db
      ensures Valid() && timerArmed == old(timerArmed)
      ensures panicked <==> StrayEvent(old(ViewOf(t)), t, events)
      ensures panicked ==> conns == old(conns) && shutdown == old(shutdown) && StoreKept()
      ensures t != 0 && (events.error || events.hup) ==>
        && StoreKept()
        && if t == token then conns == old(conns) && shutdown
           else conns == old(conns) - {t} && shutdown == old(shutdown)
      ensures t == token && !events.error && !events.hup && !events.writable && events.readable ==>
        && StoreKept()
        && shutdown == (old(shutdown) || !io.listenerRereg)
        && (accepted.Some? <==> io.accept == Accepted && |old(conns)| < Capacity && io.connRegister)
        && (accepted.None? ==> conns == old(conns))
        && (accepted.Some? ==>
              var n := accepted.value;
              && InSlab(n) && n !in old(conns) && n in conns
              && conns == old(conns)[n := conns[n]]
              && fresh(conns[n])
              && conns[n].View() == CN.Registered(CN.InitialView(io.clock.now)))
      ensures t == token && !events.error && !events.hup && !events.readable ==>
        conns == old(conns) && shutdown == old(shutdown)
      ensures t != 0 && t != token && t in old(conns) && !events.error && !events.hup ==>
        && shutdown == old(shutdown)
        && conns == (if Survives(old(conns[t].View()), events, io) then old(conns) else old(conns) - {t})
        && (!LineHandled(old(conns[t].View()), events, io) ==>
              old(conns[t]).View() == PreRead(old(conns[t].View()), events, io) && StoreKept())
        && (LineHandled(old(conns[t].View()), events, io) ==>
              LineApplied(old(conns[t]), PreRead(old(conns[t].View()), events, io), io.read.data, io.clock, io.game,
                          old(store.users), old(store.players), old(store.characters), old(db.records)))
      ensures forall u :: u in old(conns) && u != t ==>
        u in conns && conns[u] == old(conns[u]) && conns[u].View() == old(conns[u].View())
    {
      accepted := None;
      if t == 0 {
        return true, None;
      }
      if events.error || events.hup {
        ResetConnection(t);
        return false, None;
      }
      if t == token {
        panicked, accepted := ListenerEvent(events, io);
      } else {
        panicked := ConnectionEventIsolated(t, events, io);
      }
    }

    /** One connection's `handle_heartbeat`. */
    method BeatAt(k: nat, outcome: CN.WriteOutcome, c: CN.Clock) returns (rows: seq<TS.Transaction>)
      requires k in conns
      modifies conns[k]
      ensures Beat(old(conns[k].View()), conns[k].View(), rows, db.records, c, outcome)
    {
      rows := conns[k].HandleHeartbeat(db, c, outcome);
    }

    /** `timeout`: every connection in the table gets one heartbeat, with
        `writes(t)` as the answer to connection t's write, and the timer is
        scheduled again. Returns the rows each connection fetched. */
    method Timeout(writes: nat -> CN.WriteOutcome, c: CN.Clock) returns (fetched: map<nat, seq<TS.Transaction>>)
      requires Valid()
      modifies this, Conns()
      ensures Valid() && conns == old(conns) && shutdown == old(shutdown) && timerArmed
      ensures fetched.Keys == conns.Keys
      ensures forall u :: u in conns ==>
        Beat(old(conns[u].View()), conns[u].View(), fetched[u], db.records, c, writes(u))
    {
      fetched := HeartbeatEach(writes, c);
      timerArmed := true;
    }
  }
}
