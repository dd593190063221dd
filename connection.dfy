/** One accepted client: its phase, its mio interest set, its queue of
    outgoing buffers, its heartbeat watermark and the two sub-protocol
    states. The socket, the event loop and the clocks are outside the model:
    a write's outcome, a registration's outcome and the clock readings are
    parameters. The pure `ConnView` functions below are the specification
    that every method of the class is proved against. */
module Connection {
  import opened Text
  import Messages
  import LG = Logon
  import CH = Character
  import TS = TransactionStorage

  datatype ConnectionState = New | Logon | CharacterCreation | Play

  /** The mio `EventSet` bits a connection can be interested in. */
  datatype Interest = ReadReady | WriteReady | HangUp

  /** What `try_write_buf` reported for the buffer handed to it. */
  datatype WriteOutcome = Written | WouldBlock | WriteFailed

  /** The clock readings one operation uses: the local time of day that
      `time::now` formats into replies, and the timespec `time::get_time`. */
  datatype Clock = Clock(hour: int, minute: int, second: int, now: int)

  /** Everything the methods of `Connection` change, as one value. */
  datatype ConnView = ConnView(
    state: ConnectionState,
    interest: set<Interest>,
    sendQueue: seq<string>,
    lastUpdate: int,
    logon: LG.LogonManager,
    creator: CH.CharCreator)

  /** `Connection::new`: the phase starts at Logon (New is never entered),
      listening for hang-up only, nothing queued. */
  function InitialView(now: int): (v: ConnView)
    ensures v.state == Logon && v.interest == {HangUp} && v.sendQueue == [] && v.lastUpdate == now
    ensures v.logon == LG.NewManager() && v.logon.logonState == LG.Username
    ensures v.creator == CH.NewCreator() && v.creator.state == CH.Race
  {
    ConnView(Logon, {HangUp}, [], now, LG.NewManager(), CH.NewCreator())
  }

  // ---------------------------------------------------------------------
  // Queueing and flushing

  /** `send_message`: push the buffer and listen for writability. */
  function Queued(v: ConnView, buf: string): (w: ConnView)
    ensures w.sendQueue == v.sendQueue + [buf] && w.interest == v.interest + {WriteReady}
    ensures w.state == v.state && w.lastUpdate == v.lastUpdate
    ensures w.logon == v.logon && w.creator == v.creator
  {
    v.(sendQueue := v.sendQueue + [buf], interest := v.interest + {WriteReady})
  }

  /** The reply text `send` queues: "[hour:minute:second]" in unpadded
      decimal, then the message. */
  function TimeTag(c: Clock, msg: string): (s: string)
    ensures |s| > |msg| && s[0] == '[' && s[|s| - |msg|..] == msg
  {
    var prefix := "[" + IntToDecimal(c.hour) + ":" + IntToDecimal(c.minute) + ":" + IntToDecimal(c.second) + "]";
    assert (prefix + msg)[|prefix|..] == msg;
    prefix + msg
  }

  /** `send`: an empty message is dropped, any other is time-tagged and queued. */
  function Sent(v: ConnView, msg: string, c: Clock): (w: ConnView)
    ensures msg == "" ==> w == v
    ensures msg != "" ==> w == Queued(v, TimeTag(c, msg))
  {
    if |msg| > 0 then Queued(v, TimeTag(c, msg)) else v
  }

  /** The new state after `writable`, and whether it returned Ok. */
  datatype Flush = Flush(view: ConnView, ok: bool)

  /** The tail of `writable` on its Ok paths: an empty queue drops the
      interest in writability. */
  function Settled(v: ConnView): (f: Flush)
    ensures f.ok && f.view.sendQueue == v.sendQueue
    ensures f.view.interest == if v.sendQueue == [] then v.interest - {WriteReady} else v.interest
  {
    Flush(if v.sendQueue == [] then v.(interest := v.interest - {WriteReady}) else v, true)
  }

  /** `writable`: the last buffer pushed is the one written. */
  function Flushed(v: ConnView, outcome: WriteOutcome): (f: Flush)
  {
    if v.sendQueue != [] then
      var rest := v.sendQueue[..|v.sendQueue| - 1];
      match outcome
      case WouldBlock => Settled(v)
      case Written => Settled(v.(sendQueue := rest))
      case WriteFailed => Flush(v.(sendQueue := rest), false)
    else Settled(v)
  }

  /** The queue is a stack: one write consumes the newest buffer, a write
      that would block leaves the queue as it was, and a failed write loses
      the buffer and reports the error with the interest set untouched. */
  lemma FlushedPopsNewest(v: ConnView, outcome: WriteOutcome)
    requires v.sendQueue != []
    ensures var f := Flushed(v, outcome);
      && f.view.state == v.state && f.view.lastUpdate == v.lastUpdate
      && (f.ok <==> outcome != WriteFailed)
      && (outcome == WouldBlock ==> f.view.sendQueue == v.sendQueue)
      && (outcome != WouldBlock ==> v.sendQueue == f.view.sendQueue + [v.sendQueue[|v.sendQueue| - 1]])
      && (outcome == WriteFailed ==> f.view.interest == v.interest)
  {
  }

  /** After an Ok return, writability is of interest exactly when something
      is left to write. */
  lemma FlushedDropsIdleWriteInterest(v: ConnView, outcome: WriteOutcome)
    requires v.sendQueue != [] ==> WriteReady in v.interest
    ensures var f := Flushed(v, outcome);
      f.ok ==> (WriteReady in f.view.interest <==> f.view.sendQueue != [])
  {
  }

  /** `register`, the interest part: readability joins the set. */
  function Registered(v: ConnView): (w: ConnView)
    ensures w.interest == v.interest + {ReadReady}
    ensures w.(interest := v.interest) == v
  {
    v.(interest := v.interest + {ReadReady})
  }

  // ---------------------------------------------------------------------
  // Heartbeat

  /** The running maximum `handle_heartbeat` keeps while it walks `rows`,
      starting from `w`. */
  function Watermark(rows: seq<TS.Transaction>, w: int): int
    decreases |rows|
  {
    if rows == [] then w
    else
      var m := Watermark(rows[..|rows| - 1], w);
      var t := rows[|rows| - 1].timeCreated;
      if t > m then t else m
  }

  /** The rows `handle_heartbeat` sends: each one newer than every row
      before it and than `w`. */
  function Fresh(rows: seq<TS.Transaction>, w: int): seq<TS.Transaction>
    decreases |rows|
  {
    if rows == [] then []
    else
      var prefix := rows[..|rows| - 1];
      var last := rows[|rows| - 1];
      Fresh(prefix, w) + (if last.timeCreated > Watermark(prefix, w) then [last] else [])
  }

  /** The watermark is the maximum of `w` and every timestamp seen. */
  lemma {:induction false} WatermarkIsMaximum(rows: seq<TS.Transaction>, w: int)
    ensures Watermark(rows, w) >= w
    ensures forall i :: 0 <= i < |rows| ==> rows[i].timeCreated <= Watermark(rows, w)
    ensures Watermark(rows, w) == w || exists i :: 0 <= i < |rows| && rows[i].timeCreated == Watermark(rows, w)
    decreases |rows|
  {
    if rows != [] {
      var prefix := rows[..|rows| - 1];
      WatermarkIsMaximum(prefix, w);
      assert forall i :: 0 <= i < |prefix| ==> rows[i] == prefix[i];
    }
  }

  /** The watermark ends at the last row sent, or where it started when
      nothing was sent. */
  lemma {:induction false} WatermarkIsLastSent(rows: seq<TS.Transaction>, w: int)
    ensures Fresh(rows, w) == [] ==> Watermark(rows, w) == w
    ensures Fresh(rows, w) != [] ==> Watermark(rows, w) == Fresh(rows, w)[|Fresh(rows, w)| - 1].timeCreated
    decreases |rows|
  {
    if rows != [] {
      WatermarkIsLastSent(rows[..|rows| - 1], w);
    }
  }

  /** The rows sent carry strictly increasing timestamps, all after `w`. */
  lemma {:induction false} FreshIncreasing(rows: seq<TS.Transaction>, w: int)
    ensures forall i :: 0 <= i < |Fresh(rows, w)| ==> Fresh(rows, w)[i].timeCreated > w
    ensures forall i, j :: 0 <= i < j < |Fresh(rows, w)| ==>
      Fresh(rows, w)[i].timeCreated < Fresh(rows, w)[j].timeCreated
    decreases |rows|
  {
    if rows != [] {
      var prefix := rows[..|rows| - 1];
      FreshIncreasing(prefix, w);
      WatermarkIsLastSent(prefix, w);
    }
  }

  /** Only rows that were fetched are sent, each at most as often as fetched. */
  lemma {:induction false} FreshFromRows(rows: seq<TS.Transaction>, w: int)
    ensures multiset(Fresh(rows, w)) <= multiset(rows)
    decreases |rows|
  {
    if rows != [] {
      var prefix := rows[..|rows| - 1];
      FreshFromRows(prefix, w);
      assert rows == prefix + [rows[|rows| - 1]];
    }
  }

  /** Rows fetched in time order are all sent. */
  lemma {:induction false} FreshSorted(rows: seq<TS.Transaction>, w: int)
    requires forall i :: 0 <= i < |rows| ==> rows[i].timeCreated > w
    requires forall i, j :: 0 <= i < j < |rows| ==> rows[i].timeCreated < rows[j].timeCreated
    ensures Fresh(rows, w) == rows
    decreases |rows|
  {
    if rows != [] {
      var n := |rows| - 1;
      var prefix := rows[..n];
      FreshSorted(prefix, w);
      FreshSortedStep(prefix, rows[n], w);
      assert prefix + [rows[n]] == rows;
    }
  }

  /** One step of `FreshSorted`: a row newer than every row sent so far is
      sent too. */
  lemma FreshSortedStep(prefix: seq<TS.Transaction>, last: TS.Transaction, w: int)
    requires Fresh(prefix, w) == prefix
    requires last.timeCreated > w
    requires prefix != [] ==> prefix[|prefix| - 1].timeCreated < last.timeCreated
    ensures Fresh(prefix + [last], w) == prefix + [last]
  {
    var rows := prefix + [last];
    assert rows[..|rows| - 1] == prefix;
    WatermarkIsLastSent(prefix, w);
  }

  /** Rows that the unordered query returns out of time order are skipped:
      a newer row fetched first hides an older one for good. */
  lemma OutOfOrderRowIsSkipped(older: TS.Transaction, newer: TS.Transaction, w: int)
    requires w < older.timeCreated < newer.timeCreated
    ensures Fresh([newer, older], w) == [newer]
    ensures Watermark([newer, older], w) == newer.timeCreated
  {
    assert [newer, older][..1] == [newer];
    assert [newer][..0] == [];
    assert Watermark([newer], w) == newer.timeCreated;
    assert Fresh([newer], w) == [newer];
  }

  /** The messages of `rows`, sent one after the other. */
  function SendAll(v: ConnView, rows: seq<TS.Transaction>, c: Clock): (w: ConnView)
    ensures w.state == v.state && w.lastUpdate == v.lastUpdate
    ensures w.logon == v.logon && w.creator == v.creator
    decreases |rows|
  {
    if rows == [] then v
    else Sent(SendAll(v, rows[..|rows| - 1], c), rows[|rows| - 1].message, c)
  }

  /** One more fetched row: it is sent, and becomes the watermark, exactly
      when it is newer than the watermark so far. */
  lemma HeartbeatStep(v: ConnView, rows: seq<TS.Transaction>, i: nat, w: int, c: Clock)
    requires i < |rows|
    ensures var m := Watermark(rows[..i], w);
      && Watermark(rows[..i + 1], w) == (if rows[i].timeCreated > m then rows[i].timeCreated else m)
      && SendAll(v, Fresh(rows[..i + 1], w), c)
         == if rows[i].timeCreated > m then Sent(SendAll(v, Fresh(rows[..i], w), c), rows[i].message, c)
            else SendAll(v, Fresh(rows[..i], w), c)
  {
    assert rows[..i + 1][..i] == rows[..i];
    var f := Fresh(rows[..i], w);
    assert (f + [rows[i]])[..|f|] == f;
    assert f + [] == f;
  }

  /** `handle_heartbeat`: outside Play nothing happens; in Play the fresh
      rows are sent, the watermark moves, and one write is attempted. */
  function Heartbeaten(v: ConnView, rows: seq<TS.Transaction>, c: Clock, outcome: WriteOutcome): ConnView
  {
    if v.state == Play then
      Flushed(SendAll(v, Fresh(rows, v.lastUpdate), c).(lastUpdate := Watermark(rows, v.lastUpdate)), outcome).view
    else v
  }

  lemma HeartbeatOnlyInPlay(v: ConnView, rows: seq<TS.Transaction>, c: Clock, outcome: WriteOutcome)
    ensures v.state != Play ==> Heartbeaten(v, rows, c, outcome) == v
    ensures v.state == Play ==>
      && Heartbeaten(v, rows, c, outcome).lastUpdate == Watermark(rows, v.lastUpdate)
      && Heartbeaten(v, rows, c, outcome).lastUpdate >= v.lastUpdate
      && Heartbeaten(v, rows, c, outcome).state == Play
  {
    WatermarkIsMaximum(rows, v.lastUpdate);
  }

  // ---------------------------------------------------------------------
  // Input

  /** What one call of `handle_input` does: the new connection state, the
      players and characters saved, and the rows logged (with id 0). */
  datatype InputEffect = InputEffect(
    view: ConnView,
    players: seq<LG.PlayerRecord>,
    characters: seq<CH.Character>,
    logged: seq<TS.Transaction>)

  /** The creator handed to character creation and to the game: the logon
      name as owner, the stored info, attributes and state, no reply. */
  function CreatorInput(v: ConnView): (d: CH.CharCreator)
    ensures d.username == v.logon.username && d.character.username == v.logon.username
    ensures d.character.info == v.creator.character.info && d.character.attr == v.creator.character.attr
    ensures d.state == v.creator.state && d.returnMsg == ""
  {
    CH.NewCreatorFromData(
      v.logon.username,
      CH.NewCharacterFromData(v.logon.username, v.creator.character.info, v.creator.character.attr),
      v.creator.state, "")
  }

  function LogonPhase(s: LG.LogonState): ConnectionState {
    match s
    case RegisterCreation => CharacterCreation
    case Done => Play
    case _ => Logon
  }

  /** The Logon arm of `handle_input`: run one logon turn on a copy of the
      logon state with an empty reply, send its reply, and hand over to
      character creation or play when logon says so. */
  function LogonTurn(v: ConnView, input: string, c: Clock, users: set<string>): (e: InputEffect)
    ensures e.characters == [] && e.logged == []
  {
    var data := LG.NewFromData(v.logon.username, v.logon.password, v.logon.logonState, "");
    var r := LG.ProcessCommands(input, data, users);
    var sent := Sent(v.(logon := r.manager), r.manager.returnMsg, c);
    InputEffect(sent.(state := LogonPhase(r.manager.logonState)), r.saved, [], [])
  }

  /** The CharacterCreation arm: one creation turn for the logged-on user,
      its reply sent, Play once creation is Done. */
  function CreationTurn(v: ConnView, input: string, c: Clock): (e: InputEffect)
    ensures e.players == [] && e.logged == []
  {
    var r := CH.ProcessCommands(input, CreatorInput(v));
    var sent := Sent(v.(creator := r.creator), r.creator.returnMsg, c);
    InputEffect(sent.(state := if r.creator.state == CH.Done then Play else CharacterCreation), [], r.saved, [])
  }

  /** The Play arm: the game's answer is logged with the current time. */
  function PlayTurn(v: ConnView, input: string, c: Clock, game: (string, CH.CharCreator) -> string): (e: InputEffect)
    ensures e.view == v && e.players == [] && e.characters == []
  {
    InputEffect(v, [], [], [TS.NewTransaction(game(input, CreatorInput(v)), c.now)])
  }

  /** `handle_input`. `users` are the names `user_exists` knows; `game` is
      `GameHandler::process_commands`. */
  function InputHandled(v: ConnView, input: string, c: Clock, users: set<string>,
                        game: (string, CH.CharCreator) -> string): InputEffect
  {
    match v.state
    case New => InputEffect(Queued(v.(state := Logon), Messages.WelcomeMessage), [], [], [])
    case Logon => LogonTurn(v, input, c, users)
    case CharacterCreation => CreationTurn(v, input, c)
    case Play => PlayTurn(v, input, c, game)
  }

  /** The greeting arm: untagged, and sent before anything is read. */
  lemma NewInput(v: ConnView, input: string, c: Clock, users: set<string>,
                 game: (string, CH.CharCreator) -> string)
    requires v.state == New
    ensures var e := InputHandled(v, input, c, users, game);
      && e.view.state == Logon
      && e.view.sendQueue == v.sendQueue + [Messages.WelcomeMessage]
      && e.view.logon == v.logon && e.view.creator == v.creator
      && e.players == [] && e.characters == [] && e.logged == []
  {
  }

  lemma LogonInput(v: ConnView, input: string, c: Clock, users: set<string>)
    ensures var e := LogonTurn(v, input, c, users);
      var r := LG.ProcessCommands(input, LG.NewFromData(v.logon.username, v.logon.password, v.logon.logonState, ""), users);
      && e.view.logon == r.manager
      && e.view.creator == v.creator
      && e.view.sendQueue == Sent(v, r.manager.returnMsg, c).sendQueue
      && (e.view.state == CharacterCreation <==> r.manager.logonState == LG.RegisterCreation)
      && (e.view.state == Play <==> r.manager.logonState == LG.Done)
      && (e.view.state == Logon <==> r.manager.logonState !in {LG.RegisterCreation, LG.Done})
      && e.players == r.saved
  {
  }

  lemma CreationInput(v: ConnView, input: string, c: Clock)
    ensures var e := CreationTurn(v, input, c);
      var r := CH.ProcessCommands(input, CreatorInput(v));
      && e.view.creator == r.creator
      && e.view.creator.username == v.logon.username
      && e.view.logon == v.logon
      && e.view.sendQueue == Sent(v, r.creator.returnMsg, c).sendQueue
      && (e.view.state == Play <==> r.creator.state == CH.Done)
      && (e.view.state != Play ==> e.view.state == CharacterCreation)
      && e.characters == r.saved
  {
  }

  /** In Play every line is logged once, with the current time, and nothing
      is queued or saved. */
  lemma PlayInput(v: ConnView, input: string, c: Clock, game: (string, CH.CharCreator) -> string)
    ensures var e := PlayTurn(v, input, c, game);
      && |e.logged| == 1
      && e.logged[0].message == game(input, CreatorInput(v))
      && e.logged[0].timeCreated == c.now
  {
  }

  function PhaseRank(s: ConnectionState): nat {
    match s
    case New => 0
    case Logon => 1
    case CharacterCreation => 2
    case Play => 3
  }

  /** Phases only move forward. */
  lemma PhaseNeverGoesBack(v: ConnView, input: string, c: Clock, users: set<string>,
                           game: (string, CH.CharCreator) -> string)
    ensures PhaseRank(InputHandled(v, input, c, users, game).view.state) >= PhaseRank(v.state)
  {
    match v.state
    case New =>
    case Logon => LogonInput(v, input, c, users);
    case CharacterCreation => CreationInput(v, input, c);
    case Play =>
  }

  // ---------------------------------------------------------------------
  // The invariant every operation keeps

  /** Hang-up interest is never dropped; queued buffers are always announced
      by writable interest; and the phase agrees with the sub-protocols: a
      logon still in progress has reached neither hand-over state,
      character creation runs only after registration and until Done, and
      Play follows a finished logon or a finished creation. */
  predicate Consistent(v: ConnView) {
    && HangUp in v.interest
    && (v.sendQueue != [] ==> WriteReady in v.interest)
    && (v.state in {New, Logon} ==>
          v.logon.logonState !in {LG.RegisterCreation, LG.Done} && v.creator.state != CH.Done)
    && (v.state == CharacterCreation ==> v.logon.logonState == LG.RegisterCreation && v.creator.state != CH.Done)
    && (v.state == Play ==> v.logon.logonState == LG.Done || v.creator.state == CH.Done)
  }

  lemma InitialConsistent(now: int)
    ensures Consistent(InitialView(now))
  {
  }

  lemma SentConsistent(v: ConnView, msg: string, c: Clock)
    requires Consistent(v)
    ensures Consistent(Sent(v, msg, c))
  {
  }

  lemma FlushedConsistent(v: ConnView, outcome: WriteOutcome)
    requires Consistent(v)
    ensures Consistent(Flushed(v, outcome).view)
  {
  }

  lemma RegisteredConsistent(v: ConnView)
    requires Consistent(v)
    ensures Consistent(Registered(v))
  {
  }

  lemma {:induction false} SendAllConsistent(v: ConnView, rows: seq<TS.Transaction>, c: Clock)
    requires Consistent(v)
    ensures Consistent(SendAll(v, rows, c))
    decreases |rows|
  {
    if rows != [] {
      SendAllConsistent(v, rows[..|rows| - 1], c);
    }
  }

  lemma HeartbeatConsistent(v: ConnView, rows: seq<TS.Transaction>, c: Clock, outcome: WriteOutcome)
    requires Consistent(v)
    ensures Consistent(Heartbeaten(v, rows, c, outcome))
  {
    if v.state == Play {
      SendAllConsistent(v, Fresh(rows, v.lastUpdate), c);
    }
  }

  lemma InputConsistent(v: ConnView, input: string, c: Clock, users: set<string>,
                        game: (string, CH.CharCreator) -> string)
    requires Consistent(v)
    ensures Consistent(InputHandled(v, input, c, users, game).view)
  {
    match v.state
    case New =>
    case Logon =>
      LogonInput(v, input, c, users);
      SentConsistent(v, LogonTurn(v, input, c, users).view.logon.returnMsg, c);
    case CharacterCreation =>
      CreationInput(v, input, c);
      SentConsistent(v, CreationTurn(v, input, c).view.creator.returnMsg, c);
    case Play =>
  }

  // ---------------------------------------------------------------------
  // The connection object

  class Connection {
    const token: nat
    var lastUpdate: int
    var interest: set<Interest>
    var sendQueue: seq<string>
    var state: ConnectionState
    var logonHandler: LG.LogonManager
    var characterCreator: CH.CharCreator

    function View(): ConnView
      reads this
    {
      ConnView(state, interest, sendQueue, lastUpdate, logonHandler, characterCreator)
    }

    /** `Connection::new`, with `now` read from the clock. */
    constructor (token: nat, now: int)
      ensures this.token == token && View() == InitialView(now)
    {
      this.token := token;
      interest := {HangUp};
      sendQueue := [];
      state := Logon;
      lastUpdate := now;
      logonHandler := LG.NewManager();
      characterCreator := CH.NewCreator();
    }

    method SetLastUpdate(updatedTime: int)
      modifies this
      ensures View() == old(View()).(lastUpdate := updatedTime)
    {
      lastUpdate := updatedTime;
    }

    method SendMessage(message: string) returns (ok: bool)
      modifies this
      ensures ok && View() == Queued(old(View()), message)
    {
      sendQueue := sendQueue + [message];
      interest := interest + {WriteReady};
      ok := true;
    }

    method Send(message: string, c: Clock)
      modifies this
      ensures View() == Sent(old(View()), message, c)
    {
      if |message| > 0 {
        var s := TimeTag(c, message);
        var ignored := SendMessage(s);
      }
    }

    /** `writable`, with the socket's answer as `outcome`. */
    method Writable(outcome: WriteOutcome) returns (ok: bool)
      modifies this
      ensures Flush(View(), ok) == Flushed(old(View()), outcome)
    {
      if sendQueue != [] {
        var buf := sendQueue[|sendQueue| - 1];
        sendQueue := sendQueue[..|sendQueue| - 1];
        match outcome {
          case WouldBlock =>
            // Put the buffer back so the next writable event retries it.
            sendQueue := sendQueue + [buf];
          case Written =>
          case WriteFailed =>
            return false;
        }
      }
      if sendQueue == [] {
        interest := interest - {WriteReady};
      }
      ok := true;
    }

    /** `register`: the interest change, and the event loop's answer `registered`. */
    method Register(registered: bool) returns (ok: bool)
      modifies this
      ensures ok == registered && View() == Registered(old(View()))
    {
      interest := interest + {ReadReady};
      ok := registered;
    }

    /** `handle_heartbeat`: returns the rows `getRecord` produced. */
    method HandleHeartbeat(log: TS.MessageLog, c: Clock, outcome: WriteOutcome) returns (rows: seq<TS.Transaction>)
      modifies this
      ensures old(state) == Play ==> multiset(rows) == multiset(TS.After(log.records, old(lastUpdate)))
      ensures old(state) != Play ==> rows == []
      ensures View() == Heartbeaten(old(View()), rows, c, outcome)
    {
      rows := [];
      if state == Play {
        rows := log.GetRecord(lastUpdate);
        var last := SendFresh(rows, c);
        SetLastUpdate(last);
        var ignored := Writable(outcome);
      }
    }

    /** The loop of `handle_heartbeat`: every row newer than the watermark so
        far is sent, and the watermark follows it. */
    method SendFresh(rows: seq<TS.Transaction>, c: Clock) returns (last: int)
      modifies this
      ensures last == Watermark(rows, old(lastUpdate))
      ensures View() == SendAll(old(View()), Fresh(rows, old(lastUpdate)), c)
    {
      ghost var v0 := View();
      last := lastUpdate;
      var i := 0;
      while i < |rows|
        invariant 0 <= i <= |rows|
        invariant last == Watermark(rows[..i], v0.lastUpdate)
        invariant View() == SendAll(v0, Fresh(rows[..i], v0.lastUpdate), c)
        decreases |rows| - i
      {
        HeartbeatStep(v0, rows, i, v0.lastUpdate, c);
        var message := rows[i];
        if message.timeCreated > last {
          last := message.timeCreated;
          Send(message.message, c);
        }
        i := i + 1;
      }
      assert rows[..i] == rows;
    }

    /** The Logon arm of `handle_input`; `save_player` runs inside the turn. */
    method HandleLogon(input: string, c: Clock, store: TS.PlayerStore)
      modifies this, store
      ensures var e := LogonTurn(old(View()), input, c, old(store.users));
        && View() == e.view
        && store.players == old(store.players) + e.players
        && store.users == old(store.users) + (if e.players == [] then {} else {e.players[0].username})
        && store.characters == old(store.characters)
    {
      var data := LG.NewFromData(logonHandler.username, logonHandler.password, logonHandler.logonState, "");
      var result := LG.ProcessCommands(input, data, store.users);
      if result.saved != [] {
        store.SavePlayer(result.saved[0]);
      }
      logonHandler := result.manager;
      Send(logonHandler.returnMsg, c);
      match logonHandler.logonState {
        case RegisterCreation => state := CharacterCreation;
        case Done => state := Play;
        case _ => state := Logon;
      }
    }

    /** The CharacterCreation arm; `save_character` runs inside the turn. */
    method HandleCreation(input: string, c: Clock, store: TS.PlayerStore)
      modifies this, store
      ensures var e := CreationTurn(old(View()), input, c);
        && View() == e.view
        && store.characters == old(store.characters) + e.characters
        && store.users == old(store.users) && store.players == old(store.players)
    {
      var data := CreatorInput(View());
      var result := CH.ProcessCommands(input, data);
      if result.saved != [] {
        store.SaveCharacter(result.saved[0]);
      }
      characterCreator := result.creator;
      Send(characterCreator.returnMsg, c);
      state := if characterCreator.state == CH.Done then Play else CharacterCreation;
    }

    /** The Play arm: one row for the log, stamped with the current time. */
    method HandlePlay(input: string, c: Clock, game: (string, CH.CharCreator) -> string, log: TS.MessageLog)
      modifies log
      ensures var e := PlayTurn(View(), input, c, game);
        log.records == old(log.records) +
          [TS.Transaction(|old(log.records)| + 1, e.logged[0].message, e.logged[0].timeCreated)]
    {
      var data := CreatorInput(View());
      var result := game(input, data);
      var transaction := TS.NewTransaction(result, c.now);
      log.InsertRecord(transaction);
    }

    /** `handle_input`; always returns Ok(true). */
    method HandleInput(input: string, c: Clock, game: (string, CH.CharCreator) -> string,
                       store: TS.PlayerStore, log: TS.MessageLog) returns (ok: bool)
      modifies this, store, log
      ensures ok
      ensures var e := InputHandled(old(View()), input, c, old(store.users), game);
        && View() == e.view
        && store.players == old(store.players) + e.players
        && store.users == old(store.users) + (if e.players == [] then {} else {e.players[0].username})
        && store.characters == old(store.characters) + e.characters
        && log.records == old(log.records) +
             (if e.logged == [] then []
              else [TS.Transaction(|old(log.records)| + 1, e.logged[0].message, e.logged[0].timeCreated)])
    {
      match state {
        case New =>
          state := Logon;
          var ignored := SendMessage(Messages.WelcomeMessage);
        case Logon =>
          HandleLogon(input, c, store);
        case CharacterCreation =>
          HandleCreation(input, c, store);
        case Play =>
          HandlePlay(input, c, game, log);
      }
      ok := true;
    }
  }
}
