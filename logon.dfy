/** The logon sub-protocol: a total function from (input line, logon state)
    to the next logon state and the reply for this turn. Its two store
    effects are explicit: whether a user name is known is membership in
    `users`, and `save_player` shows up as the record in `LogonStep.saved`. */
module Logon {
  import opened Text
  import Messages

  datatype LogonState =
    | New
    | Username
    | Password
    | RegisterNewUser
    | RegisterPassword
    | RegisterPasswordConfirm
    | RegisterCreation
    | Done

  datatype LogonManager = LogonManager(
    username: string,
    password: string,
    logonState: LogonState,
    returnMsg: string)

  /** What `save_player` writes: the user name as key and the password
      (the stored row also carries the constant stage "creation"). */
  datatype PlayerRecord = PlayerRecord(username: string, password: string)

  /** The new logon data and the players saved while computing it. */
  datatype LogonStep = LogonStep(manager: LogonManager, saved: seq<PlayerRecord>)

  function NewFromData(user: string, pwd: string, state: LogonState, msg: string): (m: LogonManager)
    ensures m.username == user && m.password == pwd
    ensures m.logonState == state && m.returnMsg == msg
  {
    LogonManager(user, pwd, state, msg)
  }

  /** `LogonManager::new`: a fresh logon starts by asking for the user name. */
  function NewManager(): (m: LogonManager)
    ensures m.logonState == Username
    ensures m.username == "" && m.password == "" && m.returnMsg == ""
  {
    LogonManager("", "", Username, "")
  }

  /** The input as the protocol sees it: ignored (empty) once registration
      has handed over to character creation or logon is done, and trimmed. */
  function EffectiveInput(cmd: string, state: LogonState): (input: string)
    ensures state == RegisterCreation || state == Done ==> input == ""
    ensures state != RegisterCreation && state != Done ==> input == Trim(cmd)
  {
    var inputString := match state
      case RegisterCreation => ""
      case Done => ""
      case _ => cmd;
    Trim(inputString)
  }

  /** The answer to "create a new user?": exactly `y` or `yes`; callers
      pass the already trimmed command. */
  predicate IsYes(input: string) { input == "y" || input == "yes" }

  /** `process_commands`: one turn of the logon protocol. */
  function ProcessCommands(cmd: string, data: LogonManager, users: set<string>): (r: LogonStep)
    ensures |r.saved| <= 1
    ensures r.saved != [] <==>
      data.logonState == RegisterPasswordConfirm && Trim(cmd) == data.password
    ensures r.saved != [] ==> r.saved[0] == PlayerRecord(data.username, data.password)
    ensures r.manager.username == if data.logonState == Username then Trim(cmd) else data.username
    ensures r.manager.password == if data.logonState == RegisterPassword then Trim(cmd) else data.password
  {
    var username := data.username;
    var password := data.password;
    var input := EffectiveInput(cmd, data.logonState);
    match data.logonState
    case New =>
      LogonStep(NewFromData(username, password, Username, ""), [])
    case Username =>
      if input !in users then
        LogonStep(NewFromData(input, password, RegisterNewUser, Messages.RegisterMessage), [])
      else
        LogonStep(NewFromData(input, password, Password, Messages.EnterPassword), [])
    case Password =>
      // The password is not checked against the stored record.
      LogonStep(NewFromData(username, password, Done, ""), [])
    case RegisterNewUser =>
      if IsYes(input) then
        LogonStep(NewFromData(username, password, RegisterPassword, Messages.RegisterPasswordPrompt), [])
      else
        LogonStep(NewFromData(username, password, New, Messages.WelcomeMessage), [])
    case RegisterPassword =>
      LogonStep(NewFromData(username, input, RegisterPasswordConfirm, Messages.ConfirmPassword), [])
    case RegisterPasswordConfirm =>
      if input == password then
        LogonStep(NewFromData(username, password, RegisterCreation, Messages.CreateCharacter),
                  [PlayerRecord(username, password)])
      else
        LogonStep(NewFromData(username, password, RegisterPassword, Messages.RegisterPasswordPrompt), [])
    case RegisterCreation =>
      LogonStep(NewFromData(username, password, Done, ""), [])
    case Done =>
      LogonStep(NewFromData(username, password, Done, ""), [])
  }

  // ---------------------------------------------------------------------
  // One lemma per row of the transition table.

  lemma NewGoesToUsername(cmd: string, data: LogonManager, users: set<string>)
    requires data.logonState == New
    ensures var r := ProcessCommands(cmd, data, users);
      r.manager == LogonManager(data.username, data.password, Username, "") && r.saved == []
  {
  }

  lemma UsernameLooksUpName(cmd: string, data: LogonManager, users: set<string>)
    requires data.logonState == Username
    ensures var r := ProcessCommands(cmd, data, users);
      && r.manager.username == Trim(cmd)
      && r.manager.password == data.password
      && r.saved == []
      && (Trim(cmd) !in users ==>
            r.manager.logonState == RegisterNewUser && r.manager.returnMsg == Messages.RegisterMessage)
      && (Trim(cmd) in users ==>
            r.manager.logonState == Password && r.manager.returnMsg == Messages.EnterPassword)
  {
  }

  lemma PasswordAlwaysAccepted(cmd: string, data: LogonManager, users: set<string>)
    requires data.logonState == Password
    ensures var r := ProcessCommands(cmd, data, users);
      r.manager == LogonManager(data.username, data.password, Done, "") && r.saved == []
  {
  }

  lemma RegisterNewUserAsksYes(cmd: string, data: LogonManager, users: set<string>)
    requires data.logonState == RegisterNewUser
    ensures var r := ProcessCommands(cmd, data, users);
      && r.saved == []
      && r.manager.username == data.username && r.manager.password == data.password
      && (r.manager.logonState == RegisterPassword <==> IsYes(Trim(cmd)))
      && (IsYes(Trim(cmd)) ==> r.manager.returnMsg == Messages.RegisterPasswordPrompt)
      && (!IsYes(Trim(cmd)) ==>
            r.manager.logonState == New && r.manager.returnMsg == Messages.WelcomeMessage)
  {
  }

  lemma RegisterPasswordStores(cmd: string, data: LogonManager, users: set<string>)
    requires data.logonState == RegisterPassword
    ensures var r := ProcessCommands(cmd, data, users);
      r.manager == LogonManager(data.username, Trim(cmd), RegisterPasswordConfirm, Messages.ConfirmPassword)
      && r.saved == []
  {
  }

  lemma ConfirmSavesOnMatch(cmd: string, data: LogonManager, users: set<string>)
    requires data.logonState == RegisterPasswordConfirm
    ensures var r := ProcessCommands(cmd, data, users);
      && r.manager.username == data.username && r.manager.password == data.password
      && (Trim(cmd) == data.password ==>
            && r.manager.logonState == RegisterCreation
            && r.manager.returnMsg == Messages.CreateCharacter
            && r.saved == [PlayerRecord(data.username, data.password)])
      && (Trim(cmd) != data.password ==>
            && r.manager.logonState == RegisterPassword
            && r.manager.returnMsg == Messages.RegisterPasswordPrompt
            && r.saved == [])
  {
  }

  /** At RegisterCreation and Done the input is not even looked at. */
  lemma TerminalStatesIgnoreInput(cmd: string, cmd': string, data: LogonManager, users: set<string>)
    requires data.logonState == RegisterCreation || data.logonState == Done
    ensures var r := ProcessCommands(cmd, data, users);
      && r == ProcessCommands(cmd', data, users)
      && r.manager == LogonManager(data.username, data.password, Done, "")
      && r.saved == []
  {
  }

  // ---------------------------------------------------------------------
  // Several turns.

  /** A new name, "yes", a password and the same password again reach
      RegisterCreation and save exactly one player record. */
  lemma RegistrationSavesOnce(name: string, pwd: string, users: set<string>)
    requires Trim(name) !in users
    ensures var s1 := ProcessCommands(name, NewManager(), users);
      var s2 := ProcessCommands("yes", s1.manager, users);
      var s3 := ProcessCommands(pwd, s2.manager, users);
      var s4 := ProcessCommands(pwd, s3.manager, users);
      && s4.manager.logonState == RegisterCreation
      && s4.manager.returnMsg == Messages.CreateCharacter
      && s1.saved == [] && s2.saved == [] && s3.saved == []
      && s4.saved == [PlayerRecord(Trim(name), Trim(pwd))]
  {
    TrimNoop("yes");
    var m1 := LogonManager(Trim(name), "", RegisterNewUser, Messages.RegisterMessage);
    var m2 := LogonManager(Trim(name), "", RegisterPassword, Messages.RegisterPasswordPrompt);
    var m3 := LogonManager(Trim(name), Trim(pwd), RegisterPasswordConfirm, Messages.ConfirmPassword);
    UsernameLooksUpName(name, NewManager(), users);
    assert ProcessCommands(name, NewManager(), users) == LogonStep(m1, []);
    RegisterNewUserAsksYes("yes", m1, users);
    assert ProcessCommands("yes", m1, users) == LogonStep(m2, []);
    RegisterPasswordStores(pwd, m2, users);
    assert ProcessCommands(pwd, m2, users) == LogonStep(m3, []);
    ConfirmSavesOnMatch(pwd, m3, users);
  }

  /** A mismatched confirmation goes back to the password prompt and saves nothing. */
  lemma MismatchSavesNothing(name: string, pwd: string, other: string, users: set<string>)
    requires Trim(name) !in users && Trim(other) != Trim(pwd)
    ensures var s1 := ProcessCommands(name, NewManager(), users);
      var s2 := ProcessCommands("yes", s1.manager, users);
      var s3 := ProcessCommands(pwd, s2.manager, users);
      var s4 := ProcessCommands(other, s3.manager, users);
      && s4.manager.logonState == RegisterPassword
      && s4.manager.returnMsg == Messages.RegisterPasswordPrompt
      && s1.saved == [] && s2.saved == [] && s3.saved == [] && s4.saved == []
  {
    TrimNoop("yes");
    var m1 := LogonManager(Trim(name), "", RegisterNewUser, Messages.RegisterMessage);
    var m2 := LogonManager(Trim(name), "", RegisterPassword, Messages.RegisterPasswordPrompt);
    var m3 := LogonManager(Trim(name), Trim(pwd), RegisterPasswordConfirm, Messages.ConfirmPassword);
    UsernameLooksUpName(name, NewManager(), users);
    RegisterNewUserAsksYes("yes", m1, users);
    RegisterPasswordStores(pwd, m2, users);
    ConfirmSavesOnMatch(other, m3, users);
  }

  /** A known name reaches Done after any second line, saving nothing. */
  lemma KnownUserLogsOn(name: string, anything: string, users: set<string>)
    requires Trim(name) in users
    ensures var s1 := ProcessCommands(name, NewManager(), users);
      var s2 := ProcessCommands(anything, s1.manager, users);
      && s2.manager.logonState == Done && s2.manager.username == Trim(name)
      && s1.saved == [] && s2.saved == []
  {
    UsernameLooksUpName(name, NewManager(), users);
  }
}
