/** The character-creation sub-protocol and its helpers: the input
    validators, the map updaters, the fixed tables and the weighted attribute
    generator. `CharCreator::process_commands` is a total function; saving the
    finished character shows up as the record in `CreationStep.saved`. */
module Character {
  import opened Text
  import Messages

  datatype CreationState = New | Race | Gender | Type | Selection | Done

  /** A character: identity key, free-form info, numeric attributes, and four
      reserved collections the server never fills. */
  datatype Character = Character(
    username: string,
    info: map<string, string>,
    attr: map<string, int>,
    items: seq<()>,
    equips: seq<()>,
    skills: seq<()>,
    history: seq<()>)

  datatype CharCreator = CharCreator(
    username: string,
    character: Character,
    state: CreationState,
    returnMsg: string)

  /** The new creator and the characters saved while computing it. */
  datatype CreationStep = CreationStep(creator: CharCreator, saved: seq<Character>)

  predicate NoExtras(c: Character) {
    c.items == [] && c.equips == [] && c.skills == [] && c.history == []
  }

  function NewCharacter(): (c: Character)
    ensures c.username == "" && c.info == map[] && c.attr == map[] && NoExtras(c)
  {
    Character("", map[], map[], [], [], [], [])
  }

  function NewCharacterFromData(id: string, info: map<string, string>, attr: map<string, int>): (c: Character)
    ensures c.username == id && c.info == info && c.attr == attr && NoExtras(c)
  {
    Character(id, info, attr, [], [], [], [])
  }

  /** `CharCreator::new`: creation starts at race selection, not at New. */
  function NewCreator(): (c: CharCreator)
    ensures c.state == Race && c.username == "" && c.returnMsg == ""
    ensures c.character == NewCharacter()
  {
    CharCreator("", NewCharacter(), Race, "")
  }

  function NewCreatorFromData(user: string, ch: Character, state: CreationState, msg: string): (c: CharCreator)
    ensures c.username == user && c.character == ch && c.state == state && c.returnMsg == msg
  {
    CharCreator(user, ch, state, msg)
  }

  // ---------------------------------------------------------------------
  // Fixed tables

  const InfoKeys: set<string> := {"name", "race", "personality", "description", "look"}

  /** `initialize_info`: the five identity keys, all empty. */
  function InitializeInfo(): (info: map<string, string>)
    ensures info.Keys == InfoKeys
    ensures forall k :: k in info ==> info[k] == ""
  {
    map["name" := "", "race" := "", "personality" := "", "description" := "", "look" := ""]
  }

  /** `initialize_attr`: three pools at 10 and three abilities at 3. */
  function InitializeAttr(): (attr: map<string, int>)
    ensures attr.Keys == {"hp", "stam", "mana", "agi", "str", "magic"}
    ensures attr["hp"] == 10 && attr["stam"] == 10 && attr["mana"] == 10
    ensures attr["agi"] == 3 && attr["str"] == 3 && attr["magic"] == 3
  {
    map["hp" := 10, "stam" := 10, "mana" := 10, "agi" := 3, "str" := 3, "magic" := 3]
  }

  const WeightingKeys: set<string> := {"str", "agi", "int", "charm"}

  /** The order in which the attribute listing names the weighted keys. */
  const WeightingOrder: seq<string> := ["str", "agi", "int", "charm"]

  /** `get_weightings`: one row of weights per selection 1..4, nothing
      otherwise; its one caller passes the type selection. */
  function GetWeightings(raceSelected: int): (w: map<string, int>)
    ensures 1 <= raceSelected <= 4 ==> w.Keys == WeightingKeys
    ensures 1 <= raceSelected <= 4 ==> forall k :: k in w ==> 2 <= w[k] <= 5
    ensures raceSelected == 1 ==> w["str"] == 5 && w["agi"] == 2 && w["int"] == 3 && w["charm"] == 3
    ensures raceSelected == 2 ==> w["str"] == 3 && w["agi"] == 5 && w["int"] == 3 && w["charm"] == 2
    ensures raceSelected == 3 ==> w["str"] == 2 && w["agi"] == 2 && w["int"] == 4 && w["charm"] == 5
    ensures raceSelected == 4 ==> w["str"] == 3 && w["agi"] == 3 && w["int"] == 3 && w["charm"] == 3
    ensures !(1 <= raceSelected <= 4) ==> w == map[]
  {
    if raceSelected == 1 then map["str" := 5, "agi" := 2, "int" := 3, "charm" := 3]
    else if raceSelected == 2 then map["str" := 3, "agi" := 5, "int" := 3, "charm" := 2]
    else if raceSelected == 3 then map["str" := 2, "agi" := 2, "int" := 4, "charm" := 5]
    else if raceSelected == 4 then map["str" := 3, "agi" := 3, "int" := 3, "charm" := 3]
    else map[]
  }

  // ---------------------------------------------------------------------
  // Map updaters. The source changes the map behind a `&mut` reference;
  // here the updated map is returned.

  /** `update_attr`: sets `key` to `value`, inserting it if absent. */
  function UpdateAttr(attrs: map<string, int>, key: string, value: int): (r: map<string, int>)
    ensures r.Keys == attrs.Keys + {key} && r[key] == value
    ensures forall k :: k in attrs && k != key ==> r[k] == attrs[k]
  {
    attrs[key := value]
  }

  /** `update_info`: sets `key` to the trimmed `value`, inserting it if absent. */
  function UpdateInfo(info: map<string, string>, key: string, value: string): (r: map<string, string>)
    ensures r.Keys == info.Keys + {key} && r[key] == Trim(value)
    ensures forall k :: k in info && k != key ==> r[k] == info[k]
  {
    info[key := Trim(value)]
  }

  /** `update_multi`: every entry of `data` overrides `info` (untrimmed). */
  method UpdateMulti(info: map<string, string>, data: map<string, string>) returns (r: map<string, string>)
    ensures r.Keys == info.Keys + data.Keys
    ensures forall k :: k in data ==> r[k] == data[k]
    ensures forall k :: k in info && k !in data ==> r[k] == info[k]
  {
    r := info;
    var pending := data.Keys;
    while pending != {}
      invariant pending <= data.Keys
      invariant r.Keys == info.Keys + (data.Keys - pending)
      invariant forall k :: k in data && k !in pending ==> r[k] == data[k]
      invariant forall k :: k in info && k !in data ==> r[k] == info[k]
      decreases pending
    {
      var key :| key in pending;
      // Inserted when absent, overwritten when present.
      r := r[key := data[key]];
      pending := pending - {key};
    }
  }

  // ---------------------------------------------------------------------
  // Weighted attributes

  /** Rust's `/` on integers: the quotient truncated toward zero, so the
      remainder takes the sign of the dividend. */
  function TruncDiv(a: int, b: int): (q: int)
    requires b != 0
    ensures var m := if b < 0 then -b else b;
            var r := a - q * b;
            (a >= 0 ==> 0 <= r < m) && (a < 0 ==> -m < r <= 0)
  {
    var m := (if a < 0 then -a else a) / (if b < 0 then -b else b);
    if (a < 0) == (b < 0) then m else -m
  }

  /** `initialize_attr_with_bias`: walks the weights in an arbitrary order,
      drawing a random value per entry that only moves the running budget;
      what it stores for each key is that key's weight. `draw(lo, hi)` is the
      random generator's answer. */
  method InitializeAttrWithBias(maxPoints: int, weights: map<string, int>, draw: (int, int) -> int)
    returns (attrs: map<string, int>)
    requires |weights| > 0
    ensures attrs == weights
  {
    attrs := map[];
    var size := |weights|;
    var average := TruncDiv(maxPoints, size);
    var pointsLeft := maxPoints;
    var calculated := 0;
    var pending := weights.Keys;
    while pending != {}
      invariant pending <= weights.Keys
      invariant calculated + |pending| == size
      invariant attrs.Keys == weights.Keys - pending
      invariant forall k :: k in attrs ==> attrs[k] == weights[k]
      decreases pending
    {
      var attr :| attr in pending;
      var weight := weights[attr];
      average := TruncDiv(pointsLeft, size - calculated);
      var difference := weight - average;
      var val := draw(2, average) + difference;
      attrs := UpdateAttr(attrs, attr, weight);
      calculated := calculated + 1;
      pointsLeft := pointsLeft - val;
      pending := pending - {attr};
    }
  }

  // ---------------------------------------------------------------------
  // Input validation

  /** `is_input_valid`: the trimmed input parsed as an i32 (-1 when it does
      not parse) when that lies in [min, max], otherwise 0. */
  function IsInputValid(min: int, max: int, input: string): (r: int)
    ensures r == 0 || min <= r <= max
    ensures ParseI32(Trim(input)).Some? && min <= ParseI32(Trim(input)).value <= max
            ==> r == ParseI32(Trim(input)).value
    ensures ParseI32(Trim(input)).Some? && !(min <= ParseI32(Trim(input)).value <= max) ==> r == 0
    ensures ParseI32(Trim(input)).None? ==> r == if min <= -1 <= max then -1 else 0
  {
    var selection := match ParseI32(Trim(input))
      case Some(n) => n
      case None => -1;
    if min <= selection <= max then selection else 0
  }

  /** Typing the decimal form of an in-range number selects that number. */
  lemma SelectionRoundTrip(min: int, max: int, n: int)
    requires IsI32(n) && min <= n <= max
    ensures IsInputValid(min, max, IntToDecimal(n)) == n
  {
    TrimDecimal(n);
    ParseIntToDecimal(n);
  }

  /** The selection `is_string_valid` accepts: the trimmed input is one of
      the ':'-separated choices. */
  predicate InSelection(selection: string, input: string) {
    Trim(input) in Split(selection, ':')
  }

  /** `is_string_valid`: scans the choices until one equals the trimmed input. */
  method IsStringValid(selection: string, input: string) returns (valid: bool)
    ensures valid == InSelection(selection, input)
  {
    var parts := Split(selection, ':');
    valid := false;
    var i := 0;
    while i < |parts|
      invariant 0 <= i <= |parts|
      invariant Trim(input) !in parts[..i]
      decreases |parts| - i
    {
      if Trim(input) == parts[i] {
        valid := true;
        break;
      }
      i := i + 1;
    }
    assert !valid ==> parts[..i] == parts;
  }

  /** The pieces of a one-character string that is not the separator. */
  lemma SplitSingle(c: char, sep: char)
    requires c != sep
    ensures Split([c], sep) == [[c]]
  {
    assert [c][1..] == "";
    assert [c] + "" == [c];
  }

  lemma GenderChoices(input: string)
    ensures InSelection("m:f:u", input) <==> Trim(input) in {"m", "f", "u"}
  {
    SplitSingle('u', ':');
    assert ":u"[1..] == "u";
    assert Split(":u", ':') == ["", "u"];
    assert "f:u"[1..] == ":u" && ['f'] + "" == "f" && ["", "u"][1..] == ["u"];
    assert Split("f:u", ':') == ["f", "u"];
    assert ":f:u"[1..] == "f:u";
    assert Split(":f:u", ':') == ["", "f", "u"];
    assert "m:f:u"[1..] == ":f:u" && ['m'] + "" == "m" && ["", "f", "u"][1..] == ["f", "u"];
    assert Split("m:f:u", ':') == ["m", "f", "u"];
  }

  // ---------------------------------------------------------------------
  // The protocol

  /** The confirmation answer of character creation: `y` or `yes` once
      surrounding whitespace is trimmed (the logon helper `IsYes` is given an
      already trimmed command). */
  predicate SaysYes(input: string) { Trim(input) == "y" || Trim(input) == "yes" }

  /** The reply listing after a type is chosen: "key:value" for each key of
      `order` present in `attrs`, with nothing between entries. */
  function AttrListing(attrs: map<string, int>, order: seq<string>): string
    decreases |order|
  {
    if order == [] then ""
    else
      (if order[0] in attrs then order[0] + ":" + IntToDecimal(attrs[order[0]]) else "")
      + AttrListing(attrs, order[1..])
  }

  function Step(user: string, info: map<string, string>, attrs: map<string, int>,
                state: CreationState, msg: string, saved: seq<Character>): CreationStep
  {
    CreationStep(NewCreatorFromData(user, NewCharacterFromData(user, info, attrs), state, msg), saved)
  }

  /** `CharCreator::process_commands`: one turn of character creation. The
      next state starts out as New and stays New on every path that does not
      set it. */
  function ProcessCommands(cmd: string, data: CharCreator): (r: CreationStep)
    ensures r.creator.username == data.username && r.creator.character.username == data.username
    ensures NoExtras(r.creator.character)
    ensures |r.saved| <= 1
    ensures r.saved != [] <==> data.state == Selection && SaysYes(cmd)
    ensures r.saved != [] ==> r.saved[0] == r.creator.character
  {
    var info := data.character.info;
    var attrs := data.character.attr;
    var user := data.username;
    match data.state
    case New =>
      Step(user, info, attrs, Race, Messages.RaceSelection, [])
    case Race =>
      // Both accumulators are regenerated whatever the input.
      var selection := IsInputValid(1, 4, cmd);
      if selection > 0 then
        Step(user, UpdateInfo(InitializeInfo(), "race", IntToDecimal(selection)), InitializeAttr(),
             Gender, Messages.GenderSelection, [])
      else
        Step(user, InitializeInfo(), InitializeAttr(), New, "", [])
    case Gender =>
      if InSelection("m:f:u", cmd) then
        Step(user, UpdateInfo(info, "gender", cmd), attrs, Type, Messages.TypeSelection, [])
      else
        Step(user, info, attrs, New, Messages.GenderSelection, [])
    case Type =>
      var selection := IsInputValid(0, 4, cmd);
      if selection > 0 then
        // What `initialize_attr_with_bias(15, w)` stores is `w` itself
        // (see InitializeAttrWithBias).
        var generated := GetWeightings(selection);
        Step(user, UpdateInfo(info, "type", IntToDecimal(selection)), generated, Selection,
             Messages.AttrSelection + "\n" + AttrListing(generated, WeightingOrder), [])
      else
        Step(user, info, attrs, New, Messages.TypeSelection, [])
    case Selection =>
      if SaysYes(cmd) then
        Step(user, info, attrs, Done, Messages.Success, [NewCharacterFromData(user, info, attrs)])
      else
        Step(user, info, attrs, Type, Messages.TypeSelection, [])
    case Done =>
      Step(user, info, attrs, New, "", [])
  }

  // ---------------------------------------------------------------------
  // One lemma per row of the transition table.

  lemma NewAsksForRace(cmd: string, data: CharCreator)
    requires data.state == New
    ensures var r := ProcessCommands(cmd, data);
      && r.creator.state == Race && r.creator.returnMsg == Messages.RaceSelection
      && r.creator.character.info == data.character.info
      && r.creator.character.attr == data.character.attr
      && r.saved == []
  {
  }

  lemma RaceResetsAccumulators(cmd: string, data: CharCreator)
    requires data.state == Race
    ensures var r := ProcessCommands(cmd, data);
      var selection := IsInputValid(1, 4, cmd);
      && r.creator.character.attr == InitializeAttr()
      && r.saved == []
      && (1 <= selection <= 4 ==>
            && r.creator.state == Gender
            && r.creator.returnMsg == Messages.GenderSelection
            && r.creator.character.info == InitializeInfo()["race" := IntToDecimal(selection)])
      && (selection == 0 ==>
            && r.creator.state == New
            && r.creator.returnMsg == ""
            && r.creator.character.info == InitializeInfo())
  {
    TrimDecimal(IsInputValid(1, 4, cmd));
  }

  /** Typing 1, 2, 3 or 4 at race selection picks that race. */
  lemma RaceDigitSelects(n: int, data: CharCreator)
    requires data.state == Race && 1 <= n <= 4
    ensures var r := ProcessCommands(IntToDecimal(n), data);
      r.creator.state == Gender && r.creator.character.info["race"] == IntToDecimal(n)
  {
    SelectionRoundTrip(1, 4, n);
    TrimDecimal(n);
  }

  lemma GenderStoresChoice(cmd: string, data: CharCreator)
    requires data.state == Gender
    ensures var r := ProcessCommands(cmd, data);
      && r.saved == []
      && r.creator.character.attr == data.character.attr
      && (Trim(cmd) in {"m", "f", "u"} ==>
            && r.creator.state == Type
            && r.creator.returnMsg == Messages.TypeSelection
            && r.creator.character.info == data.character.info["gender" := Trim(cmd)])
      && (Trim(cmd) !in {"m", "f", "u"} ==>
            && r.creator.state == New
            && r.creator.returnMsg == Messages.GenderSelection
            && r.creator.character.info == data.character.info)
  {
    GenderChoices(cmd);
  }

  lemma TypeGeneratesAttributes(cmd: string, data: CharCreator)
    requires data.state == Type
    ensures var r := ProcessCommands(cmd, data);
      var selection := IsInputValid(0, 4, cmd);
      && r.saved == []
      && (1 <= selection <= 4 ==>
            && r.creator.state == Selection
            && r.creator.character.attr == GetWeightings(selection)
            && r.creator.character.attr.Keys == WeightingKeys
            && r.creator.character.info == data.character.info["type" := IntToDecimal(selection)])
      && (selection == 0 ==>
            && r.creator.state == New
            && r.creator.returnMsg == Messages.TypeSelection
            && r.creator.character.info == data.character.info
            && r.creator.character.attr == data.character.attr)
  {
    TrimDecimal(IsInputValid(0, 4, cmd));
  }

  lemma SelectionConfirms(cmd: string, data: CharCreator)
    requires data.state == Selection
    ensures var r := ProcessCommands(cmd, data);
      && r.creator.character.info == data.character.info
      && r.creator.character.attr == data.character.attr
      && (SaysYes(cmd) ==>
            && r.creator.state == Done
            && r.creator.returnMsg == Messages.Success
            && r.saved == [NewCharacterFromData(data.username, data.character.info, data.character.attr)])
      && (!SaysYes(cmd) ==>
            r.creator.state == Type && r.creator.returnMsg == Messages.TypeSelection && r.saved == [])
  {
  }

  lemma DoneFallsBackToNew(cmd: string, data: CharCreator)
    requires data.state == Done
    ensures var r := ProcessCommands(cmd, data);
      && r.creator.state == New && r.creator.returnMsg == ""
      && r.creator.character.info == data.character.info
      && r.creator.character.attr == data.character.attr
      && r.saved == []
  {
  }

  /** The whole happy path: a race number, a gender, a type number and a
      confirmation reach Done and save exactly one character, which carries
      the three choices and the type's weightings. */
  lemma CreationSavesOnce(user: string, race: int, gender: string, kind: int, confirm: string)
    requires 1 <= race <= 4 && Trim(gender) in {"m", "f", "u"} && 1 <= kind <= 4 && SaysYes(confirm)
    ensures var c0 := NewCreatorFromData(user, NewCharacter(), Race, "");
      var s1 := ProcessCommands(IntToDecimal(race), c0);
      var s2 := ProcessCommands(gender, s1.creator);
      var s3 := ProcessCommands(IntToDecimal(kind), s2.creator);
      var s4 := ProcessCommands(confirm, s3.creator);
      && s4.creator.state == Done
      && s4.creator.returnMsg == Messages.Success
      && s1.saved == [] && s2.saved == [] && s3.saved == []
      && s4.saved == [s4.creator.character]
      && s4.creator.character.info
         == InitializeInfo()["race" := IntToDecimal(race)]["gender" := Trim(gender)]["type" := IntToDecimal(kind)]
      && s4.creator.character.attr == GetWeightings(kind)
  {
    var c0 := NewCreatorFromData(user, NewCharacter(), Race, "");
    var i1 := InitializeInfo()["race" := IntToDecimal(race)];
    var i2 := i1["gender" := Trim(gender)];
    var i3 := i2["type" := IntToDecimal(kind)];
    var c1 := CharCreator(user, NewCharacterFromData(user, i1, InitializeAttr()), Gender, Messages.GenderSelection);
    RaceDigitSelects(race, c0);
    RaceResetsAccumulators(IntToDecimal(race), c0);
    assert ProcessCommands(IntToDecimal(race), c0) == CreationStep(c1, []);
    var c2 := CharCreator(user, NewCharacterFromData(user, i2, InitializeAttr()), Type, Messages.TypeSelection);
    GenderStoresChoice(gender, c1);
    assert ProcessCommands(gender, c1) == CreationStep(c2, []);
    SelectionRoundTrip(0, 4, kind);
    TypeGeneratesAttributes(IntToDecimal(kind), c2);
    var s3 := ProcessCommands(IntToDecimal(kind), c2);
    var c3 := CharCreator(user, NewCharacterFromData(user, i3, GetWeightings(kind)), Selection, s3.creator.returnMsg);
    assert s3 == CreationStep(c3, []);
    SelectionConfirms(confirm, c3);
  }
}
