/** The five player handlers of routes/player_routes.go. Each is one
    sequential load / first-match scan / act / save transaction over the
    store. Every handler is given twice: as a pure step function from the
    store before the request to the store after it and the response, and as
    an imperative method over a `PlayerStore` proved to perform that step. */
module PlayerRoutes {
  import opened Wrappers
  import opened Models

  const LoadFailedMsg := "Failed to load player data"
  const SaveFailedMsg := "Failed to save player data"
  const UpdateFailedMsg := "Failed to update player data"
  const RankUpdatedMsg := "Player rank updated successfully"
  const InvUpdatedMsg := "Inventory contents updated successfully"
  const ArmorUpdatedMsg := "Armor contents updated successfully"

  /** The JSON body of a successful response. */
  datatype Body =
    | PlayerJson(player: Player)
    | InventoryJson(view: SandboxInventory)
    | Message(text: string)

  /** The outcome of one request. `NilDereference` is the panic raised when a
      handler writes through a nil inventory pointer; the recovery middleware
      turns it into a 500 and nothing is saved. The error text of `NotFound`
      and `BadRequest` is fixed (see `ErrorMessage`); that of `ServerError`
      depends on the step that failed. */
  datatype Response =
    | Ok(body: Body)
    | NotFound
    | BadRequest
    | ServerError(error: string)
    | NilDereference

  /** The HTTP status the response is sent with. */
  function StatusCode(r: Response): int
  {
    match r
    case Ok(_) => 200
    case BadRequest => 400
    case NotFound => 404
    case ServerError(_) => 500
    case NilDereference => 500
  }

  const NotFoundMsg := "Player not found"
  const InvalidPayloadMsg := "Invalid request payload"

  /** The "error" field of the JSON body an error response carries; the
      recovery middleware sends a panic with no body at all. */
  function ErrorMessage(r: Response): Option<string>
  {
    match r
    case Ok(_) => None
    case NotFound => Some(NotFoundMsg)
    case BadRequest => Some(InvalidPayloadMsg)
    case ServerError(error) => Some(error)
    case NilDereference => None
  }

  /** The decoded body of a set-rank request. A body without a "rank" key
      decodes to the empty rank. */
  datatype RankPayload = RankPayload(rank: string)

  /** One handler run: the store afterwards and the response sent. */
  datatype Step = Step(file: FileState, response: Response)

  /** The index of the first record whose uuid is `uuid`, if any. */
  function IndexOf(players: seq<Player>, uuid: string): (r: Option<nat>)
    ensures r.Some? ==> r.value < |players| && players[r.value].uuid == uuid
    ensures r.Some? ==> forall j :: 0 <= j < r.value ==> players[j].uuid != uuid
    ensures r.None? <==> forall j :: 0 <= j < |players| ==> players[j].uuid != uuid
  {
    if players == [] then None
    else if players[0].uuid == uuid then Some(0)
    else match IndexOf(players[1..], uuid)
      case None => None
      case Some(i) => Some(i + 1)
  }

  /** The scan every handler runs: walk the records in order and stop at the
      first one whose uuid matches. */
  method FindPlayer(players: seq<Player>, uuid: string) returns (found: Option<nat>)
    ensures found.Some? ==> found.value < |players| && players[found.value].uuid == uuid
    ensures found.Some? ==> forall j :: 0 <= j < found.value ==> players[j].uuid != uuid
    ensures found.None? ==> forall j :: 0 <= j < |players| ==> players[j].uuid != uuid
    ensures found == IndexOf(players, uuid)
  {
    found := None;
    var i := 0;
    while i < |players|
      invariant 0 <= i <= |players|
      invariant found == None
      invariant forall j :: 0 <= j < i ==> players[j].uuid != uuid
    {
      if players[i].uuid == uuid {
        found := Some(i);
        break;
      }
      i := i + 1;
    }
  }

  /** The record created for an unknown uuid. */
  function DefaultPlayer(uuid: string): Player
  {
    Player(uuid, "DEFAULT", "DEFAULT", Some(Inventory("", "")))
  }

  /** A value of a decoded `map[string]string` payload; a missing key reads as
      the empty string. */
  function PayloadField(payload: map<string, string>, key: string): string
  {
    if key in payload then payload[key] else ""
  }

  /** The inventory view of a record found under `uuid`. */
  function InventoryOf(uuid: string, inventory: Option<Inventory>): SandboxInventory
  {
    match inventory
    case None => SandboxInventory(uuid, "", "")
    case Some(inv) => SandboxInventory(uuid, inv.contents, inv.armorContents)
  }

  // ---------------------------------------------------------------------
  // The handlers as step functions

  /** GetPlayer: return the first record for `uuid`, creating, appending and
      saving a default one when there is none. */
  function GetPlayerStep(f: FileState, uuid: string, writeOk: bool): (r: Step)
    ensures r.response.Ok? ==> r.response.body.PlayerJson? && r.response.body.player.uuid == uuid
    ensures !r.response.Ok? ==> r.file == f
    ensures r.file != f ==> f.Stored? && r.file == Stored(f.players + [DefaultPlayer(uuid)])
    ensures !f.Stored? ==> r == Step(f, ServerError(LoadFailedMsg))
    ensures f.Stored? ==> (r.response.Ok? <==> writeOk || IndexOf(f.players, uuid).Some?)
    ensures f.Stored? && IndexOf(f.players, uuid).None? && !writeOk ==> r == Step(f, ServerError(SaveFailedMsg))
  {
    match Loaded(f)
    case Failure(_) => Step(f, ServerError(LoadFailedMsg))
    case Success(players) =>
      match IndexOf(players, uuid)
      case Some(i) => Step(f, Ok(PlayerJson(players[i])))
      case None =>
        var created := DefaultPlayer(uuid);
        var after := Saved(f, players + [created], writeOk);
        if SaveError(writeOk).Some? then Step(after, ServerError(SaveFailedMsg))
        else Step(after, Ok(PlayerJson(created)))
  }

  /** SetRank: overwrite the playerRank of the first record for `uuid`. The
      record is looked up before the payload is decoded. */
  function SetRankStep(f: FileState, uuid: string, payload: Option<RankPayload>, writeOk: bool): (r: Step)
    ensures !r.response.Ok? ==> r.file == f
    ensures r.response.Ok? ==> r.response == Ok(Message(RankUpdatedMsg)) && payload.Some?
    ensures r.response == BadRequest ==> f.Stored? && IndexOf(f.players, uuid).Some?
    ensures !f.Stored? ==> r == Step(f, ServerError(LoadFailedMsg))
    ensures f.Stored? && IndexOf(f.players, uuid).None? ==> r == Step(f, NotFound)
    ensures f.Stored? && IndexOf(f.players, uuid).Some? && payload.None? ==> r == Step(f, BadRequest)
    ensures f.Stored? && IndexOf(f.players, uuid).Some? && payload.Some? ==>
      (r.response.Ok? <==> writeOk) && (!writeOk ==> r == Step(f, ServerError(SaveFailedMsg)))
  {
    match Loaded(f)
    case Failure(_) => Step(f, ServerError(LoadFailedMsg))
    case Success(players) =>
      match IndexOf(players, uuid)
      case None => Step(f, NotFound)
      case Some(i) =>
        match payload
        case None => Step(f, BadRequest)
        case Some(p) =>
          var updated := players[i := players[i].(playerRank := p.rank)];
          var after := Saved(f, updated, writeOk);
          if SaveError(writeOk).Some? then Step(after, ServerError(SaveFailedMsg))
          else Step(after, Ok(Message(RankUpdatedMsg)))
  }

  /** GetInvContents: the inventory view of the first record for `uuid`. An
      absent inventory yields empty blobs. The store is only read. */
  function InventoryResponse(f: FileState, uuid: string): (r: Response)
    ensures r.Ok? ==> r.body.InventoryJson? && r.body.view.uuid == uuid
    ensures r.Ok? <==> f.Stored? && IndexOf(f.players, uuid).Some?
    ensures !f.Stored? ==> r == ServerError(LoadFailedMsg)
    ensures f.Stored? && IndexOf(f.players, uuid).None? ==> r == NotFound
  {
    match Loaded(f)
    case Failure(_) => ServerError(LoadFailedMsg)
    case Success(players) =>
      match IndexOf(players, uuid)
      case None => NotFound
      case Some(i) => Ok(InventoryJson(InventoryOf(uuid, players[i].inventory)))
  }

  /** SetInvContents: overwrite Inventory.Contents of the first record for
      `uuid` with the payload's "invContents". The payload is decoded before
      the store is loaded; the inventory pointer is not checked for nil. */
  function SetInvContentsStep(f: FileState, uuid: string, payload: Option<map<string, string>>, writeOk: bool): (r: Step)
    ensures !r.response.Ok? ==> r.file == f
    ensures payload.None? ==> r.response == BadRequest
    ensures r.response == NilDereference <==>
      payload.Some? && f.Stored? && IndexOf(f.players, uuid).Some? &&
      f.players[IndexOf(f.players, uuid).value].inventory.None?
    ensures payload.Some? && !f.Stored? ==> r == Step(f, ServerError(LoadFailedMsg))
    ensures payload.Some? && f.Stored? && IndexOf(f.players, uuid).None? ==> r == Step(f, NotFound)
    ensures payload.Some? && f.Stored? && IndexOf(f.players, uuid).Some? &&
            f.players[IndexOf(f.players, uuid).value].inventory.Some? ==>
      (r.response.Ok? <==> writeOk) && (!writeOk ==> r == Step(f, ServerError(UpdateFailedMsg)))
  {
    match payload
    case None => Step(f, BadRequest)
    case Some(fields) =>
      match Loaded(f)
      case Failure(_) => Step(f, ServerError(LoadFailedMsg))
      case Success(players) =>
        match IndexOf(players, uuid)
        case None => Step(f, NotFound)
        case Some(i) =>
          match players[i].inventory
          case None => Step(f, NilDereference)
          case Some(inv) =>
            var written := inv.(contents := PayloadField(fields, "invContents"));
            var updated := players[i := players[i].(inventory := Some(written))];
            var after := Saved(f, updated, writeOk);
            if SaveError(writeOk).Some? then Step(after, ServerError(UpdateFailedMsg))
            else Step(after, Ok(Message(InvUpdatedMsg)))
  }

  /** SetArmorContents: as SetInvContents, for Inventory.ArmorContents and the
      payload's "armorContents". */
  function SetArmorContentsStep(f: FileState, uuid: string, payload: Option<map<string, string>>, writeOk: bool): (r: Step)
    ensures !r.response.Ok? ==> r.file == f
    ensures payload.None? ==> r.response == BadRequest
    ensures r.response == NilDereference <==>
      payload.Some? && f.Stored? && IndexOf(f.players, uuid).Some? &&
      f.players[IndexOf(f.players, uuid).value].inventory.None?
    ensures payload.Some? && !f.Stored? ==> r == Step(f, ServerError(LoadFailedMsg))
    ensures payload.Some? && f.Stored? && IndexOf(f.players, uuid).None? ==> r == Step(f, NotFound)
    ensures payload.Some? && f.Stored? && IndexOf(f.players, uuid).Some? &&
            f.players[IndexOf(f.players, uuid).value].inventory.Some? ==>
      (r.response.Ok? <==> writeOk) && (!writeOk ==> r == Step(f, ServerError(UpdateFailedMsg)))
  {
    match payload
    case None => Step(f, BadRequest)
    case Some(fields) =>
      match Loaded(f)
      case Failure(_) => Step(f, ServerError(LoadFailedMsg))
      case Success(players) =>
        match IndexOf(players, uuid)
        case None => Step(f, NotFound)
        case Some(i) =>
          match players[i].inventory
          case None => Step(f, NilDereference)
          case Some(inv) =>
            var written := inv.(armorContents := PayloadField(fields, "armorContents"));
            var updated := players[i := players[i].(inventory := Some(written))];
            var after := Saved(f, updated, writeOk);
            if SaveError(writeOk).Some? then Step(after, ServerError(UpdateFailedMsg))
            else Step(after, Ok(Message(ArmorUpdatedMsg)))
  }

  // ---------------------------------------------------------------------
  // The handlers as methods over the store

  method GetPlayer(store: PlayerStore, uuid: string, writeOk: bool) returns (resp: Response)
    modifies store
    ensures Step(store.file, resp) == GetPlayerStep(old(store.file), uuid, writeOk)
  {
    var loaded := store.Load();
    if loaded.Failure? {
      return ServerError(LoadFailedMsg);
    }
    var players := loaded.value;
    var found := FindPlayer(players, uuid);
    if found.None? {
      var created := DefaultPlayer(uuid);
      players := players + [created];
      var err := store.Save(players, writeOk);
      if err.Some? {
        return ServerError(SaveFailedMsg);
      }
      return Ok(PlayerJson(created));
    }
    resp := Ok(PlayerJson(players[found.value]));
  }

  method SetRank(store: PlayerStore, uuid: string, payload: Option<RankPayload>, writeOk: bool) returns (resp: Response)
    modifies store
    ensures Step(store.file, resp) == SetRankStep(old(store.file), uuid, payload, writeOk)
  {
    var loaded := store.Load();
    if loaded.Failure? {
      return ServerError(LoadFailedMsg);
    }
    var players := loaded.value;
    var found := FindPlayer(players, uuid);
    if found.None? {
      return NotFound;
    }
    if payload.None? {
      return BadRequest;
    }
    var i := found.value;
    players := players[i := players[i].(playerRank := payload.value.rank)];
    var err := store.Save(players, writeOk);
    if err.Some? {
      return ServerError(SaveFailedMsg);
    }
    resp := Ok(Message(RankUpdatedMsg));
  }

  /** Reads the store and changes nothing. */
  method GetInvContents(store: PlayerStore, uuid: string) returns (resp: Response)
    ensures resp == InventoryResponse(store.file, uuid)
    ensures resp.Ok? ==> resp.body.InventoryJson? && resp.body.view.uuid == uuid
  {
    var loaded := store.Load();
    if loaded.Failure? {
      return ServerError(LoadFailedMsg);
    }
    var players := loaded.value;
    var found := FindPlayer(players, uuid);
    if found.None? {
      return NotFound;
    }
    var view := SandboxInventory(uuid, "", "");
    var inventory := players[found.value].inventory;
    if inventory.Some? {
      view := view.(invContents := inventory.value.contents,
                    armorContents := inventory.value.armorContents);
    }
    resp := Ok(InventoryJson(view));
  }

  method SetInvContents(store: PlayerStore, uuid: string, payload: Option<map<string, string>>, writeOk: bool) returns (resp: Response)
    modifies store
    ensures Step(store.file, resp) == SetInvContentsStep(old(store.file), uuid, payload, writeOk)
  {
    if payload.None? {
      return BadRequest;
    }
    var loaded := store.Load();
    if loaded.Failure? {
      return ServerError(LoadFailedMsg);
    }
    var players := loaded.value;
    var found := FindPlayer(players, uuid);
    if found.None? {
      return NotFound;
    }
    var i := found.value;
    var inventory := players[i].inventory;
    if inventory.None? {
      return NilDereference;
    }
    var written := inventory.value.(contents := PayloadField(payload.value, "invContents"));
    players := players[i := players[i].(inventory := Some(written))];
    var err := store.Save(players, writeOk);
    if err.Some? {
      return ServerError(UpdateFailedMsg);
    }
    resp := Ok(Message(InvUpdatedMsg));
  }

  method SetArmorContents(store: PlayerStore, uuid: string, payload: Option<map<string, string>>, writeOk: bool) returns (resp: Response)
    modifies store
    ensures Step(store.file, resp) == SetArmorContentsStep(old(store.file), uuid, payload, writeOk)
  {
    if payload.None? {
      return BadRequest;
    }
    var loaded := store.Load();
    if loaded.Failure? {
      return ServerError(LoadFailedMsg);
    }
    var players := loaded.value;
    var found := FindPlayer(players, uuid);
    if found.None? {
      return NotFound;
    }
    var i := found.value;
    var inventory := players[i].inventory;
    if inventory.None? {
      return NilDereference;
    }
    var written := inventory.value.(armorContents := PayloadField(payload.value, "armorContents"));
    players := players[i := players[i].(inventory := Some(written))];
    var err := store.Save(players, writeOk);
    if err.Some? {
      return ServerError(UpdateFailedMsg);
    }
    resp := Ok(Message(ArmorUpdatedMsg));
  }
}
