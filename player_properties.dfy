/** Properties of the player handlers, stated over their step functions:
    first-match lookup, get-or-create, single-field updates, the error paths,
    and the store invariants (one record per uuid, an inventory once present
    stays present) kept by any sequence of requests. */
module PlayerProperties {
  import opened Wrappers
  import opened Models
  import opened PlayerRoutes

  /** At most one record per uuid. */
  predicate UniqueIds(players: seq<Player>)
  {
    forall j, k :: 0 <= j < k < |players| ==> players[j].uuid != players[k].uuid
  }

  /** The store-wide invariant: a readable store holds each uuid at most once. */
  predicate StoreInvariant(f: FileState)
  {
    f.Stored? ==> UniqueIds(f.players)
  }

  /** `g` is a store `f` may become: unchanged, or the same records in the same
      places (possibly followed by new ones), none losing its uuid or its
      inventory. */
  predicate Evolves(f: FileState, g: FileState)
  {
    f == g ||
    (f.Stored? && g.Stored? && |f.players| <= |g.players| &&
     forall j :: 0 <= j < |f.players| ==>
       g.players[j].uuid == f.players[j].uuid &&
       (f.players[j].inventory.Some? ==> g.players[j].inventory.Some?))
  }

  // ---------------------------------------------------------------------
  // First-match lookup

  /** The lookup depends only on the uuids, so rewriting other fields of a
      record never changes which record a key finds. */
  lemma IndexOfSameIds(ps: seq<Player>, qs: seq<Player>, uuid: string)
    requires |ps| == |qs|
    requires forall j :: 0 <= j < |ps| ==> ps[j].uuid == qs[j].uuid
    ensures IndexOf(ps, uuid) == IndexOf(qs, uuid)
  {
  }

  /** Appending a record for a uuid not yet present makes it the one found. */
  lemma IndexOfAppendNew(ps: seq<Player>, p: Player)
    requires IndexOf(ps, p.uuid).None?
    ensures IndexOf(ps + [p], p.uuid) == Some(|ps|)
  {
    var qs := ps + [p];
    assert qs[|ps|].uuid == p.uuid;
  }

  /** With duplicate uuids, a record that has an earlier record with the same
      uuid is never the one found, so no handler reads or writes it. */
  lemma ShadowedNeverFound(ps: seq<Player>, j: nat, k: nat)
    requires j < k < |ps| && ps[j].uuid == ps[k].uuid
    ensures IndexOf(ps, ps[k].uuid).Some?
    ensures IndexOf(ps, ps[k].uuid).value <= j
  {
  }

  // ---------------------------------------------------------------------
  // GetPlayer

  /** A hit returns the stored record unchanged and writes nothing. */
  lemma GetPlayerHit(players: seq<Player>, uuid: string, writeOk: bool)
    requires IndexOf(players, uuid).Some?
    ensures GetPlayerStep(Stored(players), uuid, writeOk)
         == Step(Stored(players), Ok(PlayerJson(players[IndexOf(players, uuid).value])))
  {
  }

  /** A miss appends exactly one record, at the end, with both ranks
      "DEFAULT" and a present but empty inventory; earlier records keep their
      order and values; the record returned is the one appended, and it is
      the only record with that uuid. */
  lemma GetPlayerMiss(players: seq<Player>, uuid: string)
    requires IndexOf(players, uuid).None?
    ensures var r := GetPlayerStep(Stored(players), uuid, true);
      && r.file.Stored?
      && |r.file.players| == |players| + 1
      && r.file.players[..|players|] == players
      && r.file.players[|players|] == Player(uuid, "DEFAULT", "DEFAULT", Some(Inventory("", "")))
      && r.response == Ok(PlayerJson(r.file.players[|players|]))
      && (forall j :: 0 <= j < |r.file.players| ==> (r.file.players[j].uuid == uuid <==> j == |players|))
  {
  }

  /** A second GetPlayer after a successful one finds the same record and
      writes nothing, whatever the write would have done. */
  lemma GetPlayerIdempotent(f: FileState, uuid: string, writeOk1: bool, writeOk2: bool)
    requires GetPlayerStep(f, uuid, writeOk1).response.Ok?
    ensures var r1 := GetPlayerStep(f, uuid, writeOk1);
      GetPlayerStep(r1.file, uuid, writeOk2) == Step(r1.file, r1.response)
  {
    var players := f.players;
    if IndexOf(players, uuid).None? {
      IndexOfAppendNew(players, DefaultPlayer(uuid));
    }
  }

  // ---------------------------------------------------------------------
  // SetRank

  /** An unknown uuid is NotFound and leaves the store alone, whatever the
      payload: the lookup comes before the payload is decoded. */
  lemma SetRankUnknownUuid(players: seq<Player>, uuid: string, payload: Option<RankPayload>, writeOk: bool)
    requires IndexOf(players, uuid).None?
    ensures SetRankStep(Stored(players), uuid, payload, writeOk) == Step(Stored(players), NotFound)
  {
  }

  /** A hit with a decoded payload sets the playerRank of the first record for
      the uuid to the payload's rank, whatever string it is; every other field
      and every other record is unchanged, and the uuid still finds that
      record. */
  lemma SetRankChangesOnlyRank(players: seq<Player>, uuid: string, rank: string)
    requires IndexOf(players, uuid).Some?
    ensures var i := IndexOf(players, uuid).value;
      var r := SetRankStep(Stored(players), uuid, Some(RankPayload(rank)), true);
      && r.response == Ok(Message(RankUpdatedMsg))
      && r.file.Stored?
      && |r.file.players| == |players|
      && r.file.players[i] == Player(uuid, rank, players[i].staffRank, players[i].inventory)
      && (forall j :: 0 <= j < |players| && j != i ==> r.file.players[j] == players[j])
      && IndexOf(r.file.players, uuid) == Some(i)
  {
  }

  /** Setting the same rank twice leaves the store as setting it once. */
  lemma SetRankIdempotent(f: FileState, uuid: string, rank: string)
    ensures var once := SetRankStep(f, uuid, Some(RankPayload(rank)), true).file;
      SetRankStep(once, uuid, Some(RankPayload(rank)), true).file == once
  {
    var once := SetRankStep(f, uuid, Some(RankPayload(rank)), true).file;
    if f.Stored? && IndexOf(f.players, uuid).Some? {
      var i := IndexOf(f.players, uuid).value;
      IndexOfSameIds(f.players, once.players, uuid);
      assert once.players[i := once.players[i].(playerRank := rank)] == once.players;
    }
  }

  // ---------------------------------------------------------------------
  // GetInvContents

  /** A hit returns the uuid asked for with the record's two blobs, or two
      empty blobs when the record has no inventory; the store is only read. */
  lemma InventoryResponseHit(players: seq<Player>, uuid: string)
    requires IndexOf(players, uuid).Some?
    ensures var p := players[IndexOf(players, uuid).value];
      InventoryResponse(Stored(players), uuid) == Ok(InventoryJson(
        if p.inventory.Some?
        then SandboxInventory(uuid, p.inventory.value.contents, p.inventory.value.armorContents)
        else SandboxInventory(uuid, "", "")))
  {
  }

  // ---------------------------------------------------------------------
  // SetInvContents and SetArmorContents

  /** A hit on a record whose inventory is nil panics before anything is
      saved. */
  lemma SetContentsNilInventory(players: seq<Player>, uuid: string, fields: map<string, string>, writeOk: bool)
    requires IndexOf(players, uuid).Some?
    requires players[IndexOf(players, uuid).value].inventory.None?
    ensures SetInvContentsStep(Stored(players), uuid, Some(fields), writeOk) == Step(Stored(players), NilDereference)
    ensures SetArmorContentsStep(Stored(players), uuid, Some(fields), writeOk) == Step(Stored(players), NilDereference)
  {
  }

  /** An undecodable payload is BadRequest before the store is even read,
      for unknown uuids and unreadable stores alike. */
  lemma SetContentsBadPayload(f: FileState, uuid: string, writeOk: bool)
    ensures SetInvContentsStep(f, uuid, None, writeOk) == Step(f, BadRequest)
    ensures SetArmorContentsStep(f, uuid, None, writeOk) == Step(f, BadRequest)
  {
  }

  /** SetInvContents changes only Inventory.Contents of the first record for
      the uuid, to the payload's "invContents" (empty when the key is
      missing). */
  lemma SetInvContentsChangesOnlyContents(players: seq<Player>, uuid: string, fields: map<string, string>)
    requires IndexOf(players, uuid).Some?
    requires players[IndexOf(players, uuid).value].inventory.Some?
    ensures var i := IndexOf(players, uuid).value;
      var inv := players[i].inventory.value;
      var r := SetInvContentsStep(Stored(players), uuid, Some(fields), true);
      && r.response == Ok(Message(InvUpdatedMsg))
      && r.file.Stored?
      && |r.file.players| == |players|
      && r.file.players[i] == players[i].(inventory := Some(Inventory(
           if "invContents" in fields then fields["invContents"] else "", inv.armorContents)))
      && (forall j :: 0 <= j < |players| && j != i ==> r.file.players[j] == players[j])
  {
  }

  /** SetArmorContents changes only Inventory.ArmorContents of the first
      record for the uuid, to the payload's "armorContents" (empty when the
      key is missing). */
  lemma SetArmorContentsChangesOnlyArmor(players: seq<Player>, uuid: string, fields: map<string, string>)
    requires IndexOf(players, uuid).Some?
    requires players[IndexOf(players, uuid).value].inventory.Some?
    ensures var i := IndexOf(players, uuid).value;
      var inv := players[i].inventory.value;
      var r := SetArmorContentsStep(Stored(players), uuid, Some(fields), true);
      && r.response == Ok(Message(ArmorUpdatedMsg))
      && r.file.Stored?
      && |r.file.players| == |players|
      && r.file.players[i] == players[i].(inventory := Some(Inventory(
           inv.contents, if "armorContents" in fields then fields["armorContents"] else "")))
      && (forall j :: 0 <= j < |players| && j != i ==> r.file.players[j] == players[j])
  {
  }

  /** After a successful SetInvContents, GetInvContents returns the blob just
      written and the armor blob it returned before. */
  lemma SetInvContentsThenGet(f: FileState, uuid: string, fields: map<string, string>, writeOk: bool)
    requires SetInvContentsStep(f, uuid, Some(fields), writeOk).response.Ok?
    ensures var after := SetInvContentsStep(f, uuid, Some(fields), writeOk).file;
      InventoryResponse(after, uuid) == Ok(InventoryJson(SandboxInventory(
        uuid, PayloadField(fields, "invContents"), InventoryResponse(f, uuid).body.view.armorContents)))
  {
    var after := SetInvContentsStep(f, uuid, Some(fields), writeOk).file;
    IndexOfSameIds(f.players, after.players, uuid);
  }

  /** After a successful SetArmorContents, GetInvContents returns the blob
      just written and the contents blob it returned before. */
  lemma SetArmorContentsThenGet(f: FileState, uuid: string, fields: map<string, string>, writeOk: bool)
    requires SetArmorContentsStep(f, uuid, Some(fields), writeOk).response.Ok?
    ensures var after := SetArmorContentsStep(f, uuid, Some(fields), writeOk).file;
      InventoryResponse(after, uuid) == Ok(InventoryJson(SandboxInventory(
        uuid, InventoryResponse(f, uuid).body.view.invContents, PayloadField(fields, "armorContents"))))
  {
    var after := SetArmorContentsStep(f, uuid, Some(fields), writeOk).file;
    IndexOfSameIds(f.players, after.players, uuid);
  }

  /** The store after a successful contents write and a successful armor write
      to the first record for `uuid`, in either order. */
  function BothWritten(players: seq<Player>, i: nat, inv: map<string, string>, armor: map<string, string>): seq<Player>
    requires i < |players|
  {
    players[i := players[i].(inventory := Some(Inventory(
      PayloadField(inv, "invContents"), PayloadField(armor, "armorContents"))))]
  }

  /** Contents first, then armor. */
  lemma ArmorAfterContents(players: seq<Player>, uuid: string, inv: map<string, string>, armor: map<string, string>)
    requires IndexOf(players, uuid).Some?
    requires players[IndexOf(players, uuid).value].inventory.Some?
    ensures SetArmorContentsStep(SetInvContentsStep(Stored(players), uuid, Some(inv), true).file, uuid, Some(armor), true).file
         == Stored(BothWritten(players, IndexOf(players, uuid).value, inv, armor))
  {
    var i := IndexOf(players, uuid).value;
    var before := players[i].inventory.value;
    var mid := players[i := players[i].(inventory := Some(before.(contents := PayloadField(inv, "invContents"))))];
    assert SetInvContentsStep(Stored(players), uuid, Some(inv), true).file == Stored(mid);
    IndexOfSameIds(players, mid, uuid);
    assert mid[i := mid[i].(inventory := Some(mid[i].inventory.value.(armorContents := PayloadField(armor, "armorContents"))))]
        == BothWritten(players, i, inv, armor);
  }

  /** Armor first, then contents. */
  lemma ContentsAfterArmor(players: seq<Player>, uuid: string, inv: map<string, string>, armor: map<string, string>)
    requires IndexOf(players, uuid).Some?
    requires players[IndexOf(players, uuid).value].inventory.Some?
    ensures SetInvContentsStep(SetArmorContentsStep(Stored(players), uuid, Some(armor), true).file, uuid, Some(inv), true).file
         == Stored(BothWritten(players, IndexOf(players, uuid).value, inv, armor))
  {
    var i := IndexOf(players, uuid).value;
    var before := players[i].inventory.value;
    var mid := players[i := players[i].(inventory := Some(before.(armorContents := PayloadField(armor, "armorContents"))))];
    assert SetArmorContentsStep(Stored(players), uuid, Some(armor), true).file == Stored(mid);
    IndexOfSameIds(players, mid, uuid);
    assert mid[i := mid[i].(inventory := Some(mid[i].inventory.value.(contents := PayloadField(inv, "invContents"))))]
        == BothWritten(players, i, inv, armor);
  }

  /** The two inventory writes touch disjoint fields, so their order does not
      matter to the final store. */
  lemma InventoryWritesCommute(f: FileState, uuid: string, inv: map<string, string>, armor: map<string, string>)
    ensures SetArmorContentsStep(SetInvContentsStep(f, uuid, Some(inv), true).file, uuid, Some(armor), true).file
         == SetInvContentsStep(SetArmorContentsStep(f, uuid, Some(armor), true).file, uuid, Some(inv), true).file
  {
    if f.Stored? && IndexOf(f.players, uuid).Some? && f.players[IndexOf(f.players, uuid).value].inventory.Some? {
      ArmorAfterContents(f.players, uuid, inv, armor);
      ContentsAfterArmor(f.players, uuid, inv, armor);
    }
  }

  // ---------------------------------------------------------------------
  // Any sequence of requests

  /** A request to one of the five handlers, with its decoded parameters. */
  datatype Request =
    | GetPlayerRequest(uuid: string)
    | SetRankRequest(uuid: string, rankPayload: Option<RankPayload>)
    | GetInvContentsRequest(uuid: string)
    | SetInvContentsRequest(uuid: string, fields: Option<map<string, string>>)
    | SetArmorContentsRequest(uuid: string, fields: Option<map<string, string>>)

  /** A request together with the outcome of the write it may attempt. */
  datatype Call = Call(request: Request, writeOk: bool)

  /** One request, handled as one transaction. */
  function Handle(f: FileState, c: Call): Step
  {
    match c.request
    case GetPlayerRequest(uuid) => GetPlayerStep(f, uuid, c.writeOk)
    case SetRankRequest(uuid, p) => SetRankStep(f, uuid, p, c.writeOk)
    case GetInvContentsRequest(uuid) => Step(f, InventoryResponse(f, uuid))
    case SetInvContentsRequest(uuid, p) => SetInvContentsStep(f, uuid, p, c.writeOk)
    case SetArmorContentsRequest(uuid, p) => SetArmorContentsStep(f, uuid, p, c.writeOk)
  }

  /** Whether handling `req` against `f` gets as far as saving the store. */
  predicate ReachesSave(f: FileState, req: Request)
  {
    f.Stored? &&
    match req
    case GetPlayerRequest(uuid) => IndexOf(f.players, uuid).None?
    case SetRankRequest(uuid, p) => IndexOf(f.players, uuid).Some? && p.Some?
    case GetInvContentsRequest(_) => false
    case SetInvContentsRequest(uuid, p) =>
      p.Some? && IndexOf(f.players, uuid).Some? && f.players[IndexOf(f.players, uuid).value].inventory.Some?
    case SetArmorContentsRequest(uuid, p) =>
      p.Some? && IndexOf(f.players, uuid).Some? && f.players[IndexOf(f.players, uuid).value].inventory.Some?
  }

  /** Whether the request's payload is decoded before the store is loaded and
      failed to decode. */
  predicate BadPayloadFirst(req: Request)
  {
    (req.SetInvContentsRequest? || req.SetArmorContentsRequest?) && req.fields.None?
  }

  /** The error message a handler sends when its save fails. */
  function SaveFailureMessage(req: Request): string
  {
    if req.SetInvContentsRequest? || req.SetArmorContentsRequest? then UpdateFailedMsg else SaveFailedMsg
  }

  /** An unreadable or undecodable store makes every handler answer with the
      load error and change nothing, except an inventory writer whose payload
      already failed to decode, which answers BadRequest. */
  lemma LoadFailureIsServerError(f: FileState, c: Call)
    requires !f.Stored?
    ensures Handle(f, c) == Step(f, if BadPayloadFirst(c.request) then BadRequest else ServerError(LoadFailedMsg))
    ensures ErrorMessage(Handle(f, c).response) ==
      Some(if BadPayloadFirst(c.request) then "Invalid request payload" else "Failed to load player data")
  {
  }

  /** Under the model's failed write, which fails before it touches the file,
      a failed write is never reported as success: a handler that reaches the
      save answers with its save error and leaves the store as it was; one that
      does not reach it behaves as if the write would have succeeded. */
  lemma FailedWriteIsServerError(f: FileState, c: Call)
    requires !c.writeOk
    ensures Handle(f, c).file == f
    ensures ReachesSave(f, c.request) ==> Handle(f, c) == Step(f, ServerError(SaveFailureMessage(c.request)))
    ensures !ReachesSave(f, c.request) ==> Handle(f, c) == Handle(f, c.(writeOk := true))
  {
  }

  /** A handler that reaches a successful save answers 200. */
  lemma SuccessfulWriteIsOk(f: FileState, c: Call)
    requires c.writeOk && ReachesSave(f, c.request)
    ensures Handle(f, c).response.Ok?
  {
  }

  /** A uuid that no record has is NotFound for every handler except
      GetPlayer (which creates it), and the store is unchanged; an inventory
      writer must first have decoded its payload. */
  lemma MissIsNotFound(players: seq<Player>, c: Call)
    requires !c.request.GetPlayerRequest? && !BadPayloadFirst(c.request)
    requires IndexOf(players, c.request.uuid).None?
    ensures Handle(Stored(players), c) == Step(Stored(players), NotFound)
    ensures ErrorMessage(Handle(Stored(players), c).response) == Some("Player not found")
  {
  }

  /** In the model, where a failed write fails before it touches the file,
      only a 200 response can come with a changed store: a client error (400,
      404) or a server error (500) never leaves a partial update behind. */
  lemma FailedRequestLeavesStore(f: FileState, c: Call)
    ensures StatusCode(Handle(f, c).response) != 200 ==> Handle(f, c).file == f
    ensures ErrorMessage(Handle(f, c).response).None? <==>
      Handle(f, c).response.Ok? || Handle(f, c).response == NilDereference
  {
  }

  /** The store after handling `calls` one after the other. */
  function Run(f: FileState, calls: seq<Call>): FileState
    decreases |calls|
  {
    if calls == [] then f else Run(Handle(f, calls[0]).file, calls[1..])
  }

  /** Every handler keeps one record per uuid, keeps each record at its
      place with its uuid, and never drops an inventory. */
  lemma HandlePreservesInvariants(f: FileState, c: Call)
    requires StoreInvariant(f)
    ensures StoreInvariant(Handle(f, c).file)
    ensures Evolves(f, Handle(f, c).file)
  {
    var g := Handle(f, c).file;
    if g != f {
      var ps := f.players;
      if c.request.GetPlayerRequest? {
        GetPlayerMiss(ps, c.request.uuid);
      } else {
        assert |g.players| == |ps|;
        assert forall j :: 0 <= j < |ps| ==> g.players[j].uuid == ps[j].uuid;
      }
    }
  }

  /** Any sequence of requests keeps the store invariants. */
  lemma {:induction false} RunPreservesInvariants(f: FileState, calls: seq<Call>)
    requires StoreInvariant(f)
    ensures StoreInvariant(Run(f, calls))
    ensures Evolves(f, Run(f, calls))
    decreases |calls|
  {
    if calls != [] {
      var g := Handle(f, calls[0]).file;
      HandlePreservesInvariants(f, calls[0]);
      RunPreservesInvariants(g, calls[1..]);
    }
  }
}
