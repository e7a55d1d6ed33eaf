/** The record types of the player store and the single JSON file that holds
    them (models/player.go). The file is modelled as an abstract store object;
    reading it may fail, and writing it replaces it wholesale. */
module Models {
  import opened Wrappers

  /** The two opaque blobs a game client stores for a player. */
  datatype Inventory = Inventory(contents: string, armorContents: string)

  /** One record of the store. `inventory` is `None` exactly when the Go pointer
      is nil; an empty `Inventory("", "")` is present, not absent. */
  datatype Player = Player(
    uuid: string,
    playerRank: string,
    staffRank: string,
    inventory: Option<Inventory>)

  /** The flat view returned by the inventory lookup: the requested uuid and
      the two blobs. */
  datatype SandboxInventory = SandboxInventory(
    uuid: string,
    invContents: string,
    armorContents: string)

  /** Why a load or a save of the store failed. */
  datatype StoreError = ReadFailed | DecodeFailed | WriteFailed

  /** What `players.json` holds: nothing readable, text that is not a list of
      players, or a decoded list of records in file order. */
  datatype FileState = Unreadable | Undecodable | Stored(players: seq<Player>)

  /** What reading the whole store yields. */
  function Loaded(f: FileState): Result<seq<Player>, StoreError>
  {
    match f
    case Unreadable => Failure(ReadFailed)
    case Undecodable => Failure(DecodeFailed)
    case Stored(players) => Success(players)
  }

  /** The store after an attempt to overwrite it with `players`: the whole list
      when the write goes through, the previous contents otherwise. */
  function Saved(f: FileState, players: seq<Player>, writeOk: bool): FileState
  {
    if writeOk then Stored(players) else f
  }

  /** The error a save reports. */
  function SaveError(writeOk: bool): Option<StoreError>
  {
    if writeOk then None else Some(WriteFailed)
  }

  /** The shared `players.json` file. Every handler reads it afresh and, when it
      creates a record or overwrites a field, writes the whole list back, even
      when the new value equals the old one. */
  class PlayerStore {
    var file: FileState

    constructor (initial: FileState)
      ensures file == initial
    {
      file := initial;
    }

    /** LoadPlayers: all records in file order, or the read/decode error. */
    method Load() returns (r: Result<seq<Player>, StoreError>)
      ensures r == Loaded(file)
      ensures r.Success? <==> file.Stored?
      ensures r.Success? ==> r.value == file.players
    {
      match file
      case Unreadable => r := Failure(ReadFailed);
      case Undecodable => r := Failure(DecodeFailed);
      case Stored(players) => r := Success(players);
    }

    /** SavePlayers: replace the whole file with `players`, order preserved.
        `writeOk` is the outcome of the file write, decided by the environment. */
    method Save(players: seq<Player>, writeOk: bool) returns (err: Option<StoreError>)
      modifies this
      ensures err == SaveError(writeOk)
      ensures file == Saved(old(file), players, writeOk)
    {
      if writeOk {
        file := Stored(players);
        err := None;
      } else {
        err := Some(WriteFailed);
      }
    }
  }

  /** A load after a successful save returns exactly the list saved. */
  lemma LoadAfterSave(f: FileState, players: seq<Player>)
    ensures Loaded(Saved(f, players, true)) == Success(players)
  {
  }

  /** Saving what was just loaded leaves the store as it was, whether the
      write goes through or, as the model's failed write does, fails before
      it touches the file. */
  lemma SaveLoadedIsNoOp(f: FileState, writeOk: bool)
    requires Loaded(f).Success?
    ensures Saved(f, Loaded(f).value, writeOk) == f
  {
  }
}
