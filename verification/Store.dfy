/** `store.rs`: the state file and how it is replaced. A file is seen as the store it
    parses to; `Torn` stands for any content that does not parse. */
module Store {
  import opened Wrappers
  import opened Permission

  datatype TokenRecord = TokenRecord(sha256: string, title: string, created: string)

  datatype Store = Store(users: seq<string>, tokens: seq<TokenRecord>, bindings: map<string, Binding>)

  const EMPTY: Store := Store([], [], map[])

  datatype File = Absent | Torn | Written(store: Store)

  /** A missing file is an empty store; one that does not parse is an error. */
  function Load(file: File): (r: Option<Store>) {
    match file
    case Absent => Some(EMPTY)
    case Torn => None
    case Written(store) => Some(store)
  }

  /** `hash` is SHA-256 in hexadecimal. */
  ghost predicate TokenOk(store: Store, hash: string -> string, raw: string) {
    exists i :: 0 <= i < |store.tokens| && store.tokens[i].sha256 == hash(raw)
  }

  method AcceptToken(store: Store, hash: string -> string, raw: string) returns (ok: bool)
    ensures ok <==> TokenOk(store, hash, raw)
  {
    var digest := hash(raw);
    for i := 0 to |store.tokens|
      invariant forall j :: 0 <= j < i ==> store.tokens[j].sha256 != digest
    {
      if store.tokens[i].sha256 == digest {
        return true;
      }
    }
    ok := false;
  }

  /** The first file operation that fails, if any. */
  datatype Outcome = OpenFails | WriteFails | SyncFails | RenameFails | Succeeds

  /** The state file and its `.tmp` neighbour. */
  class Disk {
    var main: File
    var tmp: File

    constructor (main: File)
      ensures this.main == main && tmp == Absent
    {
      this.main, tmp := main, Absent;
    }

    /** Write the neighbour, sync it, rename it over the file. The file itself changes
        in the last operation only, and then all at once. */
    method Save(store: Store, outcome: Outcome) returns (ok: bool)
      modifies this
      ensures ok <==> outcome == Succeeds
      ensures main == if ok then Written(store) else old(main)
      ensures ok ==> tmp == Absent && Load(main) == Some(store)
    {
      if outcome == OpenFails {
        return false;
      }
      tmp := Torn;
      if outcome == WriteFails {
        return false;
      }
      tmp := Written(store);
      if outcome == SyncFails || outcome == RenameFails {
        return false;
      }
      main, tmp := tmp, Absent;
      ok := true;
    }
  }

  /** `*store` behind its lock, with the two ways the relay updates it. */
  class Keeper {
    var mem: Store
    const disk: Disk

    constructor (disk: Disk, mem: Store)
      ensures this.disk == disk && this.mem == mem
    {
      this.disk, this.mem := disk, mem;
    }

    /** `commit`: saves first and assigns afterwards, so that a failure changes neither. */
    method Commit(change: Store -> Store, outcome: Outcome) returns (ok: bool)
      modifies this`mem, disk
      ensures ok <==> change(old(mem)) == old(mem) || outcome == Succeeds
      ensures mem == if ok then change(old(mem)) else old(mem)
      ensures disk.main == if ok && change(old(mem)) != old(mem) then Written(mem) else old(disk.main)
    {
      var next := change(mem);
      if next == mem {
        return true;
      }
      ok := disk.Save(next, outcome);
      if ok {
        mem := next;
      }
    }

    /** `unbind` and `interactions`: change memory first and save afterwards; a failure
        leaves memory ahead of the file. */
    method MutateAndSave(change: Store -> Store, outcome: Outcome) returns (ok: bool)
      modifies this`mem, disk
      ensures ok <==> outcome == Succeeds
      ensures mem == change(old(mem))
      ensures disk.main == if ok then Written(mem) else old(disk.main)
    {
      mem := change(mem);
      ok := disk.Save(mem, outcome);
    }
  }
}
