/** The persistent key/value store of kv.go.

    A `Store` keeps a map from string keys to encoded values (raw JSON) and
    mirrors the whole map to one file after every change. The file is written
    to a temporary file beside the target, which is then renamed over it.
    The JSON library is not modelled: callers pass a `Codec`, an encoder and a
    decoder that may fail, and the round trip is the hypothesis `Faithful`.
    The file system is modelled by two fields of the store: what the target
    file holds and what the temporary file holds. Which step of a write
    fails, if any, is a parameter. */
module Kv {

  newtype Byte = b: int | 0 <= b < 256

  /** An encoded value as the map keeps it (a json.RawMessage). */
  type Raw = seq<Byte>

  datatype Option<+T> = None | Some(value: T)

  datatype Result<+T> = Success(value: T) | Failure(error: KvError)

  /** The steps of writing a snapshot, in the order persist takes them. */
  datatype PersistStep = CreateTemp | WriteTemp | SyncTemp | CloseTemp | RenameTemp

  datatype KvError =
    | EncodeFailed               // json.Marshal of the value failed
    | DecodeFailed               // the stored bytes do not decode into the requested shape
    | IoFailed(step: PersistStep) // a step of persist failed
    | OpenFailed                 // the store file exists but cannot be opened

  /** An encoder and a decoder for values of type T, both of which may fail. */
  datatype Codec<!T> = Codec(encode: T -> Option<Raw>, decode: Raw -> Option<T>)

  /** Decoding what was encoded gives back the original value. */
  ghost predicate Faithful<T(!new)>(codec: Codec<T>) {
    forall v: T {:trigger codec.encode(v)} ::
      codec.encode(v).Some? ==> codec.decode(codec.encode(v).value) == Some(v)
  }

  /** What the file system holds at one path. */
  datatype DiskFile =
    | Missing                                  // no such file
    | Unparsable                               // a file that is not a complete snapshot
    | Snapshot(entries: map<string, Raw>)      // a complete JSON snapshot of a map

  /** The outcome of looking up one key. */
  datatype Fetched<+T> = Absent | Found(value: T) | Undecodable

  /** Looking up `key` and decoding what is stored there. */
  function Lookup<T>(data: map<string, Raw>, key: string, decode: Raw -> Option<T>): (r: Fetched<T>)
    ensures r.Absent? <==> key !in data
    ensures r.Undecodable? <==> key in data && decode(data[key]).None?
    ensures r.Found? ==> key in data && decode(data[key]) == Some(r.value)
  {
    if key !in data then Absent
    else match decode(data[key])
      case None => Undecodable
      case Some(v) => Found(v)
  }

  /** The keys of `data` that start with `prefix`. */
  function Matching(data: map<string, Raw>, prefix: string): set<string> {
    set k | k in data && prefix <= k
  }

  /** Every value stored under a key that starts with `prefix` decodes. */
  ghost predicate AllDecode<T>(data: map<string, Raw>, prefix: string, decode: Raw -> Option<T>) {
    forall k :: k in data && prefix <= k ==> decode(data[k]).Some?
  }

  /** The error a snapshot write reports when step `io` fails (None: no step fails). */
  function PersistError(io: Option<PersistStep>): (err: Option<KvError>)
    ensures err.None? <==> io.None?
  {
    match io
    case None => None
    case Some(step) => Some(IoFailed(step))
  }

  /** What data.tmp holds after a snapshot write of `snapshot` in which step
      `io` fails (None: every step succeeds), when it held `before`. */
  function TempAfter(io: Option<PersistStep>, before: DiskFile, snapshot: map<string, Raw>): DiskFile {
    match io
    case None => Missing                      // renamed over the store file
    case Some(CreateTemp) => before           // never created
    case Some(WriteTemp) => Unparsable        // truncated, then partly written
    case Some(_) => Snapshot(snapshot)        // fully written, not renamed
  }

  /** Storing `value` under `key` and then reading `key` gives `value` back;
      every other key reads as before. */
  lemma PutThenLookup<T(!new)>(data: map<string, Raw>, codec: Codec<T>, key: string, value: T, other: string)
    requires Faithful(codec)
    requires codec.encode(value).Some?
    ensures Lookup(data[key := codec.encode(value).value], key, codec.decode) == Found(value)
    ensures other != key ==>
      Lookup(data[key := codec.encode(value).value], other, codec.decode) == Lookup(data, other, codec.decode)
  {
  }

  /** After removing `key` it reads as absent; every other key reads as before. */
  lemma RemoveThenLookup<T>(data: map<string, Raw>, decode: Raw -> Option<T>, key: string, other: string)
    ensures Lookup(data - {key}, key, decode) == Absent
    ensures other != key ==> Lookup(data - {key}, other, decode) == Lookup(data, other, decode)
  {
  }

  class Store {
    /** The in-memory map (s.data). */
    var data: map<string, Raw>
    /** The path of the store file (s.path). */
    var path: string
    /** What the store file at `path` holds. */
    var file: DiskFile
    /** What the temporary file data.tmp beside it holds. */
    var scratch: DiskFile
    /** Every value the in-memory map has had, the current one last. */
    ghost var history: seq<map<string, Raw>>

    /** Both files hold either no snapshot or a complete snapshot of a map
        the store has actually held: never a torn or mixed write. */
    ghost predicate Valid()
      reads this
    {
      && |history| > 0
      && history[|history| - 1] == data
      && (file.Snapshot? ==> file.entries in history)
      && (scratch.Snapshot? ==> scratch.entries in history)
    }

    /** A store over the file at `path`, whose current contents are `onDisk`.
        A file that does not decode is ignored and the store starts empty. */
    constructor Load(path: string, onDisk: DiskFile)
      ensures Valid()
      ensures this.path == path && file == onDisk && scratch == Missing
      ensures data == if onDisk.Snapshot? then onDisk.entries else map[]
      ensures history == [data]
    {
      this.path := path;
      data := if onDisk.Snapshot? then onDisk.entries else map[];
      file := onDisk;
      scratch := Missing;
      history := [if onDisk.Snapshot? then onDisk.entries else map[]];
    }

    /** Get: absent keys are reported without an error; a stored value that
        does not decode is reported as found, with the error. */
    method Get<T>(key: string, decode: Raw -> Option<T>) returns (r: Fetched<T>)
      ensures r == Lookup(data, key, decode)
    {
      if key !in data {
        return Absent;
      }
      var v := decode(data[key]);
      if v.None? {
        return Undecodable;
      }
      return Found(v.value);
    }

    /** GetByPrefix: every key that starts with `prefix`, with its decoded
        value; the first value that does not decode makes it fail. */
    method GetByPrefix<T>(prefix: string, decode: Raw -> Option<T>) returns (r: Result<map<string, T>>)
      ensures r.Success? <==> AllDecode(data, prefix, decode)
      ensures r.Failure? ==> r.error == DecodeFailed
      ensures r.Success? ==> r.value.Keys == Matching(data, prefix)
      ensures r.Success? ==> forall k :: k in r.value ==> Lookup(data, k, decode) == Found(r.value[k])
    {
      var result: map<string, T> := map[];
      var todo := data.Keys;
      while todo != {}
        invariant todo <= data.Keys
        invariant result.Keys == Matching(data, prefix) - todo
        invariant forall k :: k in result ==> k in data && decode(data[k]) == Some(result[k])
        invariant forall k :: k in data && k !in todo && prefix <= k ==> decode(data[k]).Some?
        decreases todo
      {
        var k :| k in todo;
        todo := todo - {k};
        if prefix <= k {
          var v := decode(data[k]);
          if v.None? {
            return Failure(DecodeFailed);
          }
          result := result[k := v.value];
        }
      }
      return Success(result);
    }

    /** Set: encodes `value` and stores it under `key`, then persists. The map
        keeps the new value even when persisting fails. */
    method Set<T>(key: string, value: T, encode: T -> Option<Raw>, io: Option<PersistStep>)
      returns (err: Option<KvError>)
      requires Valid()
      modifies this`data, this`file, this`scratch, this`history
      ensures Valid()
      ensures encode(value).None? ==>
        err == Some(EncodeFailed) && data == old(data) && file == old(file) && scratch == old(scratch)
        && history == old(history)
      ensures encode(value).Some? ==> history == old(history) + [data]
      ensures encode(value).Some? ==> data == old(data)[key := encode(value).value]
      ensures encode(value).Some? ==> err == PersistError(io)
      ensures encode(value).Some? ==> file == if io.None? then Snapshot(data) else old(file)
      ensures encode(value).Some? ==> scratch == TempAfter(io, old(scratch), data)
    {
      var b := encode(value);
      if b.None? {
        return Some(EncodeFailed);
      }
      data := data[key := b.value];
      history := history + [data];
      err := Persist(io);
    }

    /** Delete: removes `key` (an absent key is not an error), then persists. */
    method Delete(key: string, io: Option<PersistStep>) returns (err: Option<KvError>)
      requires Valid()
      modifies this`data, this`file, this`scratch, this`history
      ensures Valid()
      ensures data == old(data) - {key}
      ensures history == old(history) + [data]
      ensures err == PersistError(io)
      ensures file == if io.None? then Snapshot(data) else old(file)
      ensures scratch == TempAfter(io, old(scratch), data)
    {
      data := data - {key};
      history := history + [data];
      err := Persist(io);
    }

    /** persist: writes the whole map to data.tmp and renames it over the
        store file. The store file changes only at the final rename, so a
        failure at any step leaves it as it was. */
    method Persist(io: Option<PersistStep>) returns (err: Option<KvError>)
      requires Valid()
      modifies this`file, this`scratch
      ensures Valid()
      ensures err == PersistError(io)
      ensures file == if io.None? then Snapshot(data) else old(file)
      ensures scratch == TempAfter(io, old(scratch), data)
    {
      if io.Some? && io.value.CreateTemp? {
        return Some(IoFailed(CreateTemp));
      }
      scratch := Unparsable;  // created empty, or truncated
      if io.Some? && io.value.WriteTemp? {
        return Some(IoFailed(WriteTemp));
      }
      scratch := Snapshot(data);
      if io.Some? && io.value.SyncTemp? {
        return Some(IoFailed(SyncTemp));
      }
      if io.Some? && io.value.CloseTemp? {
        return Some(IoFailed(CloseTemp));
      }
      if io.Some? && io.value.RenameTemp? {
        return Some(IoFailed(RenameTemp));
      }
      file := scratch;
      scratch := Missing;
      return None;
    }
  }

  /** OpenStore: a missing file gives an empty store; a file that exists but
      cannot be opened (`readable` false) is fatal; a file that does not
      decode is ignored. */
  method OpenStore(path: string, onDisk: DiskFile, readable: bool) returns (r: Result<Store>)
    ensures onDisk.Missing? ==> r.Success?
    ensures r.Failure? <==> !onDisk.Missing? && !readable
    ensures r.Failure? ==> r.error == OpenFailed
    ensures r.Success? ==> fresh(r.value) && r.value.Valid()
    ensures r.Success? ==> r.value.path == path && r.value.file == onDisk && r.value.scratch == Missing
    ensures r.Success? ==> r.value.data == if onDisk.Snapshot? then onDisk.entries else map[]
  {
    if !onDisk.Missing? && !readable {
      return Failure(OpenFailed);
    }
    var s := new Store.Load(path, onDisk);
    return Success(s);
  }
}
