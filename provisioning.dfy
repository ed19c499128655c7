/** The node-provisioning handlers of http.go, over the store of kv.go.

    A node that network-boots asks for /boot/<uuid>. On its first contact a
    machine record is created under "machine-<uuid>" with control "fresh",
    and the node is told to sleep and retry. An operator edits the record
    (PATCH); once its control is "init", the next boot contact receives the
    chainload script rendered from the record. Nothing here moves a node
    past "init", and fetching a configuration never changes the record.

    A Go handler that panics is recovered by the HTTP server, which drops
    that one request: it is modelled as the response `Aborted`, and whatever
    the handler changed in the store before the panic stays changed. */
module Provisioning {
  import opened Kv

  /** The machine record of store.go. */
  datatype Machine = Machine(name: string, uuid: string, mac: string, ip: string, control: string)

  const MachinePrefix: string := "machine-"

  /** The store key of the record of node `uuid`. */
  function MachineKey(uuid: string): string {
    MachinePrefix + uuid
  }

  /** The record created on the first boot contact of `uuid`, which sent
      `mac` in its query ("" when it sent none). */
  function FirstContact(uuid: string, mac: string): Machine {
    Machine("NEW " + uuid, uuid, mac, "TBD", "fresh")
  }

  /** What a handler writes back. */
  datatype Response =
    | Empty                                   // status 200, no body
    | SleepScript                             // the embedded sleep.ipxe
    | BootScript(record: Machine)             // boot.ipxe.tmpl rendered with the record
    | IgnitionConfig(record: Machine)         // the Ignition config generated for the record
    | CombustionScript                        // the embedded combustion.bash
    | Machines(listing: map<string, Machine>) // the JSON listing of all records
    | Edited(uuid: string, record: Machine)   // the JSON echo of an edit
    | BadRequest                              // status 400, "invalid JSON body"
    | Aborted(error: KvError)                 // the handler panicked

  /** The boot response for a node whose record is `m`, chosen by its control. */
  function BootReply(m: Machine): (r: Response)
    ensures r == SleepScript <==> m.control == "fresh"
    ensures r == BootScript(m) <==> m.control == "init"
    ensures r == Empty <==> m.control != "fresh" && m.control != "init"
  {
    if m.control == "fresh" then SleepScript
    else if m.control == "init" then BootScript(m)
    else Empty
  }

  /** The store after one handler call, and what the handler wrote back. */
  datatype Step = Step(next: map<string, Raw>, response: Response)

  /** The write half of a boot contact of `uuid` with query `mac`, on store
      contents `data`, after its read of the record gave `seen`, when step
      `io` of persisting fails (None: persisting succeeds). handleBoot reads
      and writes the store in two separate critical sections. */
  function BootCommit(data: map<string, Raw>, codec: Codec<Machine>, uuid: string, mac: string,
                      io: Option<PersistStep>, seen: Fetched<Machine>): (step: Step)
    ensures step.next == data || (
      && seen.Absent? && codec.encode(FirstContact(uuid, mac)).Some?
      && step.next == data[MachineKey(uuid) := codec.encode(FirstContact(uuid, mac)).value])
    ensures step.response == SleepScript <==>
      || (seen.Absent? && codec.encode(FirstContact(uuid, mac)).Some? && io.None?)
      || (seen.Found? && seen.value.control == "fresh")
  {
    match seen
    case Undecodable => Step(data, Aborted(DecodeFailed))
    case Found(m) => Step(data, BootReply(m))
    case Absent =>
      match codec.encode(FirstContact(uuid, mac))
      case None => Step(data, Aborted(EncodeFailed))
      case Some(b) =>
        Step(data[MachineKey(uuid) := b], if io.None? then SleepScript else Aborted(IoFailed(io.value)))
  }

  /** A boot contact whose read and write see the same store: the contact
      either changes nothing or creates the record of a node that had none. */
  function Boot(data: map<string, Raw>, codec: Codec<Machine>, uuid: string, mac: string,
                io: Option<PersistStep>): (step: Step)
    ensures step.next == data || (
      && MachineKey(uuid) !in data
      && step.next.Keys == data.Keys + {MachineKey(uuid)}
      && forall k :: k in data ==> step.next[k] == data[k])
  {
    BootCommit(data, codec, uuid, mac, io, Lookup(data, MachineKey(uuid), codec.decode))
  }

  /** The store after an edit of `uuid` that replaces its record with `m`
      (an encoding failure leaves the store as it was). */
  function Replace(data: map<string, Raw>, codec: Codec<Machine>, uuid: string, m: Machine): map<string, Raw> {
    match codec.encode(m)
    case None => data
    case Some(b) => data[MachineKey(uuid) := b]
  }

  /** handleBoot. */
  method HandleBoot(store: Store, codec: Codec<Machine>, uuid: string, mac: string, io: Option<PersistStep>)
    returns (response: Response)
    requires store.Valid()
    modifies store
    ensures store.Valid() && store.path == old(store.path)
    ensures store.data == Boot(old(store.data), codec, uuid, mac, io).next
    ensures response == Boot(old(store.data), codec, uuid, mac, io).response
    ensures MachineKey(uuid) in old(store.data) ==> unchanged(store)
    ensures store.file ==
      if MachineKey(uuid) !in old(store.data) && codec.encode(FirstContact(uuid, mac)).Some? && io.None?
      then Snapshot(store.data) else old(store.file)
    ensures store.scratch ==
      if MachineKey(uuid) !in old(store.data) && codec.encode(FirstContact(uuid, mac)).Some?
      then TempAfter(io, old(store.scratch), store.data) else old(store.scratch)
    ensures store.history ==
      if MachineKey(uuid) !in old(store.data) && codec.encode(FirstContact(uuid, mac)).Some?
      then old(store.history) + [store.data] else old(store.history)
  {
    var found := store.Get(MachineKey(uuid), codec.decode);
    match found {
      case Undecodable =>
        response := Aborted(DecodeFailed);
      case Absent =>
        var err := store.Set(MachineKey(uuid), FirstContact(uuid, mac), codec.encode, io);
        if err.Some? {
          response := Aborted(err.value);
        } else {
          response := SleepScript;
        }
      case Found(m) =>
        response := BootReply(m);
    }
  }

  /** handleGetMachines: every record, keyed by its full store key. */
  method HandleGetMachines(store: Store, codec: Codec<Machine>) returns (response: Response)
    ensures response.Machines? || response == Aborted(DecodeFailed)
    ensures response.Machines? <==> AllDecode(store.data, MachinePrefix, codec.decode)
    ensures response.Machines? ==> response.listing.Keys == Matching(store.data, MachinePrefix)
    ensures response.Machines? ==> forall k :: k in response.listing ==>
      Lookup(store.data, k, codec.decode) == Found(response.listing[k])
  {
    var ms := store.GetByPrefix(MachinePrefix, codec.decode);
    if ms.Failure? {
      return Aborted(ms.error);
    }
    return Machines(ms.value);
  }

  /** handleDelMachines. */
  method HandleDelMachines(store: Store, uuid: string, io: Option<PersistStep>) returns (response: Response)
    requires store.Valid()
    modifies store
    ensures store.Valid() && store.path == old(store.path)
    ensures store.data == old(store.data) - {MachineKey(uuid)}
    ensures store.file == if io.None? then Snapshot(store.data) else old(store.file)
    ensures store.scratch == TempAfter(io, old(store.scratch), store.data)
    ensures store.history == old(store.history) + [store.data]
    ensures response == if io.None? then Empty else Aborted(IoFailed(io.value))
  {
    var err := store.Delete(MachineKey(uuid), io);
    if err.Some? {
      return Aborted(err.value);
    }
    return Empty;
  }

  /** handlePatchMachines: `body` is the request body as the JSON decoder
      reads it into a record (None: not valid JSON). The error of the store
      write is discarded, so the edit is echoed back even when it failed. */
  method HandlePatchMachines(store: Store, codec: Codec<Machine>, uuid: string, body: Option<Machine>,
                             io: Option<PersistStep>) returns (response: Response)
    requires store.Valid()
    modifies store
    ensures store.Valid() && store.path == old(store.path)
    ensures body.None? ==> response == BadRequest && unchanged(store)
    ensures body.Some? ==> response == Edited(uuid, body.value)
    ensures body.Some? ==> store.data == Replace(old(store.data), codec, uuid, body.value)
    ensures body.Some? ==>
      store.file == if codec.encode(body.value).Some? && io.None? then Snapshot(store.data) else old(store.file)
    ensures body.Some? ==>
      store.scratch == if codec.encode(body.value).Some? then TempAfter(io, old(store.scratch), store.data) else old(store.scratch)
    ensures body.Some? ==>
      store.history == if codec.encode(body.value).Some? then old(store.history) + [store.data] else old(store.history)
  {
    if body.None? {
      return BadRequest;
    }
    var _ := store.Set(MachineKey(uuid), body.value, codec.encode, io);
    return Edited(uuid, body.value);
  }

  /** handleGetIgnition: only a node that has booted gets a configuration. */
  method HandleGetIgnition(store: Store, codec: Codec<Machine>, uuid: string) returns (response: Response)
    ensures response == Empty <==> MachineKey(uuid) !in store.data
    ensures response == Aborted(DecodeFailed) <==> Lookup(store.data, MachineKey(uuid), codec.decode).Undecodable?
    ensures response.IgnitionConfig? <==> Lookup(store.data, MachineKey(uuid), codec.decode).Found?
    ensures response.IgnitionConfig? ==>
      Lookup(store.data, MachineKey(uuid), codec.decode) == Found(response.record)
  {
    var found := store.Get(MachineKey(uuid), codec.decode);
    match found {
      case Undecodable => response := Aborted(DecodeFailed);
      case Absent => response := Empty;
      case Found(m) => response := IgnitionConfig(m);
    }
  }

  /** handleGetCombustion: only a node that has booted gets the script. */
  method HandleGetCombustion(store: Store, codec: Codec<Machine>, uuid: string) returns (response: Response)
    ensures response == Empty <==> MachineKey(uuid) !in store.data
    ensures response == Aborted(DecodeFailed) <==> Lookup(store.data, MachineKey(uuid), codec.decode).Undecodable?
    ensures response == CombustionScript <==> Lookup(store.data, MachineKey(uuid), codec.decode).Found?
  {
    var found := store.Get(MachineKey(uuid), codec.decode);
    match found {
      case Undecodable => response := Aborted(DecodeFailed);
      case Absent => response := Empty;
      case Found(_) => response := CombustionScript;
    }
  }

  // Properties of the boot state machine.

  /** The first contact of an unknown node stores its first-contact record
      at its own key, changes nothing else, and sends the sleep script. */
  lemma BootCreatesRecord(data: map<string, Raw>, codec: Codec<Machine>, uuid: string, mac: string,
                          io: Option<PersistStep>)
    requires Faithful(codec)
    requires MachineKey(uuid) !in data
    requires codec.encode(FirstContact(uuid, mac)).Some?
    ensures Boot(data, codec, uuid, mac, io).next == data[MachineKey(uuid) := codec.encode(FirstContact(uuid, mac)).value]
    ensures Lookup(Boot(data, codec, uuid, mac, io).next, MachineKey(uuid), codec.decode)
      == Found(Machine("NEW " + uuid, uuid, mac, "TBD", "fresh"))
    ensures io.None? ==> Boot(data, codec, uuid, mac, io).response == SleepScript
  {
    PutThenLookup(data, codec, MachineKey(uuid), FirstContact(uuid, mac), MachineKey(uuid));
  }

  /** A boot contact for a node that has a record never writes the store;
      it answers from the stored record. */
  lemma BootKeepsKnownRecord(data: map<string, Raw>, codec: Codec<Machine>, uuid: string, mac: string,
                             io: Option<PersistStep>)
    requires MachineKey(uuid) in data
    ensures Boot(data, codec, uuid, mac, io).next == data
    ensures Boot(data, codec, uuid, mac, io).response == match Lookup(data, MachineKey(uuid), codec.decode)
      case Found(m) => BootReply(m)
      case _ => Aborted(DecodeFailed)
  {
  }

  /** One boot contact: the `mac` query and the persist outcome. */
  datatype Contact = Contact(mac: string, io: Option<PersistStep>)

  /** The store after the boot contacts `contacts` of `uuid`, in order. */
  function BootAll(data: map<string, Raw>, codec: Codec<Machine>, uuid: string, contacts: seq<Contact>)
    : map<string, Raw>
    decreases |contacts|
  {
    if contacts == [] then data
    else BootAll(Boot(data, codec, uuid, contacts[0].mac, contacts[0].io).next, codec, uuid, contacts[1..])
  }

  /** Once a node has a record, no number of boot contacts changes the store. */
  lemma {:induction false} KnownNodeSurvivesContacts(data: map<string, Raw>, codec: Codec<Machine>, uuid: string,
                                                     contacts: seq<Contact>)
    requires MachineKey(uuid) in data
    ensures BootAll(data, codec, uuid, contacts) == data
    decreases |contacts|
  {
    if contacts != [] {
      BootKeepsKnownRecord(data, codec, uuid, contacts[0].mac, contacts[0].io);
      KnownNodeSurvivesContacts(data, codec, uuid, contacts[1..]);
    }
  }

  /** Create-once, first MAC wins: after any sequence of boot contacts of a
      node that was unknown, its record is the one built from the first
      contact, whatever MAC the later contacts sent. */
  lemma {:induction false} FirstMacKept(data: map<string, Raw>, codec: Codec<Machine>, uuid: string,
                                        contacts: seq<Contact>)
    requires Faithful(codec)
    requires MachineKey(uuid) !in data
    requires |contacts| > 0
    requires codec.encode(FirstContact(uuid, contacts[0].mac)).Some?
    ensures BootAll(data, codec, uuid, contacts)
      == data[MachineKey(uuid) := codec.encode(FirstContact(uuid, contacts[0].mac)).value]
    ensures Lookup(BootAll(data, codec, uuid, contacts), MachineKey(uuid), codec.decode)
      == Found(Machine("NEW " + uuid, uuid, contacts[0].mac, "TBD", "fresh"))
  {
    var first := Boot(data, codec, uuid, contacts[0].mac, contacts[0].io).next;
    BootCreatesRecord(data, codec, uuid, contacts[0].mac, contacts[0].io);
    KnownNodeSurvivesContacts(first, codec, uuid, contacts[1..]);
  }

  /** After an operator edit sets a record, the next boot contact answers from
      exactly that record: the chainload script when its control is "init". */
  lemma EditedNodeBootsFromEdit(data: map<string, Raw>, codec: Codec<Machine>, uuid: string, m: Machine,
                                mac: string, io: Option<PersistStep>)
    requires Faithful(codec)
    requires codec.encode(m).Some?
    ensures Boot(Replace(data, codec, uuid, m), codec, uuid, mac, io)
      == Step(Replace(data, codec, uuid, m), BootReply(m))
    ensures m.control == "init" ==> Boot(Replace(data, codec, uuid, m), codec, uuid, mac, io).response == BootScript(m)
  {
    PutThenLookup(data, codec, MachineKey(uuid), m, MachineKey(uuid));
  }

  /** Deleting a node's record restarts its lifecycle: the next boot contact
      creates a fresh record carrying the MAC of that contact. */
  lemma DeletedNodeStartsOver(data: map<string, Raw>, codec: Codec<Machine>, uuid: string, mac: string,
                              io: Option<PersistStep>)
    requires Faithful(codec)
    requires codec.encode(FirstContact(uuid, mac)).Some?
    ensures Lookup(Boot(data - {MachineKey(uuid)}, codec, uuid, mac, io).next, MachineKey(uuid), codec.decode)
      == Found(Machine("NEW " + uuid, uuid, mac, "TBD", "fresh"))
  {
    BootCreatesRecord(data - {MachineKey(uuid)}, codec, uuid, mac, io);
  }

  /** Every record a boot contact creates is listed by handleGetMachines. */
  lemma CreatedRecordIsListed(data: map<string, Raw>, codec: Codec<Machine>, uuid: string, mac: string,
                              io: Option<PersistStep>)
    requires codec.encode(FirstContact(uuid, mac)).Some?
    ensures MachineKey(uuid) in Matching(Boot(data, codec, uuid, mac, io).next, MachinePrefix)
  {
    assert MachinePrefix <= MachineKey(uuid);
  }

  /** As written, two first contacts of one node whose reads both come
      before either write both see the node as absent; both create the
      record and the second one's MAC replaces the first one's. */
  lemma RacedFirstContactsKeepLastMac(data: map<string, Raw>, codec: Codec<Machine>, uuid: string,
                                      macA: string, macB: string)
    requires Faithful(codec)
    requires MachineKey(uuid) !in data
    requires macA != macB
    requires codec.encode(FirstContact(uuid, macA)).Some?
    requires codec.encode(FirstContact(uuid, macB)).Some?
    ensures var seen := Lookup(data, MachineKey(uuid), codec.decode);
      var afterA := BootCommit(data, codec, uuid, macA, None, seen);
      var afterB := BootCommit(afterA.next, codec, uuid, macB, None, seen);
      && afterA.response == SleepScript && afterB.response == SleepScript
      && Lookup(afterB.next, MachineKey(uuid), codec.decode) == Found(Machine("NEW " + uuid, uuid, macB, "TBD", "fresh"))
      && Lookup(afterB.next, MachineKey(uuid), codec.decode) != Found(Machine("NEW " + uuid, uuid, macA, "TBD", "fresh"))
  {
    var afterA := BootCommit(data, codec, uuid, macA, None, Absent);
    PutThenLookup(afterA.next, codec, MachineKey(uuid), FirstContact(uuid, macB), MachineKey(uuid));
  }
}
