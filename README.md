# herrah: durable store and node-provisioning state machine

herrah provisions machines over the network. A node that network-boots calls
`/boot/<uuid>`. The server keeps one machine record per node in a small
persistent key/value store, and the record's `control` field decides the answer:

- On a node's first contact, a record is created with control `"fresh"` and the node gets the sleep script. It then retries.
- Once an operator has edited the record to control `"init"`, the node gets the chainload script rendered from the record.
- Any other control value gets an empty answer.

Operators list, edit and delete records. A booted node fetches its Ignition config or its Combustion script. A node that never booted gets nothing.

This project models two pieces:

- `kv.dfy` (module `Kv`) models the store. It is a class whose map is updated in place by `Set` and `Delete`. After each change, `Persist` writes a snapshot to a temporary file and renames it over the store file.
- `provisioning.dfy` (module `Provisioning`) models the HTTP handlers that run over the store.

The model makes these substitutions for things outside the program's logic:

- JSON encoding and decoding become a `Codec`: an encoder and a decoder, each of which may fail, passed as parameters. The JSON round trip is the hypothesis `Faithful(codec)`, not an axiom.
- The file system becomes two fields of the store: what the store file holds (`file`) and what `data.tmp` holds (`scratch`).
- Which step of a snapshot write fails becomes a parameter, `io`.
- A ghost `history` records every map the store has held. `Store.Valid()` says that both files only ever hold a complete snapshot of one of those maps.
- A Go handler that panics is modelled as the response `Aborted(error)`, because the HTTP server recovers the panic and drops only that request. Anything the handler changed before the panic stays changed.

The model follows the code. There is no "provisioned" stage. Nothing moves a node past `"init"` by itself. Fetching a configuration never changes the record: the two fetch handlers have no `modifies` clause. A control value other than `"fresh"` or `"init"` gets an empty 200 reply, not the chainload script. `Set` updates the in-memory map before it persists, so when persisting fails the new value stays in memory while the file keeps the old snapshot. `handlePatchMachines` discards the error of its store write.

## Model

| member | source | states |
|---|---|---|
| `Kv.Lookup` | kv.go:49-56 | Absent exactly when the key is missing; undecodable exactly when the stored bytes do not decode; otherwise found with the decoded value |
| `Kv.PersistError` | kv.go:116-136 | a snapshot write reports an error exactly when one of its steps fails |
| `Kv.PutThenLookup` | kv.go:32-56 | under a faithful codec, storing a value and then reading its key gives the value back, and every other key reads as before |
| `Kv.RemoveThenLookup` | kv.go:108-113 | after deleting a key it reads as absent (not an error), and every other key reads as before |
| `Kv.Store.Load` | kv.go:19-28 | a new store at the given path holds the file's snapshot, or is empty when the file is missing or does not decode; its history is that one map |
| `Kv.OpenStore` | kv.go:19-28 | a missing file gives an empty store with the given path; a file that exists but cannot be opened is fatal; an undecodable file is ignored |
| `Kv.Store.Get` | kv.go:45-57 | returns Lookup of the key: absent with no error, found with the decoded value, or found but undecodable; the store is not modified |
| `Kv.Store.GetByPrefix` | kv.go:61-105 | succeeds exactly when every key with the prefix decodes (else fails with a decode error); on success its keys are exactly the keys of the map that start with the prefix, each with the value Get would decode |
| `Kv.Store.Set` | kv.go:32-41 | an encoding failure is returned with nothing changed; otherwise the map becomes the old map with the key bound to the encoding and every other key unchanged, even when persisting fails; the file then holds the new snapshot exactly when persisting succeeds, and data.tmp holds what the failed step left; the new map is appended to the history (which an encoding failure leaves as it was), so both files still hold only maps the store has held |
| `Kv.Store.Delete` | kv.go:108-113 | the map becomes the old map without the key; an absent key is not an error; the only error is a persist failure; the file holds the new snapshot exactly when persisting succeeds, data.tmp holds what the failed step left, and the new map is appended to the history |
| `Kv.Store.Persist` | kv.go:116-137 | the store file changes only at the final rename, to a complete snapshot of the map; a failure at any step leaves it as it was and reports that step; the store invariant (files hold only whole past snapshots) is kept |
| `Provisioning.BootReply` | http.go:122-141 | a stored record gets the sleep script exactly when its control is "fresh", the boot script rendered from that record exactly when it is "init", and an empty reply otherwise |
| `Provisioning.BootCommit` | http.go:105-141 | the write half of a boot contact, after its read: the store changes only when that read saw no record and the first-contact record encodes, and then only by binding the node's key to it; the answer is the sleep script exactly when such a record was created and persisted, or the record read had control "fresh" |
| `Provisioning.Boot` | http.go:98-142 | a boot contact either leaves the store as it was or, when the node had no record, adds that one key and changes no existing entry |
| `Provisioning.HandleBoot` | http.go:98-142 | the new store and the response are those of Boot on the old store; for a node that has a record the store object is entirely unchanged; the store file holds the new snapshot exactly when a first-contact record was encoded and persisted, and is otherwise as before; data.tmp and the history change only when a first-contact record was encoded, as `Set` states |
| `Provisioning.BootCreatesRecord` | http.go:105-121 | the first contact of an unknown node stores, at "machine-"+uuid, the record with name "NEW "+uuid, that uuid, the query mac, IP "TBD" and control "fresh", changes no other key, and answers with the sleep script when persisting succeeds |
| `Provisioning.BootKeepsKnownRecord` | http.go:122-141 | a boot contact for a node with a record writes nothing and answers from the stored record, or aborts when it does not decode |
| `Provisioning.KnownNodeSurvivesContacts` | http.go:101-105 | once a node has a record, any sequence of boot contacts leaves the store unchanged |
| `Provisioning.FirstMacKept` | http.go:101-121 | after any non-empty sequence of boot contacts of an unknown node, its record is the one built from the first contact, whatever MAC the later contacts send |
| `Provisioning.EditedNodeBootsFromEdit` | http.go:123-140 | after an edit replaces a record, the next boot contact answers from exactly the edited record without writing; with control "init" that is the boot script for it |
| `Provisioning.DeletedNodeStartsOver` | http.go:105-113 | after a record is deleted, the next boot contact creates a fresh record carrying that contact's MAC |
| `Provisioning.RacedFirstContactsKeepLastMac` | http.go:99-121 | with the read and the write of handleBoot in separate critical sections, two first contacts of one node whose reads both precede either write both answer with the sleep script, and the stored record carries the second contact's MAC, not the first's |
| `Provisioning.CreatedRecordIsListed` | http.go:146 | a record that a boot contact creates falls under the "machine-" prefix that the listing scans |
| `Provisioning.HandleGetMachines` | http.go:144-155 | lists exactly the keys that start with "machine-", each with its decoded record, and aborts when any of them does not decode |
| `Provisioning.HandleDelMachines` | http.go:157-163 | removes exactly the key "machine-"+uuid; aborts only on a persist failure; the store file, data.tmp and the history change as `Delete` states |
| `Provisioning.HandlePatchMachines` | http.go:165-184 | an invalid body gives 400 with the store unchanged; otherwise the record at "machine-"+uuid is replaced by the body, the store file holds the new snapshot exactly when encoding and persisting succeed (else it is as before), data.tmp and the history change only when the body encodes, as `Set` states, and the body is echoed even when the store write failed |
| `Provisioning.HandleGetIgnition` | http.go:186-207 | a node without a record gets an empty reply; a node with a decodable record gets the config for that record; the store is never modified |
| `Provisioning.HandleGetCombustion` | http.go:209-229 | a node without a record gets an empty reply; a node with a decodable record gets the Combustion script; the store is never modified |

## Left out

- The `sync.RWMutex` of the store (kv.go:13, 37-38, 46-47, 62-63, 109-110): the model is sequential. Each store operation (Get, GetByPrefix, Set, Delete) is one atomic step, as its lock makes it.
- Provisioning.HandleBoot: modelled as one step, although it reads the store (http.go:101) and writes it (http.go:107) under two separate locks. Create-once and first-MAC-kept (`FirstMacKept`, `KnownNodeSurvivesContacts`) therefore hold only while one node's boot contacts do not overlap. `RacedFirstContactsKeepLastMac` shows what overlapping first contacts do; see Findings.
- JSON encoding and decoding (kv.go:33, 53, 76, 97 and http.go:150, 169, 180, 203): these are library calls, represented by the `Codec` parameters and by the `body` parameter of `HandlePatchMachines`.
- The reflection path of GetByPrefix that rejects a non-map output (kv.go:87-90): the model has one typed prefix scan, so that error cannot arise.
- The byte-level format of the snapshot file and its indentation (kv.go:123-124): a file holds either a complete snapshot of a map or something unparsable.
- Where `data.tmp` lives (kv.go:117-118): the model has exactly two files, the store file and the temporary file.
- Kv.Store.Persist: assumes the store file is not itself named `data.tmp`. If it is, the temporary path equals the store path (kv.go:117-118), `os.Create` truncates the store file in place, and the store file is then not changed only by the final rename.
- A stale `data.tmp` left by an earlier run: a new store starts with no temporary file. `persist` truncates the temporary file before use, so this does not affect the store file.
- Kv.OpenStore: a store file holding the JSON literal `null` is not modelled. encoding/json decodes it without error into a nil map (kv.go:24). Every later Set then panics at kv.go:39, so every first contact and every edit aborts, while Get, GetByPrefix and Delete work and persist writes `null` back. The model treats such a file as `Unparsable` and gives a working empty store.
- Kv.Store.Load: the same `null` store file gives a working empty store here, not the nil map of the source. A file that is not valid JSON, or whose top level is not an object, decodes nothing: it is `Unparsable` and the store starts empty, as in the source.
- Strings are Dafny strings of characters. Go strings are byte strings, and `json.Marshal` replaces invalid UTF-8 with U+FFFD. So a `mac` query or a uuid path segment holding invalid UTF-8 is stored differently from what was sent. `Faithful(codec)` assumes a round trip that does not hold for such values.
- Failures writing the HTTP response (`w.Write`, `tmpl.Execute` on the writer, http.go:117-120, 124-127, 135-138, 225-228): transport errors that change no state.
- `text/template` rendering of boot.ipxe.tmpl (http.go:131-139): the response `BootScript(record)` stands for the script rendered from that record.
- Provisioning.HandleGetIgnition: the Ignition config generator (ignition.go, including its bcrypt hashing and its possible error) is not part of this model. The response `IgnitionConfig(record)` stands for the config generated from that record.
- Provisioning.HandleGetMachines: the `json.Marshal` of the listing (http.go:150-153) is treated as unable to fail. A map of string-only records always encodes.
- Routing, static files, cache headers and logging (http.go:35-96, 231-236), the TFTP server, image download, the command line, and the AutoYaST/Ignition literals: these are network plumbing, I/O or constant data.

## Findings

| source | as written | input that shows it | evidently intended | confidence | as-written member | corrected member |
|---|---|---|---|---|---|---|
| http.go:99-121 | handleBoot reads the record under the read lock (kv.go:46-47) and creates it in a later, separate write section (kv.go:37-38), so the absence check and the creation are not atomic | two first contacts of one unknown uuid with MACs A and B whose reads both happen before either write: both get the sleep script, and the stored record has MAC B | a node's record is created once, on its first contact, and keeps that contact's MAC | medium, not executed | `Provisioning.RacedFirstContactsKeepLastMac` | `Provisioning.FirstMacKept` |
