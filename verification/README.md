# A verified model of CryptFS

CryptFS is a filesystem that several clients mount at once. What a file or directory looks like (its
metadata) is kept under a random 20-byte key in a versioned key-value server; what a file contains is
kept in a content-addressed blob store. Each client caches node objects, changes them locally, and
pushes them with optimistic version numbers; the server tells the other clients about every accepted
change. This project models that stack bottom-up and proves what it is meant to guarantee:

| files | what they hold |
|---|---|
| `Types`, `Bits`, `NodeCodec` | machine integers, little-endian packing into buffers, and the stored form of a node, written by loops over two maps in any iteration order |
| `Messages`, `Encoding`, `EncodingProofs` | the message stream: one encoder and one decoder with buffers that persist from message to message and 16-bit lengths |
| `Storage`, `StorageProofs` | the in-memory store, the versioned wrapper, the blob store, and the application of messages |
| `Tags`, `Server`, `ServerRuns` | tag numbers, the input loop of a connection, fan-out, and the server as a state machine over any interleaving of connections and broadcasts |
| `FileBuffer`, `NodeSpec`, `CryptNode` | the content of a file as a slice of a longer backing array; the node objects and their operations, with their roll-backs and their faults |
| `Protocol` | any number of clients against one store as a transition system: goroutines that interleave between the puts of one operation, puts that work, get lost or are carried out without a reply, broadcasts that arrive at any later time |
| `ProtocolInv`, `ProtocolOps`, `ProtocolSyncs`, `ProtocolBegins`, `ProtocolLoads`, `ProtocolNews`, `ProtocolRuns`, `ProtocolContent`, `ProtocolDirs`, `ProtocolRollback` | the invariants of that system and their preservation by every step |
| `ProtocolTheorems`, `ProtocolCasts` | the whole-run theorems in plain form |
| `Executions`, `Witness` | operations that nothing interrupts as runs of the protocol, for any outcome of their puts; and concrete runs on which updates get lost, content keys dangle and a file gets a child |
| `Outcomes` | what a sync, a `Setattr` or a creation that works leaves in the stores, as it is read back there |
| `Representation`, `Refinement` | the lemmas that tie the records of the protocol to the bytes that the nodes write, and each operation of the node objects to such a run |

The classes (`InMemoryStore`, `VersionedWrapper`, `BlobStoreWrapper`, `Encoder`, `Decoder`,
`MonotoneTags`, `ServerConn`, `Server`, `Factory`, `CryptNode`) have the fields and loops of the
program's own types, and their methods are proved against functions on values (`Encoded`, `Decode`,
`Apply`, `Handle`, `Syncs`, `Reloaded`, ...). The protocol uses the same functions for its steps.

How to read the protocol. A run is a sequence of labels, and `Reaches` says that its steps are possible
one after the other from empty stores and lead to a world. Everything that the environment decides is
in the label: which client moves, random keys, the clock, the outcome of a put, the objects made for
loaded children. An operation takes its locks and changes its node in one step, syncs its nodes one by one, the content half and the
metadata half of each being a step of its own, and on a failure is taken back in the step that reports
it. A put and its reply are one step. `Put` records in the history of the store describe what was
accepted; `origin` in a node is the key and the version that it was last loaded from or saved as; `found`
in a client remembers the node that an operation in progress started from. None of them has an influence
on a step. Runs have fewer than 2^64 - 1 steps, so that version numbers do not wrap.

Assumptions of the protocol, all of them conditions on labels: a created name is new in its directory, a
created key is new in the store and is not the root's, `Rename` is called for a child that the kernel
has looked up, a nil map of children behaves like an empty one (where Go would panic on writing to a nil
map, or on loading a record with children into a file, the model goes on, and so covers more). The mode
given to a new node has 16 bits, as the kernel's type for it has. The root of an empty filesystem keeps
the "not loaded" mode that `cmd/mount.go` gives it, and counts as loaded.

Points where the code does less than one may expect, stated exactly by lemmas:
`NodeRoundTrip` and `SizeIsExact` (which records survive the 16-bit lengths), `StreamRoundTrip` and
`FreshDecoderPanics` (which messages do, and which make a decoder panic), `AcceptedVersionIncreases`
(version numbers fall back behind the greatest one), `CloseIsExact` and `BroadcastIsExact` (a connection
id that has wrapped around), `ResizeIsExact` and `WriteIsExact` (old bytes come back when a slice grows within its capacity), `PutsReplaceWhatTheyKnow`
and `NoLostUpdate` (an object whose key a reload has changed overwrites what it has never loaded, on the
run of `Witness.LostUpdate`), `UnchangedIsExact` and `RefusedContentIsStored` (a failed `Setattr` leaves
the content key of the content that was refused, and the next sync stores it, as in `RefusedSize`),
`DropIsExact` (a name that was there before), `KeysStaySafe` (a `Flush` that is taken back may restore the
key of a lost blob, which then gets stored, on the run of `Witness.DanglingContentKey`),
`DirectoriesStay` (what was a directory may take the mode of a file from a reload, keeps its map of
children, and then stores a record that no client can load, on the run of `Witness.FileWithChild`; it
takes a creation or a rename into a node without a directory's mode). The comment on
`VersionedWrapper.Put` says that a put needs the current version number; the code accepts any greater
one, and that only the next one is ever accepted from an object with a key of its own is what
`PutsLandIffCurrent` proves.

## Model

| member | source | states |
|---|---|---|
| Bits.LittleEndianRoundTrip | pkg/bits/bits.go:8-32 | decoding a little-endian number of n bytes gives the number back, for every number that n bytes can hold |
| Bits.FromLittleEndianRoundTrip | pkg/bits/bits.go:52-76 | encoding what n bytes decode to gives the same bytes back |
| Bits.Put16 | pkg/bits/bits.go:8-12 | the two bytes go in place, the rest of the buffer stays, the position advances by 2 |
| Bits.Put32 | pkg/bits/bits.go:14-20 | the four bytes go in place, the rest of the buffer stays, the position advances by 4 |
| Bits.Put64 | pkg/bits/bits.go:22-32 | the eight bytes go in place, the rest of the buffer stays, the position advances by 8 |
| Bits.Putb | pkg/bits/bits.go:34-46 | the 16-bit length and as much of the value as fits go in place; the position advances by 2 and the length modulo 2^16 |
| Bits.GetbOfPrefixed | pkg/bits/bits.go:78-90 | Getb of a length-prefixed string in front of anything returns the string and exactly the rest |
| NodeCodec.SizeOf | pkg/node/metadata.go:16-25 | the precomputed size is the fixed part plus the room of every attribute and every child, in any visiting order |
| NodeCodec.PutEntriesInto | pkg/node/metadata.go:33-41 | the loop over a map, in any order, writes the entries of some enumeration of all its keys one behind the other |
| NodeCodec.Serialize | pkg/node/metadata.go:16-43 | the buffer is the image of the record for some iteration order of both maps |
| NodeCodec.UnserializeAttrs | pkg/node/metadata.go:55-65 | the counted loop computes the recursive parse of so many attributes |
| NodeCodec.UnserializeChildren | pkg/node/metadata.go:66-78 | the loop that runs to the end of the buffer terminates and computes the recursive parse of the children |
| NodeCodec.Unserialize | pkg/node/metadata.go:45-79 | the fields in order, and a panic exactly where the recursive parse runs out of the buffer |
| NodeCodec.NodeRoundTrip | pkg/node/metadata.go:16-79 | for every pair of iteration orders, a fresh node gets back exactly what was serialized if and only if all lengths and the number of attributes fit in 16 bits and only directories have children |
| NodeCodec.SizeIsExact | pkg/node/metadata.go:19-42 | the precomputed size is filled exactly if and only if every string fits in 16 bits |
| NodeCodec.ImageFormat | pkg/node/metadata.go:29-36 | user, group, mode and time are in this order in front, the content key behind its length, then the number of attributes, all numbers with the low byte first |
| NodeCodec.FileWithChildrenPanics | pkg/node/metadata.go:53-78 | a record that fits, but has children and not the mode of a directory, makes unserialize panic in a fresh node |
| Messages.AccessorsTellApart | pkg/message/message.go:138-167 | two messages of one kind and tag that the constructors have built are equal if and only if Key, Value and Version give the same results for both, panics included |
| Messages.Message.ForBroadcast | pkg/message/message.go:213-219 | a put with the tag 0, a panic for any other kind |
| Encoding.Encoder.Makeroom | pkg/message/encoding.go:67-74 | the buffer is long enough and keeps its old bytes |
| Encoding.Encoder.Encode | pkg/message/encoding.go:35-65 | whatever the buffer held before, exactly the encoding of the message goes to the writer, as far as that takes it; an unknown kind writes nothing and fails |
| Encoding.Decoder.ReadInto | pkg/message/encoding.go:164-183 | the state of buffer, offset and error after a read, including reads behind an earlier error, that grow the buffer but leave the stream alone |
| Encoding.Decoder.DecodeFrom | pkg/message/encoding.go:112-138 | the decoder computes Decode on its persistent state, with a panic exactly where a slice is out of bounds |
| EncodingProofs.MessageRoundTrip | pkg/message/encoding.go:35-183 | an encoded message is decoded to itself, whatever the decoder has left over, if and only if its lengths fit: key and value within 65535, and for a put key <= 65533 and value <= 65527 |
| EncodingProofs.WireFormat | pkg/message/encoding.go:35-58 | the kind, the tag, the strings that the kind has behind their lengths and the version of a put, all numbers with the low byte first |
| EncodingProofs.StreamRoundTrip | pkg/message/encoding.go:35-183 | any sequence of messages through one encoder and one decoder comes out the same with every byte consumed if and only if each message fits |
| EncodingProofs.DecodeIsSafe | pkg/message/encoding.go:112-183 | on any stream, also behind failed reads, no slice is out of bounds, the offset stays <= 131075 and the buffer <= 131080, as long as the two lengths of a put do not wrap |
| EncodingProofs.FreshDecoderIsSafe | pkg/message/encoding.go:112-183 | the same for every run of Decode calls from a new decoder, each with a stream of its own |
| EncodingProofs.FreshDecoderPanics | pkg/message/encoding.go:126-131 | for every key and every announced length of a put, the first message makes a decoder panic if and only if the key is longer than 65533, or the value is longer than 65527 and not shorter than the key |
| EncodingProofs.DecodeOneProgresses | pkg/message/encoding.go:112-138 | a successful Decode consumes at least five bytes |
| Storage.InMemoryStore.Put | pkg/storage/inmemory.go:21-26 | the map changes at the key and nowhere else |
| Storage.InMemoryStore.Get | pkg/storage/inmemory.go:28-39 | the value of the key, or nothing if the key is not there |
| Storage.BigEndianRoundTrip | pkg/storage/store.go:93-107 | the version header is read back as it was written |
| Storage.BigEndianIsReversed | pkg/storage/store.go:93-107 | the header has the bytes of the little-endian form, the last one first |
| Storage.AcceptedVersionIncreases | pkg/storage/store.go:87-92 | an accepted put has a greater version, or else the stored one is 2^64-1, behind which every version is accepted |
| Storage.VersionedWrapper.Put | pkg/storage/store.go:80-97 | the map from keys to versions and values changes at the key, or the put is stale and nothing changes |
| Storage.VersionedWrapper.Get | pkg/storage/store.go:100-109 | the stored version and value, with the 8-byte header undone |
| Storage.ApplyMessage | pkg/storage/message.go:11-35 | store and answer after any message are those of Apply, for which AnswersAreExact says what every answer is |
| Storage.ReplyMatchesRequest | pkg/storage/message.go:11-35 | the reply keeps the tag; an accepted put comes back unchanged and sets its key; anything else leaves the store alone |
| Storage.BlobStoreWrapper.Put | pkg/storage/blobstore.go:27-32 | the value is stored under its hash, which is returned |
| StorageProofs.StoreHoldsLastAccepted | pkg/storage/store.go:80-109 | after any sequence of messages each key has the version and value that were accepted last for it |
| StorageProofs.AnswersAreExact | pkg/storage/message.go:11-35 | over any sequence of messages: a get is answered, under its tag and key, by exactly the version and value of the last put for the key that was echoed before, a put is echoed if and only if it is for a new key, of a greater version or behind the greatest version, and anything else, a get of an unknown key included, is answered by an error with its tag |
| StorageProofs.LogIsEchoed | pkg/storage/message.go:20-30 | the accepted puts are exactly those that the answers echo, in order |
| StorageProofs.AcceptedVersionsIncrease | pkg/storage/store.go:87-96 | over any sequence of messages the accepted versions of a key strictly increase, unless the greatest version was used in between |
| StorageProofs.NoVersionAcceptedTwice | pkg/storage/store.go:87-96 | below the greatest version no pair of key and version is accepted twice |
| StorageProofs.WireIsTransparent | pkg/storage/message.go:11-35 | a server that only sees the bytes of any sequence of requests that fit ends up with the same store, accepted puts and answers as if they were applied directly, and a client decodes exactly these answers from the bytes that it sends |
| StorageProofs.BlobsAreAddressedByContent | pkg/storage/blobstore.go:27-37 | after any sequence of puts every key leads to a value that was put and hashes to it, and every value put has its key |
| StorageProofs.BlobsAreKept | pkg/storage/blobstore.go:27-37 | without collisions a value is read back for ever, whatever is put later |
| Tags.MonotoneTags.Next | pkg/message/tag.go:17-24 | the n-th call returns the n-th tag |
| Tags.TagFormula | pkg/message/tag.go:17-24 | the n-th tag is (n-1) modulo 65535, plus 1 |
| Tags.SameTag | pkg/message/tag.go:33-38 | tags are never 0, two are the same exactly if a multiple of 65535 lies between them, and so 65535 in a row are distinct |
| Server.ServerConn.Turn | pkg/network/server/conn.go:60-88 | one message through the gate and the store: the one answer sent, which ReachableInv says what it is, the session after it, and a broadcast launched exactly for a put that is answered by a put |
| Server.ServerConn.HandleInput | pkg/network/server/conn.go:36-93 | the whole input loop: exactly the messages that the stream decodes to are answered, in order, and the broadcasts launched are those of the accepted puts; the loop ends |
| Server.Server.Accept | pkg/network/server/server.go:128-135 | the new connection gets the next id, starts unauthorized and goes to the end of conns |
| Server.Server.RemoveConn | pkg/network/server/server.go:143-154 | exactly the connections with the given id go |
| Server.Server.Broadcast | pkg/network/server/server.go:156-187 | every connection that may apply messages and does not have the excluded id gets one encoded copy with the tag 0, and nobody gets anything else |
| ServerRuns.ReachableInv | pkg/network/server/conn.go:36-93 | in every reachable state: one reply per input of a connection with its tag and in order, which is an error before the gate opens, an auth message without a value to the input that opens it, and behind that the answer that the request gets within the requests of all connections; what it got applied is what came behind its first successful auth message; what it was pushed is, in order and each once, the tag-0 copies of all broadcasts of other ids that have run since it was accepted or authorized; store and accepted puts are those of all applied requests in order, and the broadcasts launched or done are exactly the accepted puts |
| ServerRuns.AuthAnswersTheFirst | pkg/network/server/conn.go:61-70 | in every reachable state the answer to an input is an auth message if and only if there is a password and this is the first input that gives it |
| ServerRuns.CloseIsExact | pkg/network/server/server.go:143-154 | removing a connection removes only it if and only if no other live connection is a multiple of 65535 away |
| ServerRuns.LiveIdsAreDistinct | pkg/network/server/server.go:128-154 | ids are distinct while fewer than 65535 connections were accepted after the oldest live one |
| ServerRuns.BroadcastIsExact | pkg/network/server/server.go:156-187 | one execution of a broadcast, at any later time and also when its sender is gone, gives each authorized connection but the sender exactly one copy if and only if no such connection is a multiple of 65535 away from the sender |
| FileBuffer.ResizeIsExact | pkg/node/node.go:545-555 | resizing cuts off or extends by zeros if and only if the bytes that come back into the slice are zero |
| FileBuffer.WriteIsExact | pkg/node/node.go:631-645 | a write puts its data in place, with zeros in the hole before them, if and only if the old bytes in that hole are zero |
| FileBuffer.WritesAreExact | pkg/node/node.go:631-645 | from content that fills its array, any run of writes amounts to the same run on a plain byte array with zero-filled holes |
| FileBuffer.ReadsAreExact | pkg/node/node.go:494-505 | and a read returns exactly its clipped part of that byte array |
| NodeSpec.SyncKeeps | pkg/node/metadata.go:103-133 | whatever the outcomes of its calls, sync changes nothing but the version (by one, if something was saved), the content key and the flags; after a success the flags are clear and a dirty content is stored under the content key |
| NodeSpec.DropIsExact | pkg/node/node.go:453-456 | the roll-back of Create, Mkdir and Symlink, which drops the name, restores the directory if and only if the name was not there before |
| NodeSpec.Chmod | pkg/node/node.go:589-596 | the low twelve bits of the mode are the requested ones and all others stay |
| NodeSpec.WithBitIsExact | pkg/node/node.go:433-448 | for every mode the bit of a file or directory is set and every other bit stays, so that what Mkdir makes is a directory |
| NodeSpec.ReloadKeepsCache | pkg/node/node.go:208-214 | the content survives a reload if and only if its key is the same or there was none, and is given up otherwise; a content that its key stands for before is so after it |
| Outcomes.SavedIsLoaded | pkg/node/metadata.go:16-133 | what a sync of a dirty node saves is exactly what a new object is filled with from the store: every field, the time included, and the content key of the content that is in the blob store |
| Outcomes.SetattrIsStored | pkg/node/node.go:558-605 | after a Setattr that works the store has the requested user, group and low mode bits, the requested time or the clock's if the size changes, and everything else as before; the content at its new size is in the blob store under the stored key |
| Outcomes.FileIsStored | pkg/node/node.go:365-384 | after a Create that works the store has, under the new key, an empty file made now, of user and group 0, with the requested mode and the bit of a regular file, and under the directory's key the new name and otherwise what was there |
| Outcomes.DirectoryIsStored | pkg/node/node.go:387-407 | after a Mkdir that works the same with the bit of a directory |
| Outcomes.LinkIsStored | pkg/node/node.go:410-431 | after a Symlink that works the same with the mode of a link and the key of its target, which is in the blob store |
| CryptNodes.Factory.AllocateNode | pkg/node/nodefcatory.go:24-37 | a fresh node with the random key, which becomes known unless its key already is |
| CryptNodes.Factory.ExistingNode | pkg/node/nodefcatory.go:40-48 | a fresh node that is not loaded, which becomes known unless its key already is |
| CryptNodes.Factory.AddKnown | pkg/node/nodefcatory.go:50-66 | a known key keeps its object |
| CryptNodes.Factory.InvalidateCache | pkg/node/nodefcatory.go:78-106 | among the known nodes exactly the one known by the key gets the reload flag, if its version is smaller |
| CryptNodes.CryptNode.Serialize | pkg/node/metadata.go:16-43 | the bytes are an image of the node's fields and of the keys of its children |
| CryptNodes.CryptNode.SaveMetadata | pkg/node/metadata.go:81-89 | a put of the image with the next version; the node's version advances exactly if the put is acknowledged |
| CryptNodes.CryptNode.SaveContent | pkg/node/metadata.go:104-119 | the content half of sync: the new content key is kept even if the blob store fails |
| CryptNodes.CryptNode.Sync | pkg/node/metadata.go:103-133 | fields, both stores and the error after sync, for every outcome of its two calls |
| CryptNodes.CryptNode.LoadMetadata | pkg/node/metadata.go:92-101 | nothing changes if the key is not stored; otherwise the fields and the children are those of the record, the children being new unloaded nodes, or the code panics on a malformed record or a file with children |
| CryptNodes.CryptNode.Setxattr | pkg/node/node.go:66-117 | the two refusals change nothing; otherwise sync with the attribute set, and after a failure exactly the attributes from before |
| CryptNodes.CryptNode.Rmdir | pkg/node/node.go:140-165 | the two refusals change nothing; otherwise sync without the name, and after a failure exactly the children from before |
| CryptNodes.CryptNode.Unlink | pkg/node/node.go:168-180 | sync without the name, and after a failure exactly the children from before |
| CryptNodes.CryptNode.CreateLockedChild | pkg/node/node.go:433-457 | a fresh child under the name with the given mode and key |
| CryptNodes.CryptNode.Create | pkg/node/node.go:365-384 | the child, with the mode of a regular file, is synced before its directory, which is marked and synced only if that worked; after any failure the name is gone |
| CryptNodes.CryptNode.Mkdir | pkg/node/node.go:387-407 | the same for a directory and its mode, with the parent marked from the start |
| CryptNodes.CryptNode.Symlink | pkg/node/node.go:410-431 | the same for a link, whose target is saved as its content first |
| CryptNodes.CryptNode.Rename | pkg/node/node.go:513-543 | the child moves to its new name, then child, new parent and old parent are synced in this order until one fails; nothing is taken back |
| CryptNodes.CryptNode.Resize | pkg/node/node.go:545-555 | slice and backing array after a resize; a longer slice than the capacity gets a new array |
| CryptNodes.CryptNode.Setattr | pkg/node/node.go:558-625 | sync with the requested changes, and after a failure the old user, group, mode and content bytes, although slice and old slice share an array, but the content key and the flags that the sync has left |
| CryptNodes.CryptNode.Flush | pkg/node/node.go:317-333 | sync, and after a failure the old content key with the content given up if the key had changed |
| CryptNodes.CryptNode.Write | pkg/node/node.go:631-645 | slice and backing array after a write in place, the clock's time, and a dirty content unless the data are empty |
| CryptNodes.CryptNode.Read | pkg/node/node.go:494-505 | the clipped part of the content |
| CryptNodes.CryptNode.EnsureChildLoaded | pkg/node/node.go:297-314 | a loaded child stays as it is; another one is loaded: fields and children of its record, or nothing if the store fails, or a panic as LoadMetadata says |
| CryptNodes.CryptNode.ReloadIfNeeded | pkg/node/node.go:188-245 | without the flag, or if the store fails, nothing changes; otherwise, for every map order, fields and name-to-key map are exactly those loaded, the content is kept if and only if its key is the same or there was none and empty otherwise, the flags are clear, surviving names keep their objects, objects whose key changed are flagged, and objects that are gone have not changed |
| Representation.SyncsAgree | pkg/node/metadata.go:103-133 | sync against stored bytes and sync against stored records have the same outcome, and the stores keep standing for each other |
| Representation.LoadsAgree | pkg/node/metadata.go:92-101 | a load gets exactly the record that was saved if and only if it fits the format |
| Executions.SyncIsTwoSteps | pkg/node/metadata.go:103-133 | a whole sync is a run of its content and its metadata step, or of the first alone if that fails |
| Refinement.SyncRefines | pkg/node/metadata.go:103-133 | a sync of a node object against stored bytes is that sync of the protocol, with the outcomes of its calls as faults |
| Refinement.OperationRefines | pkg/node/node.go:66-625 | what the contracts of Setxattr, Setattr, Flush, Rmdir and Unlink say of a call is a run of one client's steps from any reachable world, with the same node, links, stores and error at its end and nothing else changed |
| Refinement.CreationRefines | pkg/node/node.go:365-457 | the same for Create, Mkdir and Symlink, with any outcome of their four puts |
| Refinement.RenameRefines | pkg/node/node.go:513-543 | the same for Rename, with any outcome of its six puts, also if it stops half-way |
| Refinement.LoadsAreExact | pkg/node/metadata.go:92-101 | after any run that creates and renames into directories only, a load gets exactly the record that was saved if and only if its lengths fit |
| ProtocolTheorems.PutsLandIffCurrent | pkg/node/metadata.go:81-89 | in every reachable world a put of an object that was not re-keyed, if it reaches the server, is accepted if and only if the object's version is the server's |
| ProtocolTheorems.PutsReplaceWhatTheyKnow | pkg/node/node.go:224-227 | in every reachable world an accepted put replaces exactly what its object was last loaded from or saved as, the same version of the same key, if and only if no reload has given the object another key since |
| ProtocolTheorems.OnlyFlaggedObjectsAreRekeyed | pkg/node/node.go:224-227 | in every reachable world an object that is not flagged for a reload still has the key that it was last loaded from or saved as |
| ProtocolTheorems.NoLostUpdate | pkg/node/metadata.go:81-89 | over every run, an accepted put has replaced the very version of its key that its object was last loaded from or saved as if and only if that origin was under the same key, and then its version is the next one |
| Witness.LostUpdate | pkg/node/node.go:188-245 | a run of two clients at whose end a file's record of one client is overwritten by the other one's fields of another file, with an object that was at the same version and with one that was ahead |
| ProtocolTheorems.VersionsAreConsecutive | pkg/storage/store.go:87-96 | if no re-keyed object has put to a key, its accepted versions are exactly 1 up to the current one |
| ProtocolTheorems.NoDanglingChildren | pkg/node/node.go:365-457 | in every reachable world every child key in a stored directory is a stored key, whichever puts failed |
| ProtocolTheorems.NoDanglingLinks | pkg/node/node.go:365-457 | the same for the directories that clients hold, except for a child whose creation is still to sync it |
| ProtocolDirs.DirectoriesStay | pkg/node/metadata.go:53-78 | all along a run only what has the mode of a directory has children, in the store and in every client, if and only if every creation and rename is into a node that has it; changes of the mode, reloads, new keys and roll-backs never matter |
| Witness.FileWithChild | pkg/node/node.go:188-245 | a run at whose end a stored record has a child and the mode of a file, so that loading it panics: a directory whose name another client has given to a file takes that file's mode, and something is created in it |
| ProtocolTheorems.SnapshotsAreCoherent | pkg/node/metadata.go:81-133 | a loaded node without flags has user, group, mode, content key, attributes and name-to-key map of the record accepted for its key at exactly its version |
| ProtocolTheorems.CurrentSnapshots | pkg/node/metadata.go:81-133 | and if that is the current version, it agrees with the store |
| ProtocolTheorems.PutsStoreTheNode | pkg/node/metadata.go:81-89 | in every reachable world an accepted put stores the fields of its node, the time included, and the keys of its children, under its key and nowhere else |
| ProtocolTheorems.LoadTakesTheRecord | pkg/node/node.go:297-314 | in every reachable world the first load of a child takes every field of the record, the time included, and its names lead to the record's keys; no other object changes |
| ProtocolTheorems.InvalidationIsNotMissed | pkg/node/nodefcatory.go:78-106 | while a known node is behind the server without a flag, a broadcast of the current version is pending for its client, or the client itself has put that version, by another object or without hearing back |
| ProtocolTheorems.DeliveryFlags | pkg/node/nodefcatory.go:101-105 | a delivered broadcast leaves its node flagged if and only if the node was flagged or older |
| ProtocolCasts.PutsAreAnnounced | pkg/network/server/conn.go:83-88 | a put adds exactly one broadcast of its version for every other client if it is accepted, and nothing otherwise |
| ProtocolCasts.BroadcastsAreGenuine | pkg/network/server/server.go:156-187 | in every reachable world a pending broadcast is the only one of its version for its client, and that version was accepted from another client |
| ProtocolTheorems.ReloadReconciles | pkg/node/node.go:188-245 | after a reload in any reachable world the names lead to exactly the loaded keys, survivors keep their objects, other objects change only if they are children whose key has changed, by getting that key and a flag, and the node's flags are clear |
| ProtocolTheorems.ReloadTakesTheRecord | pkg/node/node.go:188-214 | in every reachable world a reload takes every field of the record, the time included; the content survives if and only if its key is the same or there was none |
| ProtocolTheorems.OperationsNeverGetStuck | pkg/node/metadata.go:103-133 | every operation in progress can take its next step, with any outcome |
| ProtocolTheorems.ArrivalsExist | pkg/node/nodefcatory.go:40-66 | there are objects for the children of any record, so that no load is blocked |
| ProtocolContent.ContentKeysResolve | pkg/node/metadata.go:103-119 | if blobs get lost only in a Flush, every stored content key leads to a blob after every run, through Flush and Setattr roll-backs |
| ProtocolContent.BlobResolves | pkg/node/metadata.go:104-119 | the content is in the blob store before its key can get into the metadata, with any outcome: a key without a blob stays with dirty content or is taken back |
| ProtocolContent.KeysStaySafe | pkg/node/node.go:317-333 | with any blobs lost: all along a run stored keys lead to blobs, and so do those of nodes without dirty content, if and only if every Flush that is taken back after its content half was done restores a key that leads to a blob |
| Witness.KeysGetStored | pkg/node/metadata.go:103-133 | the content key of any node that is free, without dirty content and up to date gets stored by a further change, and leads to a blob then if and only if it did before |
| Witness.DanglingContentKey | pkg/node/node.go:317-333 | a run at whose end a stored content key leads nowhere, for any two contents with different hashes: a blob put and the metadata put of a later Flush are lost |
| ProtocolRollback.FailedOperationsAreUndone | pkg/node/node.go:66-625 | whatever happened while it was in progress and whichever put fails, an operation other than Rename leaves links, attributes, version, user, group and mode of its node as it found them, and the content (but after a Flush) and the time (but for the clock) too; the content key is the old one, or outside of a Flush the hash of the content that it tried to store; a Flush leaves the content empty if it had content to store that the old key does not stand for, and as it was otherwise |
| ProtocolRollback.UnchangedIsExact | pkg/node/node.go:558-625 | a Setattr whose sync fails in any way restores every field but five: the time comes back if and only if a time was asked for, the size was not, or the clock stood still; the content key if and only if there was no content to store or it has the old hash; what the three flags are is said exactly |
| ProtocolRollback.RefusedContentIsStored | pkg/node/node.go:602-624 | the next sync that works stores, together with the old content bytes, the key of the refused content if and only if the blob store had taken that |
| ProtocolRollback.RefusedSize | pkg/node/node.go:602-624 | an input on which a file that is empty again gets the content key of one byte stored |
| ProtocolRuns.ReachableOk | pkg/node/metadata.go:81-133 | every step of every client keeps the invariants that the theorems rest on |
| ProtocolBegins.AnyBeginKeeps | pkg/node/node.go:66-625 | the beginning of every operation keeps them |
| ProtocolOps.FailKeeps | pkg/node/node.go:66-625 | so does the roll-back of a failed operation at any of its syncs |
| ProtocolSyncs.MetaStepKeeps | pkg/node/metadata.go:120-131 | so does a metadata put with any outcome, in the client and in the store |
| ProtocolLoads.ReloadKeeps | pkg/node/node.go:188-245 | so does a reload |
| ProtocolNews.MetaInformed | pkg/network/server/conn.go:83-88 | a client's own put leaves it informed about every key that it knows |
| ProtocolNews.OthersPutInformed | pkg/network/server/conn.go:83-88 | a put of another client leaves it informed, because a broadcast is launched |

## Left out

- Interleavings inside one step of the protocol: a put and its reply, and the part of an operation before its first sync, are atomic; mutexes make the second so, the first leaves out a re-key between a put and its reply.
- A call that returns early, or for which no random key can be drawn, changes nothing and is not a step of the protocol.
- After ids have wrapped around, a connection that the close of another one removes from the list goes on reading in the program; `ServerRuns` lets it stop.
- Classes are used by one caller at a time; interleaving is the subject of `Protocol` and `ServerRuns`, where locks are explicit.
- `Rename` leaves out the lock of the new parent if that has the old parent's key, even if it is another object (pkg/node/node.go:523); the protocol always takes it, as the kernel locks both directories.
- CryptNodes.CryptNode.Rename: does not claim atomicity, because the code has none; the repository says that this needs transactions on the server.
- CryptNodes.CryptNode.Flush: does not claim that a failed flush brings the old content back; the code gives it up to be loaded again.
- CryptNodes.CryptNode.LoadMetadata: says nothing about fields left half-assigned when the code panics; and where one record names a child twice, it makes one object, not two.
- CryptNodes.CryptNode.Write: takes the offset as a natural number, since the kernel sends no negative one.
- FileBuffer.WritesAreExact: starts from content that fills its array, because after a shrink old bytes can come back; ResizeIsExact and WriteIsExact say exactly when they do.
- ProtocolTheorems.SnapshotsAreCoherent: leaves out the time, which Write changes without a metadata flag.
- ProtocolContent.ContentKeysResolve: leaves out runs that lose a blob outside of a Flush, because the claim is false of some of them; KeysStaySafe says of which.
- ProtocolRollback.FailedOperationsAreUndone: does not claim that the content key comes back, because it does not; it says which one is left.
- Loads in the protocol return any record as it was saved; LoadsAgree proves that of the bytes for exactly the records that fit the format, which an attribute of 65536 bytes, say, does not.
- File content in the protocol is whatever a Write leaves; ensureContentLoaded (pkg/node/node.go:469-492) fills it from the blob store and is not a step.
- Values in stores are immutable sequences; that `InMemorySTore.Get` hands out its own slice, which a later Write could change, is not modelled.
- A fan-out in the protocol reaches the clients that are mounted when the put is accepted; channel buffers, reconnection and dropped sends are not modelled.
- Getxattr, Opendir, Lookup, Getattr, Open, Readlink, Release and Fsync only combine modelled steps or read fields.
- The FUSE inode tree is taken to agree with Children; inode numbers are not modelled.
- The clock, random keys, BLAKE2b and bcrypt are parameters or uninterpreted functions.
- Error texts, logging, kinds as text, and random message generators.
- The disk, remote, paired and Bitcask stores, RemoteVersionedStore, store URIs, the network client, TLS, listening, deadlines, shutdown and the commands.
