# Content-addressed record store of rust-xdv-protocol, in Dafny

This project models the record store in `src/contract.rs` of the
rust-xdv-protocol CosmWasm contract, and proves properties of that model.

- `add_metadata` parses each link string into a CID.
- It builds an IPLD map with the fields `name`, `description`, `image` and `links`.
- It encodes that map as DAG-CBOR with a SHA-256 CIDv1.
- It writes the block bytes under the UTF-8 bytes of the CID's text form, and answers that text.
- `add_file` does the same for a map with the fields `owner`, `path`, `type`, `content` and `time`.
- `add_file` accepts a `mode` argument but does not encode it.
- `get_metadata` and `get_files` read the caller's text as raw multihash bytes and form a CIDv0 from them.
- The getters then reject any codec above 0 and load under the CID's binary form.
- They rebuild the block, which re-checks the hash, before answering.

Layout:

- `primitives.dfy` (`Primitives`): `byte` (Rust's `u8`), `u64`, and `String::into_bytes` as a UTF-8 encoder, proved injective.
- `results.dfy` (`Results`): `Option`, and `Result`, whose `Error` variants name each failure the contract can reach (and `InvalidIdentifier`, which only the corrected getter raises).
- `libipld.dfy` (`Libipld`): CIDs, multihashes, the IPLD data model, and blocks. It also holds `Block::encode`, `Block::new` and `Cid::new_v0`.
- `libipld.dfy` also holds `Library`: the codec, hash and CID text/binary forms, as function-valued fields with no known definition.
- `msg.dfy` (`Msg`): the request and answer types and `MetadataSchema`.
- `contract.dfy` (`Contract`): the adds as methods of the class `Extern`, whose `storage` map they change. Each method is tied to a pure outcome function.
- `contract.dfy` also holds the getters, as functions of the storage map. They only borrow it, so they cannot change it.
- `properties.dfy` (`StoreProperties`): lemmas relating several calls, including sequences of `handle` calls (`Replay`).
- `corrected_get.dfy` (`CorrectedGet`): the getter the code evidently intends, and its round trip (see Findings).

Some properties hold only under idealised assumptions about the library. Each is an
explicit `requires` on the lemmas that need it:

- `TextRoundTrip`: parsing a CID's text gives the CID back.
- `CollisionFree`: SHA-256 has no collisions.
- `EncodeInjective`: DAG-CBOR encoding is injective.

Where the code departs from what it evidently intends, the model follows the code:

- Failures are typed results in the model, where the code panics. A panic reverts the call, so a failing operation leaves storage unchanged in the model too.
- Reads and writes use different keys: the code writes under the CID text (`src/contract.rs:90`) and reads under the binary CID (`:141`), and the model keeps both.
- The code does not check for an existing value before a write; the model overwrites too. `WriteKeepsStoredBlock` proves that, with a lossless CID text form and without hash collisions, a write never changes the bytes of a block an earlier add stored (`StoredBlock`).
- The contract defines `get_metadata`/`get_files` and their `QueryAnswer` variants, but its query dispatch is commented out (`src/contract.rs:189-197`). The getters are modelled, and nothing calls them.

## Model

| member | source | states |
|---|---|---|
| `Primitives.CharUtf8` | src/contract.rs:90 | One character becomes 1 to 4 bytes, and the first byte gives the length (UTF-8). |
| `Primitives.CharUtf8Injective` | src/contract.rs:90 | Two characters with the same bytes are equal. |
| `Primitives.Utf8` | src/contract.rs:123 | `into_bytes` gives between one and four bytes per character. |
| `Primitives.Utf8Injective` | src/contract.rs:90 | Different strings give different bytes. So the key an add writes determines the CID text it came from. |
| `Libipld.EncodeBlock` | src/contract.rs:74-84 | `Block::encode` fails exactly when encoding fails. The block's bytes are the encoding, and its CID is a dag-cbor CIDv1 with the bytes' SHA-256 digest. |
| `Libipld.NewBlock` | src/contract.rs:152 | `IpldBlock::new` accepts exactly the pairs whose bytes hash to the CID's digest, and returns them unchanged. |
| `Libipld.NewV0` | src/contract.rs:132-135 | `Cid::new_v0`, with its digest-size check assumed, succeeds exactly for a 32-byte SHA-256 multihash, and gives a version-0 CID with the v0 codec. |
| `Libipld.TextInjective` | src/contract.rs:86 | If the text form is lossless, different CIDs have different texts. |
| `Contract.ParseLinks` | src/contract.rs:62-66 | Succeeds exactly when every link parses, and keeps the caller's order. Otherwise it reports the first link that does not parse. |
| `Contract.MetadataRecord` | src/contract.rs:77-82 | The map has exactly the keys `name`, `description`, `image` and `links`. The links stay in order. |
| `Contract.FileRecord` | src/contract.rs:109-115 | The map has exactly the keys `owner`, `path`, `type`, `content` and `time`, and no `mode`. |
| `Contract.MetadataBlock` | src/contract.rs:62-84 | Succeeds exactly when every link parses and the record encodes. The block's bytes are the record's encoding and its CID is their dag-cbor CIDv1. Otherwise it reports the first bad link or the encoding error. |
| `Contract.FileBlock` | src/contract.rs:106-117 | Succeeds exactly when the file record encodes. The block's bytes are that encoding and its CID is their dag-cbor CIDv1; the only error is the encoding error. |
| `Contract.TextKey` | src/contract.rs:90 | The key an add writes is the UTF-8 form of the CID text, one to four bytes per character. `Primitives.Utf8Injective` makes it determine that text. |
| `Contract.BinaryKey` | src/contract.rs:141 | The key a get reads is the library's binary form of the CID. That form is in libipld, so the member states nothing more; `LoadVerified` and `GetMetadata` state what is read under it. |
| `Contract.AddMetadataOutcome` | src/contract.rs:57-93 | A failed add leaves storage unchanged; its error is the first bad link or the encoding error. A successful add changes only the key made of the answered text. The bytes there encode the record, and the answered text is the CID of those bytes. |
| `Contract.AddFileOutcome` | src/contract.rs:95-126 | The same for files. It fails on an address error or an encoding error, and leaves storage unchanged when it does. |
| `Contract.HandleOutcome` | src/contract.rs:40-55 | A failed call leaves storage unchanged. A successful one answers the variant of its message and writes one block under the UTF-8 form of the answered text, leaving every other key as it was. |
| `Contract.Extern.Handle` | src/contract.rs:40-55 | The new storage and the answer are those of the add the message names. |
| `Contract.Extern.AddMetadata` | src/contract.rs:57-93 | The method's answer and new storage are `AddMetadataOutcome` of the old storage. |
| `Contract.Extern.AddFile` | src/contract.rs:95-126 | The method's answer and new storage are `AddFileOutcome` of the old storage. |
| `Contract.ParseV0` | src/contract.rs:132-135 | Accepts exactly the texts whose UTF-8 bytes parse as a SHA-256 multihash with a 32-byte digest, and gives the version-0 CID of that multihash. Bytes that do not parse give `InvalidMultihash`; any other rejection gives `InvalidCidV0`. |
| `Contract.LoadVerified` | src/contract.rs:132-152 | Succeeds exactly when the text parses, the codec is 0, the binary key is present, and the stored bytes hash to the digest. The result is the stored bytes, unchanged. Each failure names its step: a parse error, `UnsupportedCodec` with the parsed codec, `NotFound` for an absent key, or `HashMismatch` for bytes that fail the digest. |
| `Contract.GetMetadata` | src/contract.rs:128-159 | Answers only verified bytes: those stored under the binary key, which hash to the CID's digest. |
| `Contract.GetFiles` | src/contract.rs:161-187 | Answers exactly what `get_metadata` answers, in the `GetFile` variant. |
| `StoreProperties.AddMetadataStopsAtFirstBadLink` | src/contract.rs:62-66 | If link `i` is the first that does not parse, the add fails with `InvalidLink(i)` and storage is unchanged. |
| `StoreProperties.AddFileIgnoresMode` | src/contract.rs:102-115 | Two adds that differ only in `mode` give the same answer and the same storage. |
| `StoreProperties.AddMetadataRepeated` | src/contract.rs:74-91 | Repeating an add gives the same answer and leaves storage as the first add left it. |
| `StoreProperties.AddFileRepeated` | src/contract.rs:106-124 | The same for `add_file`. |
| `StoreProperties.WriteKeepsStoredBlock` | src/contract.rs:90-91 | With a lossless CID text form and without hash collisions, writing a block never changes the bytes of a block already stored. |
| `StoreProperties.AddStoresBlock` | src/contract.rs:86-91 | A successful add leaves a stored block whose text key is the UTF-8 form of the answered text. |
| `StoreProperties.HandleKeepsStoredBlock` | src/contract.rs:40-55 | No `handle` call changes a stored block. |
| `StoreProperties.ReplayKeepsStoredBlock` | src/contract.rs:40-55 | A stored block keeps its bytes through any sequence of `handle` calls. |
| `StoreProperties.DistinctBytesDistinctIds` | src/contract.rs:86-90 | Different block bytes give different CID texts and different keys. |
| `StoreProperties.LinkListsDiffer` | src/contract.rs:77-82 | Different link CID lists give different metadata maps. |
| `StoreProperties.DistinctMetadataDistinctIds` | src/contract.rs:74-90 | Metadata that differs in a field or in its parsed links gets a different identifier and a different key. |
| `StoreProperties.DistinctFilesDistinctIds` | src/contract.rs:106-123 | Files that differ in owner, path, type, time or content get different identifiers and keys, whatever their modes. |
| `StoreProperties.TamperDetected` | src/contract.rs:152 | Bytes that do not hash to the digest, put under the key a get reads, make both getters fail with `HashMismatch`. |
| `StoreProperties.AsWrittenGetsNeverAnswer` | src/contract.rs:132-139 | When a CIDv0 records dag-pb, both getters fail on every input. Every identifier that parses is rejected with `UnsupportedCodec(0x70)`. |
| `StoreProperties.AddMetadataThenGetIfKeysAgree` | src/contract.rs:141 | Add-then-get as written holds if the caller's text parses to a codec-0 CIDv0 whose binary key is the written text key and whose digest is the block's. |
| `StoreProperties.AddMetadataThenGetOnlyIf` | src/contract.rs:132-152 | Conversely, if a get as written answers the bytes an add wrote, the text parsed to a codec-0 CIDv0 with the block's SHA-256 multihash, and the binary key read holds those same bytes. |
| `CorrectedGet.GetVerified` | src/contract.rs:128-156 | Corrected getter: it succeeds exactly for a dag-cbor CID text whose text key is present and whose bytes hash to the digest, and returns those bytes. Another codec gives `UnsupportedCodec`, an absent key `NotFound`, and bytes that fail the hash check a hash error. |
| `CorrectedGet.StoredBlockReadable` | src/contract.rs:90 | Every stored block can be read back through its CID text. |
| `CorrectedGet.AddThenGet` | src/contract.rs:86-91 | Round trip: the text an add answers reads back the bytes it wrote. |
| `CorrectedGet.AddThenGetAfterReplay` | src/contract.rs:40-55 | The round trip still holds after any later sequence of `handle` calls. |

## Left out

- `init`, the `State`/`config` owner and pause flag, and `debug_print` (`src/contract.rs:23-38`): contract lifecycle, not the store.
- The DAG-CBOR byte layout, SHA-256, the multihash byte format, and the CID text and binary forms live in libipld, which is not part of this model. They are the fields of `Libipld.Library`.
- `deps.api.canonical_address` is a host call. It is the `api` function of `Extern`, giving the owner text or failing.
- `save_to_store` and `load_from_store` are in `state.rs`, which is not part of this model. They are a put and a get on a map from bytes to bytes.
- The `?` on `save_to_store` (`src/contract.rs:91`, `:124`) is therefore never taken.
- The message and answer envelopes, `to_binary`, and the commented-out `query`, `query_count` and tests (`src/contract.rs:189-273`) are left out.
- The panic's revert of the whole transaction is modelled only as "storage unchanged". Host-side gas and atomicity are not modelled.
- `Libipld.NewBlock`: of the hash codes `DefaultParams` accepts, only SHA-256 is modelled. Every other code is `UnsupportedHash`. The getters only ever pass SHA-256 CIDs, because `Cid::new_v0` demands it.
- `Libipld.Ipld`: floats are not modelled, and integers are unbounded rather than `i128`. The contract encodes only `u64` times.
- `Libipld.NewV0`: the codec that `Cid::new_v0` records is the field `v0Codec` and is not fixed at dag-pb. `AsWrittenGetsNeverAnswer` states the consequence for the dag-pb value. The 32-byte digest check is assumed: some releases of the cid crate check only the hash code in `new_v0`. With those, a SHA-256 multihash of another length gets `UnsupportedCodec` rather than `InvalidCidV0`.
- `StoreProperties.DistinctMetadataDistinctIds`: distinctness is stated for parsed link CIDs, not link strings. Two texts of the same CID (for example, two multibase encodings) give the same record.
- The corrected getter is the only one for which an add-then-get round trip is proved. For the getters as written, `AddMetadataThenGetIfKeysAgree` gives a sufficient condition, and `AddMetadataThenGetOnlyIf` gives what any successful read-back implies. The two differ: the binary key may hold the same bytes without being the written key.

## Findings

| source | as written | input that shows it | evidently intended | confidence | as-written member | corrected member |
|---|---|---|---|---|---|---|
| src/contract.rs:132-141 | The getters read the caller's CID text as raw multihash bytes and form a CIDv0. A CIDv0 carries the dag-pb codec (0x70), so `codec() > 0` panics on every identifier that parses. Even past that check, the load uses the binary CID, while adds write under the CID text. | Any identifier, for example the CID text that `add_metadata` has just answered. | Parse the CID text, accept the dag-cbor codec the adds produce, and read under the UTF-8 bytes of the CID text. Then re-check the hash. | Medium: it depends on `Cid::new_v0` recording dag-pb, which is in a crate not part of this model. Not executed. | `StoreProperties.AsWrittenGetsNeverAnswer` | `CorrectedGet.AddThenGet` |
