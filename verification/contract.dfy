/**
 * The content-addressed record store of `src/contract.rs`.
 *
 * `add_metadata` and `add_file` build an IPLD map from the request, encode it as
 * DAG-CBOR with a SHA-256 CIDv1, and write the block bytes under the UTF-8 bytes of
 * the CID's text form; they are methods of `Extern`, whose `storage` they change.
 * `get_metadata` and `get_files` only borrow the storage: they are functions of the
 * storage map that parse the caller's text, look the bytes up under the CID's binary
 * form and re-check the hash before answering.
 */
module Contract {
  import opened Primitives
  import opened Results
  import opened Libipld
  import opened Msg

  /** The contract's key-value storage (`save_to_store`/`load_from_store` are put/get). */
  type Storage = map<seq<byte>, seq<byte>>

  /** What an add answers together with the storage it leaves behind. */
  datatype Outcome = Outcome(answer: Result<HandleAnswer>, storage: Storage)

  const MetadataFields: set<string> := {"name", "description", "image", "links"}

  const FileFields: set<string> := {"owner", "path", "type", "content", "time"}

  /**
   * `data.links.iter().map(|l| Ipld::Link(Cid::from_str(l).unwrap())).collect()`:
   * every link is parsed in order; the first one that does not parse stops the add.
   */
  function ParseLinks(lib: Library, links: seq<string>): (r: Result<seq<Cid>>)
    ensures r.Ok? <==> forall i :: 0 <= i < |links| ==> lib.cidFromStr(links[i]).Some?
    ensures r.Ok? ==> |r.value| == |links|
    ensures r.Ok? ==> forall i :: 0 <= i < |links| ==> lib.cidFromStr(links[i]) == Some(r.value[i])
    ensures r.Err? ==> r.error.InvalidLink? && r.error.index < |links|
    ensures r.Err? ==> lib.cidFromStr(links[r.error.index]).None?
    ensures r.Err? ==> forall i :: 0 <= i < r.error.index ==> lib.cidFromStr(links[i]).Some?
  {
    if links == [] then
      Ok([])
    else
      match lib.cidFromStr(links[0])
      case None => Err(InvalidLink(0))
      case Some(c) =>
        match ParseLinks(lib, links[1..])
        case Err(e) => Err(InvalidLink(e.index + 1))
        case Ok(cs) => Ok([c] + cs)
  }

  /** The `ipld!` map of `add_metadata`: exactly four fields, links kept in order. */
  function MetadataRecord(data: MetadataSchema, links: seq<Cid>): (r: Ipld)
    ensures r.Map? && r.fields.Keys == MetadataFields
    ensures r.fields["name"] == String(data.name)
    ensures r.fields["description"] == String(data.description)
    ensures r.fields["image"] == String(data.image)
    ensures r.fields["links"].List? && |r.fields["links"].items| == |links|
    ensures forall i :: 0 <= i < |links| ==> r.fields["links"].items[i] == Link(links[i])
  {
    Map(map[
      "name" := String(data.name),
      "description" := String(data.description),
      "image" := String(data.image),
      "links" := List(seq(|links|, i requires 0 <= i < |links| => Link(links[i])))])
  }

  /** The `ipld!` map of `add_file`: exactly five fields; `mode` is not among them. */
  function FileRecord(owner: string, path: string, contentType: string, content: seq<byte>, time: u64): (r: Ipld)
    ensures r.Map? && r.fields.Keys == FileFields
    ensures r.fields["owner"] == String(owner) && r.fields["path"] == String(path)
    ensures r.fields["type"] == String(contentType)
    ensures r.fields["content"] == Bytes(content) && r.fields["time"] == Integer(time as int)
  {
    Map(map[
      "owner" := String(owner),
      "path" := String(path),
      "type" := String(contentType),
      "content" := Bytes(content),
      "time" := Integer(time as int)])
  }

  /** The block `add_metadata` builds: parsed links, the record, its DAG-CBOR block. */
  function MetadataBlock(lib: Library, data: MetadataSchema): (r: Result<Block>)
    ensures r.Ok? <==>
      && ParseLinks(lib, data.links).Ok?
      && lib.dagCbor(MetadataRecord(data, ParseLinks(lib, data.links).value)).Some?
    ensures r.Ok? ==>
      && lib.dagCbor(MetadataRecord(data, ParseLinks(lib, data.links).value)) == Some(r.value.data)
      && r.value.cid == DagCborCid(lib, r.value.data)
    ensures r.Err? ==>
      r.error == if ParseLinks(lib, data.links).Err? then ParseLinks(lib, data.links).error else EncodingError
  {
    var links :- ParseLinks(lib, data.links);
    EncodeBlock(lib, MetadataRecord(data, links))
  }

  /** The block `add_file` builds: the file record and its DAG-CBOR block. */
  function FileBlock(lib: Library, owner: string, path: string, contentType: string, time: u64, content: seq<byte>): (r: Result<Block>)
    ensures r.Ok? <==> lib.dagCbor(FileRecord(owner, path, contentType, content, time)).Some?
    ensures r.Ok? ==>
      && lib.dagCbor(FileRecord(owner, path, contentType, content, time)) == Some(r.value.data)
      && r.value.cid == DagCborCid(lib, r.value.data)
    ensures r.Err? ==> r.error == EncodingError
  {
    EncodeBlock(lib, FileRecord(owner, path, contentType, content, time))
  }

  /** The key an add writes under: `cid.to_string().into_bytes()`. */
  function TextKey(lib: Library, c: Cid): (r: seq<byte>)
    ensures |lib.cidToString(c)| <= |r| <= 4 * |lib.cidToString(c)|
  {
    Utf8(lib.cidToString(c))
  }

  /** The key a get reads under: `try_cid.to_bytes()`. */
  function BinaryKey(lib: Library, c: Cid): seq<byte>
  {
    lib.cidToBytes(c)
  }

  /**
   * `s1` is `s0` with one key added or replaced: the UTF-8 bytes of `id`. The value
   * there is the DAG-CBOR encoding of `record`, and `id` is the text of that value's
   * SHA-256 CIDv1.
   */
  ghost predicate WroteBlock(lib: Library, s0: Storage, s1: Storage, id: string, record: Ipld)
  {
    var key := Utf8(id);
    && s1.Keys == s0.Keys + {key}
    && (forall k :: k in s0 && k != key ==> s1[k] == s0[k])
    && lib.dagCbor(record) == Some(s1[key])
    && id == lib.cidToString(DagCborCid(lib, s1[key]))
  }

  /** The effect of `add_metadata` on the storage `s`. */
  function AddMetadataOutcome(lib: Library, s: Storage, data: MetadataSchema): (o: Outcome)
    ensures o.answer.Err? ==> o.storage == s
    ensures o.answer.Ok? <==>
      && ParseLinks(lib, data.links).Ok?
      && lib.dagCbor(MetadataRecord(data, ParseLinks(lib, data.links).value)).Some?
    ensures o.answer.Err? ==>
      o.answer.error == if ParseLinks(lib, data.links).Err? then ParseLinks(lib, data.links).error else EncodingError
    ensures o.answer.Ok? ==>
      && o.answer.value.AddMetadata?
      && WroteBlock(lib, s, o.storage, o.answer.value.cid, MetadataRecord(data, ParseLinks(lib, data.links).value))
  {
    match MetadataBlock(lib, data)
    case Err(e) => Outcome(Err(e), s)
    case Ok(b) =>
      var cid := lib.cidToString(b.cid);
      Outcome(Ok(HandleAnswer.AddMetadata(cid)), s[Utf8(cid) := b.data])
  }

  /**
   * The effect of `add_file` on the storage `s`, where `api` is
   * `deps.api.canonical_address` followed by `to_string`. `mode` is accepted and
   * not used.
   */
  function AddFileOutcome(
    lib: Library, api: string -> Option<string>, s: Storage, env: Env,
    path: string, contentType: string, time: u64, content: seq<byte>, mode: string): (o: Outcome)
    ensures o.answer.Err? ==> o.storage == s
    ensures o.answer.Ok? <==>
      && api(env.sender).Some?
      && lib.dagCbor(FileRecord(api(env.sender).value, path, contentType, content, time)).Some?
    ensures o.answer.Err? ==>
      o.answer.error == if api(env.sender).None? then AddressError else EncodingError
    ensures o.answer.Ok? ==>
      && o.answer.value.AddFile?
      && WroteBlock(lib, s, o.storage, o.answer.value.cid, FileRecord(api(env.sender).value, path, contentType, content, time))
  {
    match api(env.sender)
    case None => Outcome(Err(AddressError), s)
    case Some(owner) =>
      match FileBlock(lib, owner, path, contentType, time, content)
      case Err(e) => Outcome(Err(e), s)
      case Ok(b) =>
        var cid := lib.cidToString(b.cid);
        Outcome(Ok(HandleAnswer.AddFile(cid)), s[Utf8(cid) := b.data])
  }

  /** The effect of `handle`: the add that the message names. */
  function HandleOutcome(lib: Library, api: string -> Option<string>, s: Storage, env: Env, msg: HandleMsg): (o: Outcome)
    ensures o.answer.Err? ==> o.storage == s
    ensures o.answer.Ok? ==>
      && o.answer.value.AddFile? == msg.AddFile?
      && exists record :: WroteBlock(lib, s, o.storage, o.answer.value.cid, record)
  {
    match msg
    case AddFile(path, contentType, time, content, mode) =>
      AddFileOutcome(lib, api, s, env, path, contentType, time, content, mode)
    case AddMetadata(data) =>
      AddMetadataOutcome(lib, s, data)
  }

  /**
   * The identifier parsing of both getters: the UTF-8 bytes of the caller's text are
   * read as a raw multihash, which must then form a CIDv0.
   */
  function ParseV0(lib: Library, id: string): (r: Result<Cid>)
    ensures r.Ok? ==> lib.multihashFromBytes(Utf8(id)) == Some(r.value.hash)
    ensures r.Ok? ==> r.value.version == V0 && r.value.codec == lib.v0Codec
    ensures r.Ok? ==> r.value.hash.code == Sha2_256 && |r.value.hash.digest| == 32
    ensures r.Ok? <==>
      var h := lib.multihashFromBytes(Utf8(id));
      h.Some? && h.value.code == Sha2_256 && |h.value.digest| == 32
    ensures r == Err(InvalidMultihash) <==> lib.multihashFromBytes(Utf8(id)).None?
    ensures r.Err? ==> r.error == InvalidMultihash || r.error == InvalidCidV0
  {
    match lib.multihashFromBytes(Utf8(id))
    case None => Err(InvalidMultihash)
    case Some(h) => NewV0(lib, h)
  }

  /**
   * The shared body of `get_metadata` and `get_files`: parse, reject a codec above
   * zero, load under the binary CID, and rebuild the block, which re-checks the hash.
   */
  function LoadVerified(lib: Library, s: Storage, id: string): (r: Result<seq<byte>>)
    ensures ParseV0(lib, id).Err? ==> r == Err(ParseV0(lib, id).error)
    ensures r.Ok? <==>
      var p := ParseV0(lib, id);
      && p.Ok? && p.value.codec == 0
      && BinaryKey(lib, p.value) in s
      && lib.sha256(s[BinaryKey(lib, p.value)]) == p.value.hash.digest
    ensures r.Ok? ==>
      var c := ParseV0(lib, id).value;
      r.value == s[BinaryKey(lib, c)] && ContentAddressed(lib, Block(c, r.value))
    ensures var p := ParseV0(lib, id);
            p.Ok? && p.value.codec > 0 ==> r == Err(UnsupportedCodec(p.value.codec))
    ensures var p := ParseV0(lib, id);
            p.Ok? && p.value.codec == 0 && BinaryKey(lib, p.value) !in s ==> r == Err(NotFound)
    ensures var p := ParseV0(lib, id);
            && p.Ok? && p.value.codec == 0 && BinaryKey(lib, p.value) in s
            && lib.sha256(s[BinaryKey(lib, p.value)]) != p.value.hash.digest
            ==> r == Err(HashMismatch)
    ensures r.Err? ==>
      r.error in {InvalidMultihash, InvalidCidV0, UnsupportedCodec(lib.v0Codec), NotFound, HashMismatch}
  {
    var c :- ParseV0(lib, id);
    if c.codec > 0 then
      Err(UnsupportedCodec(c.codec))
    else if BinaryKey(lib, c) !in s then
      Err(NotFound)
    else
      var b :- NewBlock(lib, c, s[BinaryKey(lib, c)]);
      Ok(b.data)
  }

  /** `get_metadata`: the verified bytes, answered as `QueryAnswer::GetMetadata`. */
  function GetMetadata(lib: Library, s: Storage, id: string): (r: Result<QueryAnswer>)
    ensures r.Ok? <==> LoadVerified(lib, s, id).Ok?
    ensures r.Ok? ==>
      var c := ParseV0(lib, id).value;
      && r.value.GetMetadata?
      && BinaryKey(lib, c) in s && r.value.data == s[BinaryKey(lib, c)]
      && ContentAddressed(lib, Block(c, r.value.data))
    ensures r.Err? ==> r.error == LoadVerified(lib, s, id).error
  {
    var data :- LoadVerified(lib, s, id);
    Ok(QueryAnswer.GetMetadata(data))
  }

  /** `get_files`: the same answer as `get_metadata`, in the `GetFile` variant. */
  function GetFiles(lib: Library, s: Storage, id: string): (r: Result<QueryAnswer>)
    ensures r.Ok? <==> GetMetadata(lib, s, id).Ok?
    ensures r.Ok? ==> r.value == QueryAnswer.GetFile(GetMetadata(lib, s, id).value.data)
    ensures r.Err? ==> r.error == GetMetadata(lib, s, id).error
  {
    var data :- LoadVerified(lib, s, id);
    Ok(QueryAnswer.GetFile(data))
  }

  /** `Extern<S, A, Q>`: the storage the contract writes, and the address API. */
  class Extern {
    var storage: Storage
    const api: string -> Option<string>

    constructor (api: string -> Option<string>, storage: Storage)
      ensures this.api == api && this.storage == storage
    {
      this.api := api;
      this.storage := storage;
    }

    /** `handle`: dispatch over the two add messages. */
    method Handle(lib: Library, env: Env, msg: HandleMsg) returns (r: Result<HandleAnswer>)
      modifies this
      ensures Outcome(r, storage) == HandleOutcome(lib, api, old(storage), env, msg)
    {
      match msg
      case AddFile(path, contentType, time, content, mode) =>
        r := AddFile(lib, env, path, contentType, time, content, mode);
      case AddMetadata(data) =>
        r := AddMetadata(lib, env, data);
    }

    /** `add_metadata`. */
    method AddMetadata(lib: Library, env: Env, data: MetadataSchema) returns (r: Result<HandleAnswer>)
      modifies this
      ensures Outcome(r, storage) == AddMetadataOutcome(lib, old(storage), data)
    {
      var links :- ParseLinks(lib, data.links);
      var block :- EncodeBlock(lib, MetadataRecord(data, links));
      var cid := lib.cidToString(block.cid);
      var callback := HandleAnswer.AddMetadata(cid);
      var id := Utf8(cid);
      storage := storage[id := block.data];
      r := Ok(callback);
    }

    /** `add_file`; `mode` is accepted and not encoded. */
    method AddFile(
      lib: Library, env: Env, path: string, contentType: string, time: u64,
      content: seq<byte>, mode: string) returns (r: Result<HandleAnswer>)
      modifies this
      ensures Outcome(r, storage) == AddFileOutcome(lib, api, old(storage), env, path, contentType, time, content, mode)
    {
      var owner: string;
      match api(env.sender) {
        case None => return Err(AddressError);
        case Some(o) => owner := o;
      }
      var block :- EncodeBlock(lib, FileRecord(owner, path, contentType, content, time));
      var cid := lib.cidToString(block.cid);
      var callback := HandleAnswer.AddFile(cid);
      var id := Utf8(cid);
      storage := storage[id := block.data];
      r := Ok(callback);
    }
  }
}
