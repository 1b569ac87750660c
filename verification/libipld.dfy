/**
 * The parts of the `libipld` crate (and the `cid` and `multihash` crates beneath it)
 * that the contract calls. Byte layouts and hash functions are not modelled: they are
 * the function-valued fields of `Library`, about which nothing is known except what
 * a lemma states as an explicit hypothesis (`TextRoundTrip`, `CollisionFree`,
 * `EncodeInjective`). What the contract relies on around them (how a CID is built
 * from a digest, when a CIDv0 can be formed, when `Block::new` accepts bytes) is
 * modelled here.
 */
module Libipld {
  import opened Primitives
  import opened Results

  /** Multicodec codes that occur in the contract. */
  const Sha2_256: nat := 0x12
  const DagPb: nat := 0x70
  const DagCbor: nat := 0x71

  datatype Multihash = Multihash(code: nat, digest: seq<byte>)

  datatype Version = V0 | V1

  datatype Cid = Cid(version: Version, codec: nat, hash: Multihash)

  /** The IPLD data model (`libipld::ipld::Ipld`); floats are not modelled. */
  datatype Ipld =
    | Null
    | Bool(b: bool)
    | Integer(i: int)
    | String(s: string)
    | Bytes(bytes: seq<byte>)
    | List(items: seq<Ipld>)
    | Map(fields: map<string, Ipld>)
    | Link(cid: Cid)

  /** `Block<DefaultParams>`: an identifier and the bytes it names. */
  datatype Block = Block(cid: Cid, data: seq<byte>)

  /**
   * The library functions whose definitions lie outside this model:
   * `dagCbor` is `DagCborCodec.encode` (None when encoding fails), `sha256` the
   * SHA-256 digest, `cidToString`/`cidFromStr` the CID text form (`to_string`,
   * `Cid::from_str`), `cidToBytes` the CID binary form (`to_bytes`),
   * `multihashFromBytes` is `MultihashGeneric::from_bytes`, and `v0Codec` the
   * codec that `Cid::new_v0` records.
   */
  datatype Library = Library(
    dagCbor: Ipld -> Option<seq<byte>>,
    sha256: seq<byte> -> seq<byte>,
    cidToString: Cid -> string,
    cidFromStr: string -> Option<Cid>,
    cidToBytes: Cid -> seq<byte>,
    multihashFromBytes: seq<byte> -> Option<Multihash>,
    v0Codec: nat)

  /** The CIDv1 that `Block::encode(DagCborCodec, Code::Sha2_256, ..)` gives `data`. */
  function DagCborCid(lib: Library, data: seq<byte>): Cid
  {
    Cid(V1, DagCbor, Multihash(Sha2_256, lib.sha256(data)))
  }

  /** A block whose identifier is the SHA-256 digest of its own bytes. */
  ghost predicate ContentAddressed(lib: Library, b: Block)
  {
    b.cid.hash.code == Sha2_256 && b.cid.hash.digest == lib.sha256(b.data)
  }

  /** `Block::<DefaultParams>::encode(DagCborCodec, Code::Sha2_256, payload)`. */
  function EncodeBlock(lib: Library, payload: Ipld): (r: Result<Block>)
    ensures r.Ok? <==> lib.dagCbor(payload).Some?
    ensures r.Ok? ==> lib.dagCbor(payload) == Some(r.value.data)
    ensures r.Ok? ==> ContentAddressed(lib, r.value)
    ensures r.Ok? ==> r.value.cid.version == V1 && r.value.cid.codec == DagCbor
    ensures r.Err? ==> r.error == EncodingError
  {
    match lib.dagCbor(payload)
    case None => Err(EncodingError)
    case Some(data) => Ok(Block(DagCborCid(lib, data), data))
  }

  /**
   * `IpldBlock::new(cid, data)`: accepts the pair only when the digest of `data`
   * under the CID's hash code equals the CID's digest. Of the codes `DefaultParams`
   * knows, only SHA-256 is modelled.
   */
  function NewBlock(lib: Library, cid: Cid, data: seq<byte>): (r: Result<Block>)
    ensures r.Ok? <==> ContentAddressed(lib, Block(cid, data))
    ensures r.Ok? ==> r.value == Block(cid, data)
    ensures r.Err? && cid.hash.code == Sha2_256 ==> r.error == HashMismatch
  {
    if cid.hash.code != Sha2_256 then Err(UnsupportedHash(cid.hash.code))
    else if lib.sha256(data) != cid.hash.digest then Err(HashMismatch)
    else Ok(Block(cid, data))
  }

  /** `Cid::new_v0(h)`: only a 32-byte SHA-256 multihash forms a CIDv0. */
  function NewV0(lib: Library, h: Multihash): (r: Result<Cid>)
    ensures r.Ok? <==> h.code == Sha2_256 && |h.digest| == 32
    ensures r.Ok? ==> r.value.version == V0 && r.value.hash == h && r.value.codec == lib.v0Codec
    ensures r.Err? ==> r.error == InvalidCidV0
  {
    if h.code != Sha2_256 || |h.digest| != 32 then Err(InvalidCidV0)
    else Ok(Cid(V0, lib.v0Codec, h))
  }

  /** The text form is lossless: parsing the text of a CID gives the CID back. */
  ghost predicate TextRoundTrip(lib: Library)
  {
    forall c :: lib.cidFromStr(lib.cidToString(c)) == Some(c)
  }

  /** The idealised hash: distinct inputs have distinct digests. */
  ghost predicate CollisionFree(lib: Library)
  {
    forall a, b :: lib.sha256(a) == lib.sha256(b) ==> a == b
  }

  /** The canonical encoding: distinct encodable values have distinct bytes. */
  ghost predicate EncodeInjective(lib: Library)
  {
    forall x, y :: lib.dagCbor(x).Some? && lib.dagCbor(x) == lib.dagCbor(y) ==> x == y
  }

  /** Under a lossless text form, distinct CIDs have distinct texts. */
  lemma TextInjective(lib: Library, c: Cid, d: Cid)
    requires TextRoundTrip(lib)
    ensures lib.cidToString(c) == lib.cidToString(d) ==> c == d
  {
    assert lib.cidFromStr(lib.cidToString(c)) == Some(c);
    assert lib.cidFromStr(lib.cidToString(d)) == Some(d);
  }
}
