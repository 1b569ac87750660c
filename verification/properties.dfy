/**
 * What the adds and the getters of `src/contract.rs` guarantee together: failure
 * handling, idempotence, the irrelevance of `mode`, immutability of written blocks,
 * distinct records getting distinct identifiers, and tamper detection on read.
 * Hypotheses about the library (lossless CID text, collision-free hash, injective
 * encoder) appear as explicit `requires`.
 */
module StoreProperties {
  import opened Primitives
  import opened Results
  import opened Libipld
  import opened Msg
  import opened Contract

  /** `s` holds, under the text key of `c`, bytes whose DAG-CBOR CIDv1 is `c`. */
  ghost predicate StoredBlock(lib: Library, s: Storage, c: Cid)
  {
    TextKey(lib, c) in s && c == DagCborCid(lib, s[TextKey(lib, c)])
  }

  /** One call to `handle`. */
  datatype Call = Call(env: Env, msg: HandleMsg)

  /** The storage after one `handle` call. */
  function Step(lib: Library, api: string -> Option<string>, s: Storage, call: Call): Storage
  {
    HandleOutcome(lib, api, s, call.env, call.msg).storage
  }

  /** The storage after a sequence of `handle` calls, failed ones included. */
  function Replay(lib: Library, api: string -> Option<string>, s: Storage, calls: seq<Call>): Storage
    decreases |calls|
  {
    if calls == [] then s else Replay(lib, api, Step(lib, api, s, calls[0]), calls[1..])
  }

  /** The first link that does not parse is the one reported, and nothing is written. */
  lemma AddMetadataStopsAtFirstBadLink(lib: Library, s: Storage, data: MetadataSchema, i: nat)
    requires i < |data.links| && lib.cidFromStr(data.links[i]).None?
    requires forall j :: 0 <= j < i ==> lib.cidFromStr(data.links[j]).Some?
    ensures AddMetadataOutcome(lib, s, data) == Outcome(Err(InvalidLink(i)), s)
  {
  }

  /** `mode` is not encoded: adds differing only in `mode` answer and write the same. */
  lemma AddFileIgnoresMode(
    lib: Library, api: string -> Option<string>, s: Storage, env: Env,
    path: string, contentType: string, time: u64, content: seq<byte>, mode1: string, mode2: string)
    ensures AddFileOutcome(lib, api, s, env, path, contentType, time, content, mode1)
         == AddFileOutcome(lib, api, s, env, path, contentType, time, content, mode2)
  {
  }

  /** Repeating an add answers the same identifier and leaves the storage as it was. */
  lemma AddMetadataRepeated(lib: Library, s: Storage, data: MetadataSchema)
    ensures var o1 := AddMetadataOutcome(lib, s, data);
            var o2 := AddMetadataOutcome(lib, o1.storage, data);
            o2 == o1
  {
  }

  lemma AddFileRepeated(
    lib: Library, api: string -> Option<string>, s: Storage, env: Env,
    path: string, contentType: string, time: u64, content: seq<byte>, mode: string)
    ensures var o1 := AddFileOutcome(lib, api, s, env, path, contentType, time, content, mode);
            var o2 := AddFileOutcome(lib, api, o1.storage, env, path, contentType, time, content, mode);
            o2 == o1
  {
  }

  /** A write of a content-addressed block never changes a block already stored. */
  lemma WriteKeepsStoredBlock(lib: Library, s0: Storage, s1: Storage, id: string, record: Ipld, c: Cid)
    requires TextRoundTrip(lib) && CollisionFree(lib)
    requires WroteBlock(lib, s0, s1, id, record)
    requires StoredBlock(lib, s0, c)
    ensures StoredBlock(lib, s1, c) && s1[TextKey(lib, c)] == s0[TextKey(lib, c)]
  {
    var key := TextKey(lib, c);
    if key == Utf8(id) {
      var d := DagCborCid(lib, s1[key]);
      Utf8Injective(lib.cidToString(c), id);
      TextInjective(lib, c, d);
      assert lib.sha256(s0[key]) == c.hash.digest == lib.sha256(s1[key]);
    }
  }

  /** What an add answers names a block it stored. */
  lemma AddStoresBlock(lib: Library, api: string -> Option<string>, s: Storage, env: Env, msg: HandleMsg)
    ensures var o := HandleOutcome(lib, api, s, env, msg);
            o.answer.Ok? ==>
              var key := Utf8(o.answer.value.cid);
              key in o.storage && StoredBlock(lib, o.storage, DagCborCid(lib, o.storage[key]))
              && TextKey(lib, DagCborCid(lib, o.storage[key])) == key
  {
  }

  /** Immutability: no call to `handle` alters a block already stored. */
  lemma HandleKeepsStoredBlock(lib: Library, api: string -> Option<string>, s: Storage, env: Env, msg: HandleMsg, c: Cid)
    requires TextRoundTrip(lib) && CollisionFree(lib)
    requires StoredBlock(lib, s, c)
    ensures var o := HandleOutcome(lib, api, s, env, msg);
            StoredBlock(lib, o.storage, c) && o.storage[TextKey(lib, c)] == s[TextKey(lib, c)]
  {
    var o := HandleOutcome(lib, api, s, env, msg);
    if o.answer.Ok? {
      match msg
      case AddFile(path, contentType, time, content, mode) =>
        WriteKeepsStoredBlock(lib, s, o.storage, o.answer.value.cid,
          FileRecord(api(env.sender).value, path, contentType, content, time), c);
      case AddMetadata(data) =>
        WriteKeepsStoredBlock(lib, s, o.storage, o.answer.value.cid,
          MetadataRecord(data, ParseLinks(lib, data.links).value), c);
    }
  }

  /** Immutability over any sequence of calls: a stored block keeps its bytes. */
  lemma {:induction false} ReplayKeepsStoredBlock(lib: Library, api: string -> Option<string>, s: Storage, calls: seq<Call>, c: Cid)
    requires TextRoundTrip(lib) && CollisionFree(lib)
    requires StoredBlock(lib, s, c)
    ensures var s' := Replay(lib, api, s, calls);
            StoredBlock(lib, s', c) && s'[TextKey(lib, c)] == s[TextKey(lib, c)]
    decreases |calls|
  {
    if calls != [] {
      var s1 := Step(lib, api, s, calls[0]);
      HandleKeepsStoredBlock(lib, api, s, calls[0].env, calls[0].msg, c);
      ReplayKeepsStoredBlock(lib, api, s1, calls[1..], c);
    }
  }

  /** Blocks with different bytes have different identifiers and different keys. */
  lemma DistinctBytesDistinctIds(lib: Library, d1: seq<byte>, d2: seq<byte>)
    requires TextRoundTrip(lib) && CollisionFree(lib)
    requires d1 != d2
    ensures lib.cidToString(DagCborCid(lib, d1)) != lib.cidToString(DagCborCid(lib, d2))
    ensures TextKey(lib, DagCborCid(lib, d1)) != TextKey(lib, DagCborCid(lib, d2))
  {
    var c1, c2 := DagCborCid(lib, d1), DagCborCid(lib, d2);
    assert c1.hash.digest != c2.hash.digest;
    TextInjective(lib, c1, c2);
    Utf8Injective(lib.cidToString(c1), lib.cidToString(c2));
  }

  lemma LinkListsDiffer(data1: MetadataSchema, links1: seq<Cid>, data2: MetadataSchema, links2: seq<Cid>)
    requires links1 != links2
    ensures MetadataRecord(data1, links1) != MetadataRecord(data2, links2)
  {
    var l1 := MetadataRecord(data1, links1).fields["links"].items;
    var l2 := MetadataRecord(data2, links2).fields["links"].items;
    if |links1| == |links2| {
      var i :| 0 <= i < |links1| && links1[i] != links2[i];
      assert l1[i] != l2[i];
    }
  }

  /**
   * Distinctness for `add_metadata`: records that differ in a field, or whose links
   * name different CIDs, get different identifiers and different keys.
   */
  lemma DistinctMetadataDistinctIds(lib: Library, s1: Storage, s2: Storage, data1: MetadataSchema, data2: MetadataSchema)
    requires TextRoundTrip(lib) && CollisionFree(lib) && EncodeInjective(lib)
    requires AddMetadataOutcome(lib, s1, data1).answer.Ok? && AddMetadataOutcome(lib, s2, data2).answer.Ok?
    requires || data1.name != data2.name
             || data1.description != data2.description
             || data1.image != data2.image
             || ParseLinks(lib, data1.links).value != ParseLinks(lib, data2.links).value
    ensures var id1 := AddMetadataOutcome(lib, s1, data1).answer.value.cid;
            var id2 := AddMetadataOutcome(lib, s2, data2).answer.value.cid;
            id1 != id2 && Utf8(id1) != Utf8(id2)
  {
    var o1, o2 := AddMetadataOutcome(lib, s1, data1), AddMetadataOutcome(lib, s2, data2);
    var links1, links2 := ParseLinks(lib, data1.links).value, ParseLinks(lib, data2.links).value;
    var r1, r2 := MetadataRecord(data1, links1), MetadataRecord(data2, links2);
    if links1 != links2 {
      LinkListsDiffer(data1, links1, data2, links2);
    } else {
      assert r1.fields["name"] != r2.fields["name"]
          || r1.fields["description"] != r2.fields["description"]
          || r1.fields["image"] != r2.fields["image"];
    }
    var b1, b2 := o1.storage[Utf8(o1.answer.value.cid)], o2.storage[Utf8(o2.answer.value.cid)];
    assert lib.dagCbor(r1) == Some(b1) && lib.dagCbor(r2) == Some(b2);
    assert b1 != b2;
    DistinctBytesDistinctIds(lib, b1, b2);
  }

  /**
   * Distinctness for `add_file`: records that differ in owner, path, type, content or
   * time get different identifiers and different keys (whatever the two modes).
   */
  lemma DistinctFilesDistinctIds(
    lib: Library, api: string -> Option<string>, s1: Storage, s2: Storage, env1: Env, env2: Env,
    path1: string, type1: string, time1: u64, content1: seq<byte>, mode1: string,
    path2: string, type2: string, time2: u64, content2: seq<byte>, mode2: string)
    requires TextRoundTrip(lib) && CollisionFree(lib) && EncodeInjective(lib)
    requires AddFileOutcome(lib, api, s1, env1, path1, type1, time1, content1, mode1).answer.Ok?
    requires AddFileOutcome(lib, api, s2, env2, path2, type2, time2, content2, mode2).answer.Ok?
    requires || api(env1.sender) != api(env2.sender)
             || path1 != path2 || type1 != type2 || time1 != time2 || content1 != content2
    ensures var id1 := AddFileOutcome(lib, api, s1, env1, path1, type1, time1, content1, mode1).answer.value.cid;
            var id2 := AddFileOutcome(lib, api, s2, env2, path2, type2, time2, content2, mode2).answer.value.cid;
            id1 != id2 && Utf8(id1) != Utf8(id2)
  {
    var o1 := AddFileOutcome(lib, api, s1, env1, path1, type1, time1, content1, mode1);
    var o2 := AddFileOutcome(lib, api, s2, env2, path2, type2, time2, content2, mode2);
    var r1 := FileRecord(api(env1.sender).value, path1, type1, content1, time1);
    var r2 := FileRecord(api(env2.sender).value, path2, type2, content2, time2);
    assert r1.fields["owner"] != r2.fields["owner"] || r1.fields["path"] != r2.fields["path"]
        || r1.fields["type"] != r2.fields["type"] || r1.fields["time"] != r2.fields["time"]
        || r1.fields["content"] != r2.fields["content"];
    var b1, b2 := o1.storage[Utf8(o1.answer.value.cid)], o2.storage[Utf8(o2.answer.value.cid)];
    assert lib.dagCbor(r1) == Some(b1) && lib.dagCbor(r2) == Some(b2);
    assert b1 != b2;
    DistinctBytesDistinctIds(lib, b1, b2);
  }

  /** Tamper detection: bytes replaced under the key a get reads are never returned. */
  lemma TamperDetected(lib: Library, s: Storage, id: string, forged: seq<byte>)
    requires ParseV0(lib, id).Ok? && ParseV0(lib, id).value.codec == 0
    requires lib.sha256(forged) != ParseV0(lib, id).value.hash.digest
    ensures var t := s[BinaryKey(lib, ParseV0(lib, id).value) := forged];
            && Contract.GetMetadata(lib, t, id) == Err(HashMismatch)
            && GetFiles(lib, t, id) == Err(HashMismatch)
  {
  }

  /**
   * As written, a get can never answer: a CIDv0 records the dag-pb codec, which is
   * above zero, so every identifier that parses is then rejected.
   */
  lemma AsWrittenGetsNeverAnswer(lib: Library, s: Storage, id: string)
    requires lib.v0Codec == DagPb
    ensures Contract.GetMetadata(lib, s, id).Err? && GetFiles(lib, s, id).Err?
    ensures Contract.GetMetadata(lib, s, id).error in {InvalidMultihash, InvalidCidV0, UnsupportedCodec(DagPb)}
    ensures ParseV0(lib, id).Ok? ==>
      && Contract.GetMetadata(lib, s, id) == Err(UnsupportedCodec(DagPb))
      && GetFiles(lib, s, id) == Err(UnsupportedCodec(DagPb))
  {
  }

  /**
   * Add-then-get as written holds if the keys agree: the caller's text parses to a
   * CIDv0 with codec 0, whose binary form equals the text key the add wrote and
   * whose digest is the block's. Nothing in the contract provides this.
   */
  lemma AddMetadataThenGetIfKeysAgree(lib: Library, s: Storage, data: MetadataSchema, id: string)
    requires AddMetadataOutcome(lib, s, data).answer.Ok?
    requires var written := AddMetadataOutcome(lib, s, data).answer.value.cid;
             && ParseV0(lib, id).Ok? && ParseV0(lib, id).value.codec == 0
             && BinaryKey(lib, ParseV0(lib, id).value) == Utf8(written)
             && ParseV0(lib, id).value.hash == DagCborCid(lib, AddMetadataOutcome(lib, s, data).storage[Utf8(written)]).hash
    ensures var o := AddMetadataOutcome(lib, s, data);
            Contract.GetMetadata(lib, o.storage, id) == Ok(QueryAnswer.GetMetadata(o.storage[Utf8(o.answer.value.cid)]))
  {
  }

  /**
   * Conversely, when a get as written answers the bytes an add wrote, the caller's
   * text parsed to a codec-0 CIDv0 with the block's SHA-256 multihash, and the
   * binary key it read holds those same bytes.
   */
  lemma AddMetadataThenGetOnlyIf(lib: Library, s: Storage, data: MetadataSchema, id: string)
    requires AddMetadataOutcome(lib, s, data).answer.Ok?
    requires var o := AddMetadataOutcome(lib, s, data);
             Contract.GetMetadata(lib, o.storage, id) == Ok(QueryAnswer.GetMetadata(o.storage[Utf8(o.answer.value.cid)]))
    ensures var o := AddMetadataOutcome(lib, s, data);
            var written := o.storage[Utf8(o.answer.value.cid)];
            && ParseV0(lib, id).Ok? && ParseV0(lib, id).value.codec == 0
            && BinaryKey(lib, ParseV0(lib, id).value) in o.storage
            && o.storage[BinaryKey(lib, ParseV0(lib, id).value)] == written
            && ParseV0(lib, id).value.hash == DagCborCid(lib, written).hash
  {
  }
}
