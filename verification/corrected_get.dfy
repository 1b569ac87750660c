/**
 * The getter that `get_metadata` and `get_files` evidently intend: parse the caller's
 * CID text, accept the one codec the adds produce (dag-cbor), read under the key the
 * adds write (the UTF-8 bytes of the CID text), and re-check the hash. With it, what
 * an add answers can be read back, and stays readable after any later calls.
 */
module CorrectedGet {
  import opened Primitives
  import opened Results
  import opened Libipld
  import opened Msg
  import opened Contract
  import opened StoreProperties

  function GetVerified(lib: Library, s: Storage, id: string): (r: Result<seq<byte>>)
    ensures lib.cidFromStr(id).None? ==> r == Err(InvalidIdentifier)
    ensures r.Ok? <==>
      var p := lib.cidFromStr(id);
      && p.Some? && p.value.codec == DagCbor
      && TextKey(lib, p.value) in s
      && ContentAddressed(lib, Block(p.value, s[TextKey(lib, p.value)]))
    ensures var p := lib.cidFromStr(id);
            p.Some? && p.value.codec != DagCbor ==> r == Err(UnsupportedCodec(p.value.codec))
    ensures var p := lib.cidFromStr(id);
            p.Some? && p.value.codec == DagCbor && TextKey(lib, p.value) !in s ==> r == Err(NotFound)
    ensures var p := lib.cidFromStr(id);
            && p.Some? && p.value.codec == DagCbor && TextKey(lib, p.value) in s
            && !ContentAddressed(lib, Block(p.value, s[TextKey(lib, p.value)]))
            ==> r.Err? && r.error in {UnsupportedHash(p.value.hash.code), HashMismatch}
    ensures r.Ok? ==> r.value == s[TextKey(lib, lib.cidFromStr(id).value)]
  {
    match lib.cidFromStr(id)
    case None => Err(InvalidIdentifier)
    case Some(c) =>
      if c.codec != DagCbor then
        Err(UnsupportedCodec(c.codec))
      else if TextKey(lib, c) !in s then
        Err(NotFound)
      else
        var b :- NewBlock(lib, c, s[TextKey(lib, c)]);
        Ok(b.data)
  }

  /** Every stored block can be read back by the text of its identifier. */
  lemma StoredBlockReadable(lib: Library, s: Storage, c: Cid)
    requires TextRoundTrip(lib)
    requires StoredBlock(lib, s, c)
    ensures GetVerified(lib, s, lib.cidToString(c)) == Ok(s[TextKey(lib, c)])
  {
    assert lib.cidFromStr(lib.cidToString(c)) == Some(c);
  }

  /**
   * Round trip: the identifier an add answers reads back the bytes it wrote, which
   * are the DAG-CBOR encoding of the record.
   */
  lemma AddThenGet(lib: Library, api: string -> Option<string>, s: Storage, env: Env, msg: HandleMsg)
    requires TextRoundTrip(lib)
    ensures var o := HandleOutcome(lib, api, s, env, msg);
            o.answer.Ok? ==>
              GetVerified(lib, o.storage, o.answer.value.cid) == Ok(o.storage[Utf8(o.answer.value.cid)])
  {
    var o := HandleOutcome(lib, api, s, env, msg);
    if o.answer.Ok? {
      AddStoresBlock(lib, api, s, env, msg);
      var c := DagCborCid(lib, o.storage[Utf8(o.answer.value.cid)]);
      StoredBlockReadable(lib, o.storage, c);
    }
  }

  /** The round trip survives any sequence of later calls. */
  lemma AddThenGetAfterReplay(
    lib: Library, api: string -> Option<string>, s: Storage, env: Env, msg: HandleMsg, later: seq<Call>)
    requires TextRoundTrip(lib) && CollisionFree(lib)
    ensures var o := HandleOutcome(lib, api, s, env, msg);
            o.answer.Ok? ==>
              GetVerified(lib, Replay(lib, api, o.storage, later), o.answer.value.cid)
                == Ok(o.storage[Utf8(o.answer.value.cid)])
  {
    var o := HandleOutcome(lib, api, s, env, msg);
    if o.answer.Ok? {
      AddStoresBlock(lib, api, s, env, msg);
      var c := DagCborCid(lib, o.storage[Utf8(o.answer.value.cid)]);
      ReplayKeepsStoredBlock(lib, api, o.storage, later, c);
      StoredBlockReadable(lib, Replay(lib, api, o.storage, later), c);
    }
  }
}
