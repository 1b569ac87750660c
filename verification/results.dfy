/**
 * Typed failures: each failure the contract can reach becomes an `Error` value, and
 * the comment on each variant names the step that raises it.
 */
module Results {

  datatype Option<+T> = None | Some(value: T)

  datatype Error =
    | InvalidLink(index: nat)        // `Cid::from_str(l).unwrap()` on the link at `index`
    | EncodingError                  // `Block::encode(..).unwrap()`
    | AddressError                   // `deps.api.canonical_address(..)?`
    | InvalidMultihash               // `MultihashGeneric::from_bytes(..).unwrap()`
    | InvalidCidV0                   // `Cid::new_v0(..).unwrap()`
    | UnsupportedCodec(codec: nat)   // `panic!` on `codec() > 0`
    | NotFound                       // `load_from_store(..)` then `result.unwrap()`
    | UnsupportedHash(code: nat)     // `IpldBlock::new(..).unwrap()`: unknown hash code
    | HashMismatch                   // `IpldBlock::new(..).unwrap()`: digest differs
    | InvalidIdentifier              // text that is not a CID (corrected getter only)

  datatype Result<+T> = Ok(value: T) | Err(error: Error) {

    predicate IsFailure() {
      Err?
    }

    function PropagateFailure<U>(): Result<U>
      requires Err?
    {
      Err(error)
    }

    function Extract(): T
      requires Ok?
    {
      value
    }
  }
}
