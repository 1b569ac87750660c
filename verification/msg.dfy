/**
 * The requests and answers of the contract (`crate::msg`), and the record schema of
 * `add_metadata` (`crate::state::MetadataSchema`).
 */
module Msg {
  import opened Primitives

  /** The `env.message.sender` part of `Env`. */
  datatype Env = Env(sender: string)

  datatype MetadataSchema = MetadataSchema(
    name: string,
    description: string,
    image: string,
    links: seq<string>)

  datatype HandleMsg =
    | AddFile(path: string, contentType: string, time: u64, content: seq<byte>, mode: string)
    | AddMetadata(data: MetadataSchema)

  datatype HandleAnswer = AddFile(cid: string) | AddMetadata(cid: string)

  datatype QueryAnswer = GetMetadata(data: seq<byte>) | GetFile(data: seq<byte>)
}
