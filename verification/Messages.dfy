/** The wire messages of the replication protocol (protobuf/message.proto). */
module Messages {
  import opened Names

  datatype Option<+T> = None | Some(value: T)

  /** A transaction identifier, a Version 4 UUID string. */
  type Tid = string

  const UINT64_SIZE := 0x1_0000_0000_0000_0000

  /** Go's uint64: the conflict clock and the clock a request carries. */
  type Uint64 = n: nat | n < UINT64_SIZE

  type Byte = n: nat | n < 256

  datatype RequestType =
    | CREATE | LINK | MKDIR | RENAME | RMDIR | SETATTR | SYMLINK | UNLINK | WRITE | COPY_FILE_RANGE

  datatype Metadata = Metadata(
    relativePath: string,
    newRelativePath: string,
    mode: bv32,
    writeOffset: int,
    readOffset: int,
    writeLen: int)

  datatype Request = Request(kind: RequestType, metadata: Metadata, clock: Uint64, content: seq<Byte>)

  datatype ResponseError =
    | ERR_UNKNOWN
    | ERR_ALREADY_EXISTS
    | ERR_DOES_NOT_EXIST
    | ERR_TRANSACTION_CONFLICT
    | ERR_NOT_A_DIRECTORY
    | ERR_NOT_A_FILE
    | ERR_INVALID_MODE

  datatype Response = ACK | NACK(error: ResponseError)

  datatype Body = Req(request: Request) | Resp(response: Response)

  datatype Message = Message(tid: Tid, peer: Name, body: Body)

  /** Two requests contend when both their path fields are equal. */
  predicate SamePaths(a: Request, b: Request) {
    && a.metadata.relativePath == b.metadata.relativePath
    && a.metadata.newRelativePath == b.metadata.newRelativePath
  }
}
