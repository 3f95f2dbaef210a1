/** What can go wrong in a transfer. */
module FileErrors {
  datatype FileError =
    | InvalidName(name: string)
    | TooLarge(size: int, limit: int)
    | EmptyChunk(chunkSeq: int)
    | TooManyChunks
    | IdMismatch(expected: int, got: int)
    | OutOfOrder(expected: int, got: int)
    | ChunkTooLarge(size: int, limit: int)
    | SizeOverflow(got: int, declared: int)
    | CountMismatch(expected: int, got: int)
    | SizeMismatch(declared: int, received: int)
}
