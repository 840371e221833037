/** Optional values, and the failures the engine's operations can end in.

    The Python code signals failure by raising: an `assert` that does not hold,
    a `struct.error` from a short fixed-width read, a `ValueError` from an
    unknown chunk tag, a `UnicodeDecodeError` from a non-ASCII tag, a
    `ZeroDivisionError`, a `KeyError`, a `StopIteration` that escapes. Each such point becomes one `Error` value here, and an
    operation that can raise returns a `Result`. */
module Outcomes {

  datatype Option<+T> = None | Some(value: T)

  /** One constructor per distinct way an operation can abort. */
  datatype Error =
    | NotAscii           // a tag byte is not 7-bit ASCII (bytes.decode("ascii"))
    | UnknownTag         // four characters that name no ChunkType
    | ShortSize          // fewer than 4 bytes where a u32 size was expected
    | SizeOutOfRange     // write_size given a value outside [0, 2^32)
    | NotWriter          // a writer operation on a reader-mode RIFF interface
    | NotReader          // a reader operation on a writer-mode RIFF interface
    | ContainerWrite     // RiffInterface.write given a RIFF or LIST chunk
    | MissingHeader      // a RIFF reader found no chunk at all
    | NotRiff            // the first chunk of a RIFF reader is not RIFF
    | ChunkCount         // a WAVE file without exactly two chunks
    | NotFormatChunk     // the first WAVE chunk is not 'fmt '
    | FormatSize         // the 'fmt ' chunk's size is not 16
    | MissingData        // a leaf chunk without payload bytes
    | BadBitrate         // validate_header failed
    | NotDataChunk       // the second WAVE chunk is not 'data'
    | BitsNotBytes       // bits_per_sample is not a multiple of 8
    | DivisionByZero     // a ZeroDivisionError
    | UnevenSamples      // the data size is not a whole number of sample tuples
    | Not16Bit           // sample streaming needs 2-byte samples
    | OddBits            // channels * bits_per_sample is not a multiple of 8
    | FieldOutOfRange    // a derived format field does not fit its field width
    | ShortRead          // fewer than 2 bytes where an int16 sample was expected
    | NotFuture          // call_at given a time that is not after the clock's time
    | NegativeIndex      // a note index below zero
    | UnknownShape       // a shape value that names no WaveShape
    | UnknownFactory     // register_dynamic given a factory name nobody registered
    | Exhausted          // StopIteration from a source past its stop time
    | SampleOutOfRange   // a sample that does not fit a signed 16-bit field

  datatype Result<+T> = Ok(value: T) | Fail(error: Error)
}
