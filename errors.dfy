/** The driver's error taxonomy (one variant per failure the driver reports)
    and the Result/Option wrappers its operations return. */
module Errors {
  import opened Bus

  /** Every error an operation of the driver can surface. */
  datatype Error =
    | IoError(cause: BusError)              // a bus transaction failed; carried uninterpreted
    | UnknownSoftwareVersion(version: bv8)  // version byte is neither 0x06 nor 0x07
    | IncorrectProductNumber(number: bv8)   // product number byte is not 0x40
    | InvalidRegister                       // no register lives at the requested address
    | RegisterNotWritable                   // write attempted on a read-only register
    | ShutdownCommandNotAllowed             // STANDALONE bit sent through the generic command path
    | TouchThresholdOutOfRange              // touch threshold outside 4..=1024

  datatype Result<+T> = Ok(value: T) | Err(error: Error)

  datatype Option<+T> = None | Some(value: T)
}
