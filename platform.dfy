/**
 * The library functions the core calls but the model does not open, passed
 * in as functions: SHA-256 of a string's UTF-8 bytes (`hashlib`), reading a
 * decimal string as a float (`float(str)`) and reading an ISO 8601 timestamp
 * (`datetime.fromisoformat`), where `None` means the call raises ValueError.
 */
module Platform {
  import opened Wrappers
  import opened Models

  datatype Env = Env(
    sha256: string -> Digest,
    parseFloat: string -> Option<real>,
    fromIsoFormat: string -> Option<Date>)
}
