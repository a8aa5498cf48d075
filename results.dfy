/** Optional values, results and the errors the Llama fast tokenizer raises. */
module Results {

  /** A value that may be absent (Python's `None`). */
  datatype Option<+T> = None | Some(value: T)

  /** The exceptions raised by the tokenizer, as values. */
  datatype TokenizerError =
    | RoleOrder               // ValueError: roles after the system message must alternate user/assistant
    | CannotSaveSlowTokenizer // ValueError: no vocabulary file to save a slow tokenizer from

  /** Either a value or the error the source would have raised. */
  datatype Result<+T> = Ok(value: T) | Err(error: TokenizerError)
}
