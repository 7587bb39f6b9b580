/// Shared vocabulary: optional values, the error kinds the tool surfaces,
/// and a result type carrying them.
module Base {

  datatype Option<T> = None | Some(value: T)

  /** The errors the tool returns through `Result`.  `Panic` stands for a
      Rust panic (an `unwrap` of `None`, an index out of bounds, an
      arithmetic underflow): it is not a value the program can inspect, so
      every caller that meets it stops. */
  datatype Error =
    | ReadFailed                     // fs::read_to_string failed
    | YamlInvalid                    // serde_yaml::from_str rejected the text
    | ConfigParsing(details: string) // boards::ConfigParsingError
    | Ykmd(details: string)          // ykcmd::YkmdError
    | Panic(reason: string)

  datatype Result<T> = Ok(value: T) | Err(error: Error)

  const UNWRAP_NONE := "called `Option::unwrap()` on a `None` value"

  /** Regrouping a concatenation; the loops over call logs use it to move
      one step's events from what is left to what is done. */
  lemma AppendAssociative<T>(a: seq<T>, b: seq<T>, c: seq<T>)
    ensures a + (b + c) == (a + b) + c
  {
  }
}
