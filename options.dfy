/** The optional value used wherever the Java code returns an Optional, a nullable
    reference, or throws on malformed input. */
module Options {
  datatype Option<+T> = None | Some(value: T)
}
