/** Failure-carrying values shared by every day.
    The Rust code either returns `Err(..)` from a `FromStr`/parse step or
    panics (an `unwrap` on `None`, an out-of-range index, an `assert!`).
    Both are fatal in the program; the model keeps them apart. */
module Outcomes {

  datatype Option<+T> = None | Some(value: T)

  /** `Err` is an error value the Rust code returns; `Panic` is a crash. */
  datatype Result<+T> = Ok(value: T) | Err(msg: string) | Panic(msg: string)
}
