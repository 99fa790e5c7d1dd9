/** Types shared by every part of the model. */
module Common {

  /** An optional value: a nullable column or an optional field. */
  datatype Option<+T> = None | Some(value: T)

  /** A text key.  Keys are only ever compared, so a number stands for the text; the order of numbers
      stands for the order of texts.  Request validation refuses empty keys, so no key is special. */
  type Id = nat

  /** A time as the code stores it: ISO texts of one format compare as their instants do. */
  type Time = nat
}
