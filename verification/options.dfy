/** The optional value used throughout the model: `None` plays the part of
    JavaScript's `null` / `undefined` where the server stores "nothing". */
module Options {

  datatype Option<+T> = None | Some(value: T)
}
