/** The optional value used by every other module for a nullable column or an absent reply. */
module Options {

  datatype Option<+T> = None | Some(value: T)
}
