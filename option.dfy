/** The optional value shared by the server and the client models: Rust's `Option`. */
module Optional {

  datatype Option<+T> = None | Some(value: T)

}
