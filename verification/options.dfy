/** JavaScript's `undefined`, made explicit: a field or value that is either
    absent (`None`, standing for `undefined`) or present. */
module Options {

  datatype Option<+T> = None | Some(value: T)
}
