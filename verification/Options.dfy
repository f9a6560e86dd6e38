/** The JavaScript `string | null` results of the components, as an option type. */
module Options {

  datatype Option<+T> = None | Some(value: T)
}
