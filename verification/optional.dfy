/** Kotlin's nullable values (`String?`, `List<String>?`) as an explicit option. */
module Optional {

  datatype Option<+T> = None | Some(value: T)

}
