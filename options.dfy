/** Optional values: TypeScript's `T | null` and `T | undefined` fields and parameters. */
module Options {

  datatype Option<T> = None | Some(value: T)

}
