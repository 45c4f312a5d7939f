/** Optional values, used for the optional fields of the TypeScript records
    and for JavaScript's `NaN`/`undefined` results. */
module Wrappers {

  datatype Option<+T> = None | Some(value: T)
}
