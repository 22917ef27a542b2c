/** Optional values: a metadata entry that may be missing, a document the
    PDF library may fail to open, an image the canvas may not show yet. */
module Wrappers {
  datatype Option<+T> = None | Some(value: T)
}
