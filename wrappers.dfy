/** Swift's optionals (`NSImage?`, `Int?`, a filter's `outputImage`). */
module Wrappers {

  datatype Option<+T> = None | Some(value: T)
}
