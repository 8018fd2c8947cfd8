/** The optional values the calculator brain traffics in: Swift's `Double?`,
    `PendingBinaryOperation?` and `String?` all become `Option`. */
module Wrappers {

  datatype Option<+T> = None | Some(value: T)
}
