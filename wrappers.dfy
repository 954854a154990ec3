/** The conventional optional value, used for absent headers, an absent
    request identifier and the omitted JSON `reason` field. */
module Wrappers {

  datatype Option<+T> = None | Some(value: T)
}
