/** The conventional optional value, used for the answers the joystick
    library may leave out (a missing name or GUID) and for a file that
    may fail to open. */
module Wrappers {

  datatype Option<+T> = None | Some(value: T)
}
