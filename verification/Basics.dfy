/** Value types shared by every part of the model. */
module Basics {
  datatype Option<+T> = None | Some(value: T)

  newtype Byte = x: int | 0 <= x < 256

  /** File contents. A file's identity (digest and size) is represented by its contents. */
  type Content = seq<Byte>

  /** A relative path as its components; a component is its UTF-8 bytes. */
  type Name = seq<Byte>
  type Path = seq<Name>

  type Digest = string
}
