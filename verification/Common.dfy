/** Small shared types. */
module Common {

  datatype Option<+T> = None | Some(value: T)

  type Byte = bv8

  function MinOf(a: int, b: int): int {
    if a < b then a else b
  }

  function MaxOf(a: int, b: int): int {
    if a > b then a else b
  }

  /** `data` copied over `s` at `at`. */
  function Splice(s: seq<Byte>, at: nat, data: seq<Byte>): (r: seq<Byte>)
    requires at + |data| <= |s|
    ensures |r| == |s|
  {
    s[..at] + data + s[at + |data|..]
  }
}
