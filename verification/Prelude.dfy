/** Small shared vocabulary: identifiers and options. */
module Prelude {

  type NodeId = nat
  type ShardId = nat

  datatype Option<+T> = None | Some(value: T)
}
