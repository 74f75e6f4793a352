/** The optional value used for the biome's range sentinel and the noise field's optional depth. */
module Wrappers {
  datatype Option<+T> = None | Some(value: T)
}
