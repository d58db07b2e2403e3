/** The integer vector type the chunk indices and the origin shift use. */
module Vectors {
  /** Unity.Mathematics.int2. */
  datatype Int2 = Int2(x: int, y: int)
}
