/** Values shared by every part of the simulation model. */
module Common {

  /** The Python `None` / value pair used by the geometry and perception code. */
  datatype Option<T> = None | Some(value: T)

  /**
   * The transcendental numerics of numpy, which the model does not define:
   * `np.cos`, `np.sin`, `np.sqrt`, the logistic sigmoid `1 / (1 + exp(-x))`,
   * `np.tanh`, and the number pi (used for the default field of view and
   * turning speed). Every property proved here holds whatever these are.
   */
  datatype Numerics = Numerics(
    pi: real,
    cos: real -> real,
    sin: real -> real,
    sqrt: real -> real,
    sigmoid: real -> real,
    tanh: real -> real)
}
