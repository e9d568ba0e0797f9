/** Small value types shared by the model of the induction-machine user model. */
module Common {

  /** The outcome of a best-effort conversion that may fail. */
  datatype Option<+T> = None | Some(value: T)

  /**
   * A complex number. The electrical state of the machine (fluxes, their
   * derivatives, voltages and currents) is kept as complex values; the model
   * only moves them around, adds them and scales them by reals.
   */
  datatype Complex = Complex(re: real, im: real)

  const Zero: Complex := Complex(0.0, 0.0)

  function Add(a: Complex, b: Complex): Complex
  {
    Complex(a.re + b.re, a.im + b.im)
  }

  function Scale(k: real, a: Complex): Complex
  {
    Complex(k * a.re, k * a.im)
  }
}
