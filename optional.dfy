/** The optional-value container that the result type hands back from its
    inspection accessors. Only its two constructors are part of this model. */
module Optional {

  /** Either a present value (`Some`) or nothing (`None`). */
  datatype Option<X> = None | Some(value: X)
}
