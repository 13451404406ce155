/**
 * Values shared by the three components: the location record that the
 * inference service returns and that travels from the upload step, through
 * the wizard, to the map, and a small Option type.
 */
module Common {

  datatype Option<+T> = None | Some(value: T)

  /**
   * One predicted location. The source's numbers are JavaScript doubles;
   * here they are reals (no rounding is modelled).
   */
  datatype Location = Location(latitude: real, longitude: real, confidence: real)
}
