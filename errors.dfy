/**
 * The errors the scale core can surface. The source wraps the sensor library's
 * error type in `Error::Phidget`; here a sensor fault carries an opaque code.
 * `Timeout` is the error the settle loop returns when it runs out of time.
 */
module Errors {

  datatype Error =
    | Phidget(code: int)  // a fault reported by the sensor channel, passed on unchanged
    | Timeout             // the settle loop exceeded its deadline without converging
}
