/** Physical unit conversions shared by the estimator and the command-line tool. */
module Units {

  /** One kilowatt-hour is 3 600 000 joules. */
  const JoulesPerKwh: real := 3600000.0
}
