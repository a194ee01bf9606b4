/** The Spanner client's own logging types (its internal logging namespace), reduced to an
    opaque identity.
 */
module SpannerLogging {

  /** A logger, as an opaque identity. */
  datatype Logger = Logger(id: nat)

  /** The process-wide default logger. */
  const DefaultLogger: Logger := Logger(0)
}
