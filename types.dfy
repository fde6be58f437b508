/** Values shared by the registry model and the driver classes: the connection
    descriptor used as cache key, the two handle variants, the driver's error
    kinds and the small Option/Result wrappers that carry them. */
module Types {

  datatype Option<+T> = None | Some(value: T)

  /** A call that either returns a value or throws one of the driver's errors. */
  datatype Result<+T> = Ok(value: T) | Err(error: Error)

  /** The exceptions the driver lets escape. */
  datatype Error =
    | DriverClosed            // IllegalStateException thrown by checkClosed
    | MalformedUrl(url: string)  // SQLException from ConnectionInfo.create
    | InitFailed(url: string)    // SQLException from a new handle's init
    | HandleCloseFailed       // SQLException from closing a cached handle
    | ServicesCloseFailed     // SQLException from closing the shared QueryServices

  /** The parsed target of a connection string (quorum, port, root node, ...).
      Only its equality matters here, so it is left abstract. */
  type Target(==)

  /** A parsed connection descriptor: the cache key. `connectionless` is the
      answer of ConnectionInfo.isConnectionless(). */
  datatype ConnInfo = ConnInfo(target: Target, connectionless: bool)

  /** The two handle implementations the driver can build. */
  datatype Variant = Connectionless | TestImpl

  /** java.util.Properties, as string keys to string values. */
  type Props = map<string, string>
}
