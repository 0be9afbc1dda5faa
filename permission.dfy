/** The camera-permission chain that runs once when the scanner mounts: query
    the current status, ask again only when the status is not granted and the
    platform still allows asking, and set the error message on every path that
    ends without the camera. The provider's asynchronous replies are inputs. */
module Permission {

  const PermissionMessage := "Please grant camera permission to scan."

  /** What a call to the permission provider settled with: its promise was
      rejected, or it resolved with a status. (A reply to the request call
      carries `canAskAgain` too; the chain never reads it there.) */
  datatype Reply = Threw | Resolved(granted: bool, canAskAgain: bool)

  /** Whether the request call is issued, and whether the chain ends in the
      catch handler that sets the error message. */
  datatype Decision = Decision(asked: bool, denied: bool)

  /** The first query came back not granted, with asking again allowed. */
  predicate MayAsk(query: Reply)
  {
    query.Resolved? && !query.granted && query.canAskAgain
  }

  /** Reference verdict: the camera is available at the end of the chain when
      the first query said so, or when a permitted request granted it. */
  predicate CameraGranted(query: Reply, request: Reply)
  {
    query.Resolved?
    && (query.granted || (query.canAskAgain && request.Resolved? && request.granted))
  }

  /** The promise chain reduced to its outcome. `request` is only consulted
      when the chain actually issues the request. */
  function Decide(query: Reply, request: Reply): (d: Decision)
    ensures d.asked <==> MayAsk(query)
    ensures d.denied <==> !CameraGranted(query, request)
    ensures query.Resolved? && query.granted ==> !d.asked && !d.denied
    ensures query.Resolved? && !query.granted && !query.canAskAgain ==> !d.asked && d.denied
  {
    match query
    case Threw => Decision(false, true)
    case Resolved(granted, canAskAgain) =>
      if granted then Decision(false, false)
      else if canAskAgain then
        Decision(true, match request
                       case Threw => true
                       case Resolved(requestGranted, _) => !requestGranted)
      else Decision(false, true)
  }

  /** When no request is issued, its reply cannot influence the outcome. */
  lemma {:induction false} UnaskedRequestIrrelevant(query: Reply, request: Reply, other: Reply)
    requires !Decide(query, request).asked
    ensures Decide(query, request) == Decide(query, other)
  {
  }

  /** After a request is issued, the error is set exactly when the request
      was rejected or came back not granted. */
  lemma {:induction false} RequestOutcome(query: Reply, request: Reply)
    requires Decide(query, request).asked
    ensures Decide(query, request).denied <==> request.Threw? || !request.granted
  {
  }
}
