/** The gRPC messages of the notification service's contract. */
module Grpc {

  /** The outcome reported to a caller. */
  datatype Status = Successful | Failure

  /** The reply of every service operation. */
  datatype Response = Response(Status: Status, Message: string)

  /** A request to subscribe: the subscriber's email and display name. */
  datatype Subscription = Subscription(Email: string, Name: string)

  /** A request to unsubscribe the given email. */
  datatype Unsubscription = Unsubscription(Email: string)
}
