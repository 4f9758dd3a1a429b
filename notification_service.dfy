/** The service facade: turns requests into registry calls and builds the replies. */
module NotificationServices {
  import Notifications
  import Grpc
  import Actors

  /** The reply to a subscribe request. */
  function Created(request: Grpc.Subscription): Grpc.Response
  {
    Grpc.Response(Grpc.Successful,
      "Successfully created subscription for user " + request.Name + " with email " + request.Email)
  }

  /** The reply to an unsubscribe request. */
  function Removed(request: Grpc.Unsubscription): Grpc.Response
  {
    Grpc.Response(Grpc.Successful, "Successfully removed subscription for email: " + request.Email)
  }

  /** The subscription a subscribe request stands for. */
  function ToSubscription(request: Grpc.Subscription): Notifications.Subscription
  {
    Notifications.Subscription(request.Email, request.Name)
  }

  class NotificationService {
    /** The actor that a proxy for the id `SubscriptionActor.ID` and the type name
        `SubscriptionActor.Name` reaches: there is one, and every call goes to it. */
    const registry: Actors.SubscriptionActor

    ghost predicate Valid()
    {
      registry.actorId == Actors.SubscriptionActor.ID
    }

    constructor (registry: Actors.SubscriptionActor)
      requires registry.actorId == Actors.SubscriptionActor.ID
      ensures this.registry == registry && Valid()
    {
      this.registry := registry;
    }

    /** Subscribes the requester with the request's email and name; always replies Successful. */
    method Subscribe(request: Grpc.Subscription) returns (r: Grpc.Response)
      requires Valid()
      modifies registry
      ensures var s := Notifications.Subscription(request.Email, request.Name);
        && registry.data == Actors.AfterSubscribe(old(registry.data), s)
        && registry.writes == old(registry.writes) + (if Actors.SubscribeSaves(old(registry.data), s) then 1 else 0)
      ensures r == Created(request) && r.Status == Grpc.Successful
    {
      var subscription := ToSubscription(request);
      registry.Subscribe(subscription);
      r := Created(request);
    }

    /** Unsubscribes the request's email; replies Successful whether or not it was subscribed. */
    method Unsubscribe(request: Grpc.Unsubscription) returns (r: Grpc.Response)
      requires Valid()
      modifies registry
      ensures registry.data == Actors.AfterUnsubscribe(old(registry.data), request.Email)
      ensures registry.writes == old(registry.writes) + (if request.Email in old(registry.data) then 1 else 0)
      ensures r == Removed(request) && r.Status == Grpc.Successful
    {
      registry.Unsubscribe(request.Email);
      r := Removed(request);
    }
  }
}
