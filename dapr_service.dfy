/** The application callback that the Dapr sidecar invokes: one entry point that routes
    each call by its method name and converts the payloads. */
module DaprServices {
  import Grpc
  import Proto
  import Actors
  import NotificationServices

  datatype InvokeRequest = InvokeRequest(Method: string, Data: Proto.Any)
  datatype InvokeResponse = InvokeResponse(Data: Proto.Any)

  datatype Empty = Empty
  datatype ListInputBindingsResponse = ListInputBindingsResponse(Bindings: seq<string>)
  datatype TopicSubscription = TopicSubscription(PubsubName: string, Topic: string)
  datatype ListTopicSubscriptionsResponse = ListTopicSubscriptionsResponse(Subscriptions: seq<TopicSubscription>)

  /** Where a method name is routed. */
  datatype Route = SubscribeRoute | UnsubscribeRoute | UnexpectedRoute

  /** Exact, case-sensitive matching of the two routed names; everything else is unexpected. */
  function RouteOf(name: string): (r: Route)
    ensures r == SubscribeRoute <==> name == "Subscribe"
    ensures r == UnsubscribeRoute <==> name == "Unsubscribe"
    ensures r == UnexpectedRoute <==> name != "Subscribe" && name != "Unsubscribe"
  {
    match name
    case "Subscribe" => SubscribeRoute
    case "Unsubscribe" => UnsubscribeRoute
    case _ => UnexpectedRoute
  }

  /** The reply to a method name that is not routed. */
  function Unexpected(name: string): Grpc.Response
  {
    Grpc.Response(Grpc.Failure, "Unexpected service method: " + name)
  }

  /** The failure reply names the method: it is the fixed prefix followed by the name. */
  lemma UnexpectedNamesMethod(name: string)
    ensures Unexpected(name).Status == Grpc.Failure
    ensures var msg := Unexpected(name).Message;
      |msg| == |"Unexpected service method: "| + |name|
      && msg[..|"Unexpected service method: "|] == "Unexpected service method: "
      && msg[|"Unexpected service method: "|..] == name
  {
  }

  /** Names that differ from the routed ones only in case, and the notification method
      that is not routed here, all fall to the failure reply. */
  lemma UnroutedNames()
    ensures RouteOf("Notify") == UnexpectedRoute
    ensures RouteOf("subscribe") == UnexpectedRoute
    ensures RouteOf("unsubscribe") == UnexpectedRoute
  {
  }

  /** No input bindings, whatever the request. */
  function ListInputBindings(request: Empty): (r: ListInputBindingsResponse)
    ensures r.Bindings == []
  {
    ListInputBindingsResponse([])
  }

  /** No topic subscriptions, whatever the request. */
  function ListTopicSubscriptions(request: Empty): (r: ListTopicSubscriptionsResponse)
    ensures r.Subscriptions == []
  {
    ListTopicSubscriptionsResponse([])
  }

  /** What a routed subscribe call did: a payload that does not decode faults the call
      before the registry is reached; otherwise the registry took the subscription and
      the encoded reply is returned. */
  ghost predicate SubscribeOutcome(
    before: Actors.Registry, writesBefore: nat, after: Actors.Registry, writesAfter: nat,
    payload: Proto.Any, r: Proto.Result<InvokeResponse>)
  {
    match Proto.SubscriptionFromAny(payload)
    case Err(e) => r == Proto.Err(e) && after == before && writesAfter == writesBefore
    case Ok(request) =>
      var s := NotificationServices.ToSubscription(request);
      && after == Actors.AfterSubscribe(before, s)
      && writesAfter == writesBefore + (if Actors.SubscribeSaves(before, s) then 1 else 0)
      && r == Proto.Ok(InvokeResponse(Proto.ResponseToAny(NotificationServices.Created(request))))
  }

  /** The same for a routed unsubscribe call. */
  ghost predicate UnsubscribeOutcome(
    before: Actors.Registry, writesBefore: nat, after: Actors.Registry, writesAfter: nat,
    payload: Proto.Any, r: Proto.Result<InvokeResponse>)
  {
    match Proto.UnsubscriptionFromAny(payload)
    case Err(e) => r == Proto.Err(e) && after == before && writesAfter == writesBefore
    case Ok(request) =>
      && after == Actors.AfterUnsubscribe(before, request.Email)
      && writesAfter == writesBefore + (if request.Email in before then 1 else 0)
      && r == Proto.Ok(InvokeResponse(Proto.ResponseToAny(NotificationServices.Removed(request))))
  }

  class DaprService {
    const notificationService: NotificationServices.NotificationService

    constructor (notificationService: NotificationServices.NotificationService)
      ensures this.notificationService == notificationService
    {
      this.notificationService := notificationService;
    }

    /** Routes by method name; an unexpected name is answered with a failure reply and
        touches no service. A fault (`Err`) is a payload that did not decode. */
    method OnInvoke(request: InvokeRequest) returns (r: Proto.Result<InvokeResponse>)
      requires notificationService.Valid()
      modifies notificationService.registry
      ensures var reg := notificationService.registry;
        RouteOf(request.Method) == SubscribeRoute ==>
          SubscribeOutcome(old(reg.data), old(reg.writes), reg.data, reg.writes, request.Data, r)
      ensures var reg := notificationService.registry;
        RouteOf(request.Method) == UnsubscribeRoute ==>
          UnsubscribeOutcome(old(reg.data), old(reg.writes), reg.data, reg.writes, request.Data, r)
      ensures RouteOf(request.Method) == UnexpectedRoute ==>
        && r == Proto.Ok(InvokeResponse(Proto.ResponseToAny(Unexpected(request.Method))))
        && unchanged(notificationService.registry)
    {
      match RouteOf(request.Method)
      case SubscribeRoute =>
        r := ProxySubscribe(request);
      case UnsubscribeRoute =>
        r := ProxyUnsubscribe(request);
      case UnexpectedRoute =>
        r := Proto.Ok(InvokeResponse(Proto.ResponseToAny(Unexpected(request.Method))));
    }

    /** Decodes the payload as a subscribe request, calls the facade once, encodes its reply. */
    method ProxySubscribe(request: InvokeRequest) returns (r: Proto.Result<InvokeResponse>)
      requires notificationService.Valid()
      modifies notificationService.registry
      ensures var reg := notificationService.registry;
        SubscribeOutcome(old(reg.data), old(reg.writes), reg.data, reg.writes, request.Data, r)
    {
      var decoded := Proto.SubscriptionFromAny(request.Data);
      if decoded.Err? {
        return Proto.Err(decoded.error);
      }
      var response := notificationService.Subscribe(decoded.value);
      r := Proto.Ok(InvokeResponse(Proto.ResponseToAny(response)));
    }

    /** Decodes the payload as an unsubscribe request, calls the facade once, encodes its reply. */
    method ProxyUnsubscribe(request: InvokeRequest) returns (r: Proto.Result<InvokeResponse>)
      requires notificationService.Valid()
      modifies notificationService.registry
      ensures var reg := notificationService.registry;
        UnsubscribeOutcome(old(reg.data), old(reg.writes), reg.data, reg.writes, request.Data, r)
    {
      var decoded := Proto.UnsubscriptionFromAny(request.Data);
      if decoded.Err? {
        return Proto.Err(decoded.error);
      }
      var response := notificationService.Unsubscribe(decoded.value);
      r := Proto.Ok(InvokeResponse(Proto.ResponseToAny(response)));
    }
  }
}
