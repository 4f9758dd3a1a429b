# Notification subscriptions, modelled in Dafny

This project models the subscription side of the notification service of the
dapr-vote sample: the subscription registry actor, the gRPC service facade that
calls it, and the Dapr application callback that routes every inbound call by
method name and converts its payload.

- `Notifications` (`subscription.dfy`): the immutable `Subscription` value (email, name).
- `Grpc` (`messages.dfy`): the request and response messages (`Subscription`,
  `Unsubscription`, `Response` with status `Successful` or `Failure`).
- `Proto` (`any_converter.dfy`): the payload codec. Each message is written as a JSON
  object into an `Any`'s value bytes. The model works on that object as a map from
  property name to value. Empty value bytes fail to decode, and so does any JSON value
  other than an object or `null` (the model's `NotAnObject`). A missing
  property decodes to the empty string. Unknown properties are ignored.
- `Actors` (`subscription_actor.dfy`): the `SubscriptionActor` class. `data` is the
  dictionary the state store holds under the subscriptions key, and `writes` counts the
  saves back to the store. `AfterSubscribe` and `AfterUnsubscribe` specify the two
  operations on the dictionary. `Run` and `RunSaves` specify a sequence of calls
  processed one at a time, which is what the actor runtime guarantees for the single
  actor id `"subscription"`.
- `NotificationServices` (`notification_service.dfy`): the facade. It builds the
  subscription from the request, calls the registry and builds the reply.
- `DaprServices` (`dapr_service.dfy`): `OnInvoke` routes `"Subscribe"` and
  `"Unsubscribe"` by exact string match. Any other name gets a `Failure` reply naming
  the method. The two list endpoints always answer empty.

Behaviour of the code that the model keeps:

- An `Any` with empty value bytes does not decode; deserialising empty JSON text throws.
- There is no lazy creation of the stored dictionary. The model's store always holds one.
- `"Notify"` is not routed. It gets the failure reply.
- A storage error is not turned into a `Failure` reply. The code lets it propagate.

## Model

| member | source | states |
|---|---|---|
| Notifications.ConstructorKeepsArguments | notifications/Subscription.cs:13-17 | the constructed value's `Email` and `Name` are the arguments, for any strings, empty ones included |
| Notifications.FieldsDetermineSubscription | notifications/Subscription.cs:6-27 | a subscription is exactly its two read-only fields: rebuilt from them it is the same value, equal fields mean equal values |
| Proto.SubscriptionFromAny | proto/AnyConverter.cs:42-46 | empty value bytes fail with no JSON tokens, a non-object fails, success implies an object, an empty object gives empty strings |
| Proto.UnsubscriptionFromAny | proto/AnyConverter.cs:42-46 | the same error cases and defaults for the unsubscribe request |
| Proto.SubscriptionRoundTrip | proto/AnyConverter.cs:24-46 | decoding an encoded subscribe request gives it back |
| Proto.UnsubscriptionRoundTrip | proto/AnyConverter.cs:24-46 | decoding an encoded unsubscribe request gives it back |
| Proto.ResponseToAnyInjective | proto/AnyConverter.cs:24-34 | distinct responses encode to distinct payloads |
| Proto.EmptyAnyDoesNotDecode | proto/AnyConverter.cs:26-28 | the empty `Any` made from a null value cannot be decoded as either request |
| Actors.AfterSubscribe | notifications/Actors/SubscriptionActor.cs:71-75 | afterwards the email is a key whose entry has the new name; keys grow by that email only; other entries are untouched; the dictionary changes exactly when a save is due; the key/email invariant is kept, and under it the entry is the subscription itself |
| Actors.AfterUnsubscribe | notifications/Actors/SubscriptionActor.cs:91 | afterwards the email is not a key; other entries are untouched; the dictionary changes exactly when the email was present; the invariant is kept |
| Actors.SubscriptionActor.constructor | notifications/Actors/SubscriptionActor.cs:58-62 | the actor has the given id over the stored dictionary and has saved nothing |
| Actors.SubscriptionActor.Subscribe | notifications/Actors/SubscriptionActor.cs:65-82 | the stored dictionary becomes `AfterSubscribe` of the old one; one save when the email is absent or its name differs, none otherwise; the invariant is kept |
| Actors.SubscriptionActor.Unsubscribe | notifications/Actors/SubscriptionActor.cs:85-100 | the stored dictionary becomes `AfterUnsubscribe` of the old one; one save when the email was present, none otherwise; the invariant is kept |
| Actors.RunPreservesWellKeyed | notifications/Actors/SubscriptionActor.cs:65-100 | any sequence of calls, processed one at a time, keeps every key equal to its value's email |
| Actors.RunSavesAtMostOnePerCall | notifications/Actors/SubscriptionActor.cs:65-100 | a sequence of calls saves at most once per call |
| Actors.RunLeavesOtherKeys | notifications/Actors/SubscriptionActor.cs:75-91 | calls about other emails leave an email's presence and entry as they were |
| Actors.NoLostUpdates | notifications/Actors/SubscriptionActor.cs:65-82 | subscriptions for distinct emails, processed one at a time, are all stored afterwards |
| Actors.FreshSubscribesSaveEach | notifications/Actors/SubscriptionActor.cs:71-80 | subscribing distinct new emails saves exactly once per call |
| Actors.SubscribeTwice | notifications/Actors/SubscriptionActor.cs:73-80 | subscribing the same value twice leaves the dictionary of one subscribe and the second call saves nothing |
| Actors.RenameSavesOnce | notifications/Actors/SubscriptionActor.cs:73-75 | subscribing an existing email under a new name saves and stores the new name |
| Actors.UnsubscribeTwice | notifications/Actors/SubscriptionActor.cs:91-98 | a second unsubscribe changes nothing; the email is gone after the first |
| Actors.UnsubscribeUndoesSubscribe | notifications/Actors/SubscriptionActor.cs:71-91 | unsubscribe after subscribe gives the dictionary that unsubscribe alone gives, and the original one if the email was new |
| NotificationServices.NotificationService.constructor | notifications/Services/NotificationService.cs:37 | the facade's registry is the actor with the single id `"subscription"` |
| NotificationServices.NotificationService.Subscribe | notifications/Services/NotificationService.cs:33-45 | the registry receives `Subscription(request.Email, request.Name)`; the reply is `Successful` with the created-subscription message |
| NotificationServices.NotificationService.Unsubscribe | notifications/Services/NotificationService.cs:53-63 | the registry receives `request.Email` unchanged; the reply is `Successful` with the removed-subscription message even when nothing was saved |
| DaprServices.RouteOf | notifications/Services/DaprService.cs:31-37 | `"Subscribe"` and `"Unsubscribe"` are routed if and only if the name equals them exactly; every other name is unexpected |
| DaprServices.UnexpectedNamesMethod | notifications/Services/DaprService.cs:37-44 | the failure reply has status `Failure` and its message is exactly `"Unexpected service method: "` followed by the method name |
| DaprServices.UnroutedNames | notifications/Services/DaprService.cs:31-37 | `"Notify"`, `"subscribe"` and `"unsubscribe"` are unexpected |
| DaprServices.ListInputBindings | notifications/Services/DaprService.cs:49-52 | no input bindings, whatever the request |
| DaprServices.ListTopicSubscriptions | notifications/Services/DaprService.cs:55-58 | no topic subscriptions, whatever the request |
| DaprServices.DaprService.constructor | notifications/Services/DaprService.cs:23-26 | the callback service keeps the facade it is given |
| DaprServices.DaprService.OnInvoke | notifications/Services/DaprService.cs:29-46 | each routed name goes to its proxy; an unexpected name gets the encoded failure reply and leaves the registry unchanged |
| DaprServices.DaprService.ProxySubscribe | notifications/Services/DaprService.cs:69-77 | a payload that does not decode faults the call before the registry is touched; otherwise the facade's subscribe runs once and its reply is returned encoded |
| DaprServices.DaprService.ProxyUnsubscribe | notifications/Services/DaprService.cs:69-77 | the same for the facade's unsubscribe |

## Left out

- Hosting, gRPC registration and dependency injection (notifications/Startup.cs, notifications/Program.cs): configuration only.
- The Dapr state store and the `DaprClient` I/O: replaced by the `data` field and the `writes` save counter. A store that is unavailable, and the exceptions it would raise, are not modelled.
- The stored dictionary is assumed to exist. The code has no branch for a missing one: it would fail on first use.
- The actor runtime's turn-based concurrency and actor proxies: calls are sequential method calls on one actor object, which is what one actor id gives.
- `async`/`Task` and `ServerCallContext`: they add no behaviour beyond sequencing.
- The JSON text layer of the codec: the UTF-8 bytes, the serializer options (property naming, enum format) and the generic `ToAny`/`FromAny`. It is modelled on a JSON object per message type.
- Proto.SubscriptionFromAny: its ensures state the error cases and the empty-object defaults only. The full decoding is its body, tied to the encoder by the round-trip lemmas.
- Proto.UnsubscriptionFromAny: the same as for the subscribe request.
- The JSON document `null`: deserialising it yields a null request, and the call then faults when the facade reads the request's email, before the registry is reached. The model has no separate `null` document; it folds that case into `NotAnObject`, so it ends as the decode error `ObjectExpected`. The registry outcome is the same.
- Null strings: the model has none. An absent email is found in the code through the default value that `GetValueOrDefault` returns, whose `Name` is null and so differs from every request name; for every non-null name this is the model's test that the email is not a key, and request strings are never null.
- Notification fan-out and mail sending: there is no such code in the core files, and `"Notify"` is not routed.
