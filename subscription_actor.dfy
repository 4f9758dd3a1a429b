/** The subscription registry: one actor that keeps every subscription in a single
    dictionary, from email to subscription, stored under one state-store key. */
module Actors {
  import opened Notifications

  /** The stored dictionary. */
  type Registry = map<string, Subscription>

  /** The registry's invariant: every key is the email of the subscription stored under it. */
  ghost predicate WellKeyed(m: Registry)
  {
    forall email | email in m :: m[email].Email == email
  }

  /** Whether subscribing `s` writes the dictionary back: there is no entry for its
      email, or the entry has another name. */
  function SubscribeSaves(m: Registry, s: Subscription): bool
  {
    s.Email !in m || m[s.Email].Name != s.Name
  }

  /** The dictionary after subscribing `s`. */
  function AfterSubscribe(m: Registry, s: Subscription): (r: Registry)
    ensures s.Email in r && r[s.Email].Name == s.Name
    ensures r.Keys == m.Keys + {s.Email}
    ensures forall email | email in m && email != s.Email :: r[email] == m[email]
    ensures r == m <==> !SubscribeSaves(m, s)
    ensures WellKeyed(m) ==> WellKeyed(r) && r[s.Email] == s
  {
    if SubscribeSaves(m, s) then m[s.Email := s] else m
  }

  /** The dictionary after unsubscribing `email`. */
  function AfterUnsubscribe(m: Registry, email: string): (r: Registry)
    ensures r.Keys == m.Keys - {email}
    ensures forall k | k in r :: r[k] == m[k]
    ensures r == m <==> email !in m
    ensures WellKeyed(m) ==> WellKeyed(r)
  {
    m - {email}
  }

  /** The actor. `data` is what the state store holds under the subscriptions key;
      `writes` counts the calls that save the dictionary back to the store. */
  class SubscriptionActor {
    /** The actor type name. */
    static const Name: string := "SubscriptionActor"
    /** The one actor id every caller uses. */
    static const ID: string := "subscription"

    const actorId: string
    var data: Registry
    var writes: nat

    ghost predicate Valid()
      reads this
    {
      WellKeyed(data)
    }

    /** An actor with the given id over a store that already holds `stored`. */
    constructor (actorId: string, stored: Registry)
      ensures this.actorId == actorId && data == stored && writes == 0
    {
      this.actorId := actorId;
      data := stored;
      writes := 0;
    }

    /** Adds the subscription, or renames it when the stored name differs; saves the
        whole dictionary only in those two cases. */
    method Subscribe(subscription: Subscription)
      modifies this
      ensures data == AfterSubscribe(old(data), subscription)
      ensures writes == old(writes) + (if SubscribeSaves(old(data), subscription) then 1 else 0)
      ensures old(Valid()) ==> Valid()
    {
      var subscriptions := data;
      var hasValue := subscription.Email in subscriptions;
      if !hasValue || subscriptions[subscription.Email].Name != subscription.Name {
        subscriptions := subscriptions[subscription.Email := subscription];
        data := subscriptions;
        writes := writes + 1;
      }
    }

    /** Removes the subscription for `email`; saves only when there was one. */
    method Unsubscribe(email: string)
      modifies this
      ensures data == AfterUnsubscribe(old(data), email)
      ensures writes == old(writes) + (if email in old(data) then 1 else 0)
      ensures old(Valid()) ==> Valid()
    {
      var subscriptions := data;
      var updated := email in subscriptions;
      subscriptions := subscriptions - {email};
      if updated {
        data := subscriptions;
        writes := writes + 1;
      }
    }
  }

  /** One call the actor processes. */
  datatype Call = SubscribeCall(subscription: Subscription) | UnsubscribeCall(email: string)

  /** The email a call is about. */
  function Target(call: Call): string
  {
    match call
    case SubscribeCall(s) => s.Email
    case UnsubscribeCall(email) => email
  }

  function Apply(m: Registry, call: Call): Registry
  {
    match call
    case SubscribeCall(s) => AfterSubscribe(m, s)
    case UnsubscribeCall(email) => AfterUnsubscribe(m, email)
  }

  /** Saves one call performs. */
  function SavesOf(m: Registry, call: Call): nat
  {
    match call
    case SubscribeCall(s) => if SubscribeSaves(m, s) then 1 else 0
    case UnsubscribeCall(email) => if email in m then 1 else 0
  }

  /** The dictionary after the actor has processed `calls` one at a time, in order. */
  function Run(m: Registry, calls: seq<Call>): Registry
    decreases |calls|
  {
    if calls == [] then m else Run(Apply(m, calls[0]), calls[1..])
  }

  /** The saves performed while processing `calls`. */
  function RunSaves(m: Registry, calls: seq<Call>): nat
    decreases |calls|
  {
    if calls == [] then 0 else SavesOf(m, calls[0]) + RunSaves(Apply(m, calls[0]), calls[1..])
  }

  /** Any sequence of calls keeps every key equal to its value's email. */
  lemma {:induction false} RunPreservesWellKeyed(m: Registry, calls: seq<Call>)
    requires WellKeyed(m)
    ensures WellKeyed(Run(m, calls))
    decreases |calls|
  {
    if calls != [] {
      RunPreservesWellKeyed(Apply(m, calls[0]), calls[1..]);
    }
  }

  /** Every call saves at most once. */
  lemma {:induction false} RunSavesAtMostOnePerCall(m: Registry, calls: seq<Call>)
    ensures RunSaves(m, calls) <= |calls|
    decreases |calls|
  {
    if calls != [] {
      RunSavesAtMostOnePerCall(Apply(m, calls[0]), calls[1..]);
    }
  }

  /** Calls about other emails leave the entry for `email` as it was. */
  lemma {:induction false} RunLeavesOtherKeys(m: Registry, calls: seq<Call>, email: string)
    requires forall i | 0 <= i < |calls| :: Target(calls[i]) != email
    ensures email in Run(m, calls) <==> email in m
    ensures email in m ==> Run(m, calls)[email] == m[email]
    decreases |calls|
  {
    if calls != [] {
      RunLeavesOtherKeys(Apply(m, calls[0]), calls[1..], email);
    }
  }

  /** Subscriptions for distinct emails, processed one at a time, are all kept: none is lost. */
  lemma {:induction false} NoLostUpdates(m: Registry, calls: seq<Call>)
    requires WellKeyed(m)
    requires forall i | 0 <= i < |calls| :: calls[i].SubscribeCall?
    requires forall i, j | 0 <= i < j < |calls| :: Target(calls[i]) != Target(calls[j])
    ensures forall i | 0 <= i < |calls| ::
      Target(calls[i]) in Run(m, calls) && Run(m, calls)[Target(calls[i])] == calls[i].subscription
    decreases |calls|
  {
    if calls != [] {
      var m' := Apply(m, calls[0]);
      var rest := calls[1..];
      NoLostUpdates(m', rest);
      assert forall i | 0 <= i < |rest| :: Target(rest[i]) != Target(calls[0]) by {
        forall i | 0 <= i < |rest| ensures Target(rest[i]) != Target(calls[0]) {
          assert rest[i] == calls[i + 1];
        }
      }
      RunLeavesOtherKeys(m', rest, Target(calls[0]));
      forall i | 0 <= i < |calls|
        ensures Target(calls[i]) in Run(m, calls) && Run(m, calls)[Target(calls[i])] == calls[i].subscription
      {
        if i > 0 {
          assert calls[i] == rest[i - 1];
        }
      }
    }
  }

  /** Subscribing distinct emails that are all new saves once per call. */
  lemma {:induction false} FreshSubscribesSaveEach(m: Registry, calls: seq<Call>)
    requires forall i | 0 <= i < |calls| :: calls[i].SubscribeCall? && Target(calls[i]) !in m
    requires forall i, j | 0 <= i < j < |calls| :: Target(calls[i]) != Target(calls[j])
    ensures RunSaves(m, calls) == |calls|
    decreases |calls|
  {
    if calls != [] {
      var m' := Apply(m, calls[0]);
      var rest := calls[1..];
      forall i | 0 <= i < |rest| ensures rest[i].SubscribeCall? && Target(rest[i]) !in m' {
        assert rest[i] == calls[i + 1];
      }
      forall i, j | 0 <= i < j < |rest| ensures Target(rest[i]) != Target(rest[j]) {
        assert rest[i] == calls[i + 1] && rest[j] == calls[j + 1];
      }
      FreshSubscribesSaveEach(m', rest);
    }
  }

  /** Subscribing the same subscription twice in a row: the second call neither saves
      nor changes anything, so the pair acts like one call. */
  lemma SubscribeTwice(m: Registry, s: Subscription)
    ensures Run(m, [SubscribeCall(s), SubscribeCall(s)]) == AfterSubscribe(m, s)
    ensures RunSaves(m, [SubscribeCall(s), SubscribeCall(s)]) == RunSaves(m, [SubscribeCall(s)])
    ensures !SubscribeSaves(AfterSubscribe(m, s), s)
  {
    var once := AfterSubscribe(m, s);
    assert !SubscribeSaves(once, s);
    assert Run(once, [SubscribeCall(s)]) == Run(once, []) by {
      assert [SubscribeCall(s)][1..] == [];
    }
    assert [SubscribeCall(s), SubscribeCall(s)][1..] == [SubscribeCall(s)];
  }

  /** Renaming a subscriber is exactly one further save and leaves the new name stored. */
  lemma RenameSavesOnce(m: Registry, email: string, name: string, name': string)
    requires name != name'
    ensures var m1 := AfterSubscribe(m, Subscription(email, name));
      SubscribeSaves(m1, Subscription(email, name'))
      && AfterSubscribe(m1, Subscription(email, name'))[email].Name == name'
  {
  }

  /** Unsubscribing twice in a row: the second call neither saves nor changes anything. */
  lemma UnsubscribeTwice(m: Registry, email: string)
    ensures AfterUnsubscribe(AfterUnsubscribe(m, email), email) == AfterUnsubscribe(m, email)
    ensures email !in AfterUnsubscribe(m, email)
  {
  }

  /** Unsubscribe undoes Subscribe: whatever was stored for that email, afterwards the
      dictionary is the one that unsubscribing alone would leave. */
  lemma UnsubscribeUndoesSubscribe(m: Registry, s: Subscription)
    ensures AfterUnsubscribe(AfterSubscribe(m, s), s.Email) == AfterUnsubscribe(m, s.Email)
    ensures s.Email !in m ==> AfterUnsubscribe(AfterSubscribe(m, s), s.Email) == m
  {
  }
}
