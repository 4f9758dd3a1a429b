/** The subscriber record that the notification service keeps. */
module Notifications {

  /** An immutable subscription: the subscriber's email address, which identifies the
      subscription, and the subscriber's display name. The constructor checks neither
      string, so empty strings are accepted as they are. */
  datatype Subscription = Subscription(Email: string, Name: string)

  /** The constructor keeps both arguments unchanged, whatever they are (empty included). */
  lemma ConstructorKeepsArguments(email: string, name: string)
    ensures Subscription(email, name).Email == email
    ensures Subscription(email, name).Name == name
  {
  }

  /** A subscription is nothing but its two fields: rebuilding it from them gives it back,
      and two subscriptions with equal fields are the same value. */
  lemma FieldsDetermineSubscription(s: Subscription, t: Subscription)
    ensures Subscription(s.Email, s.Name) == s
    ensures s.Email == t.Email && s.Name == t.Name ==> s == t
  {
  }
}
