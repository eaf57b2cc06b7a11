/**
 * Clients of the Sessions classes: what a caller can conclude from the hook
 * methods' contracts alone, for a few sequences of broker events.
 */
module Scenarios {
  import opened Wrappers
  import opened Settings
  import opened Hooks
  import opened Sessions

  /**
   * Two clients log in with the same credentials. The first subscribes to a
   * topic and may then publish to it while the permission service is
   * unreachable; the second, whose record is its own, must ask and fails.
   */
  method SharedWithinClientOnly(o: OptionValues, topic: string)
    returns (login: HookResult, subscribe: HookResult, publish: HookResult, otherPublish: HookResult)
    ensures login == Granted && subscribe == Granted && publish == Granted
    ensures otherPublish == Refused(Unreachable, None)
  {
    var alice := new Client();
    login := alice.Authenticate(o, Some("alice"), Some("secret1"), Status(200));
    subscribe := alice.AuthorizeSubscribe(o, topic, Status(200));
    publish := alice.AuthorizePublish(o, topic, TransportError);

    var other := new Client();
    var otherLogin := other.Authenticate(o, Some("alice"), Some("secret1"), Status(200));
    otherPublish := other.AuthorizePublish(o, topic, TransportError);
  }

  /**
   * A publish the service refuses throws, and since no refusal is recorded
   * the next publish to the topic, if the process survived the first
   * exception, would ask again and throw again.
   */
  method RefusedPublishRepeats(o: OptionValues, topic: string)
    returns (first: HookResult, second: HookResult)
    ensures first == Threw(ReferenceError) && second == Threw(ReferenceError)
  {
    var c := new Client();
    var login := c.Authenticate(o, Some("alice"), Some("secret1"), Status(200));
    first := c.AuthorizePublish(o, topic, Status(403));
    ghost var asked := |c.sent|;
    second := c.AuthorizePublish(o, topic, Status(403));
    assert |c.sent| == asked + 1;
  }

  /** A connect without a password is refused with return code 4 and sends nothing. */
  method MissingPasswordRefused(o: OptionValues) returns (login: HookResult)
    ensures login == Refused(MissingCredentials, Some(BadCredentials))
  {
    var c := new Client();
    login := c.Authenticate(o, Some("alice"), None, Status(200));
    assert c.sent == [] && c.State() == Some(Placeholder);
  }
}
