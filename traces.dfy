/**
 * A client's life as a sequence of hook invocations, each with the outcome
 * the permission service gives it, and what follows for the whole sequence:
 * which decisions persist, which are asked for again, and whose credentials
 * every request carries.
 */
module Traces {
  import opened Wrappers
  import opened Settings
  import opened Requests
  import opened Hooks

  /** A hook invocation. */
  datatype Call =
    | Connect(username: Option<string>, password: Option<string>)
    | Subscribe(topic: string)
    | Publish(topic: string)

  /** An invocation, with the answer the permission service would give if asked. */
  datatype Event = Event(call: Call, remote: Remote)

  /** The final record, every request sent in order, and each invocation's outcome. */
  datatype Trace = Trace(record: Option<Record>, requests: seq<Request>, results: seq<HookResult>)

  function Apply(o: OptionValues, rec: Option<Record>, e: Event): Step
  {
    match e.call
    case Connect(username, password) => AuthenticateStep(o, rec, username, password, e.remote)
    case Subscribe(topic) => SubscribeStep(o, rec, topic, e.remote)
    case Publish(topic) => PublishStep(o, rec, topic, e.remote)
  }

  /**
   * The invocations run one after another, each on the record the previous one
   * left. A `Threw` outcome does not stop the run: the later invocations are
   * what the broker would do if its process survived the exception.
   */
  function Run(o: OptionValues, rec: Option<Record>, events: seq<Event>): (t: Trace)
    ensures |t.results| == |events|
    ensures |t.requests| <= |events|
    decreases |events|
  {
    if events == [] then Trace(rec, [], [])
    else
      var s := Apply(o, rec, events[0]);
      var t := Run(o, s.record, events[1..]);
      Trace(t.record, Sent(s.request) + t.requests, [s.result] + t.results)
  }

  predicate NoConnect(events: seq<Event>)
  {
    forall i :: 0 <= i < |events| ==> !events[i].call.Connect?
  }

  /**
   * Only the connect hook sets credentials: across any subscribes and
   * publishes the record keeps its user name and password, and every request
   * sent carries them in its headers (as token and key, see Requests.Headers).
   */
  lemma {:induction false} CredentialsKept(o: OptionValues, r: Record, events: seq<Event>)
    requires NoConnect(events)
    ensures var t := Run(o, Some(r), events);
            t.record.Some? && t.record.value.username == r.username && t.record.value.password == r.password
    ensures forall q :: q in Run(o, Some(r), events).requests ==> q.headers == Headers(r.username, r.password)
    decreases |events|
  {
    if events != [] {
      var s := Apply(o, Some(r), events[0]);
      assert NoConnect(events[1..]);
      CredentialsKept(o, s.record.value, events[1..]);
    }
  }

  /**
   * A decision to allow is kept until the next subscribe to that topic: across
   * any other subscribes and any publishes it stays recorded, every publish to
   * the topic is granted, and the topic is never asked about again.
   */
  lemma {:induction false} GrantedTopicNeedsNoRequest(o: OptionValues, r: Record, topic: string, events: seq<Event>)
    requires Allows(r.accessTo, topic)
    requires forall i :: 0 <= i < |events| ==> !events[i].call.Connect? && events[i].call != Subscribe(topic)
    ensures var t := Run(o, Some(r), events);
            t.record.Some? && Allows(t.record.value.accessTo, topic)
    ensures forall i :: 0 <= i < |events| && events[i].call == Publish(topic) ==>
              Run(o, Some(r), events).results[i] == Granted
    ensures forall q :: q in Run(o, Some(r), events).requests ==> q.path != ResourcePath(o.weaviateUrl, topic)
    decreases |events|
  {
    if events != [] {
      var s := Apply(o, Some(r), events[0]);
      var rest := Run(o, s.record, events[1..]);
      GrantedTopicNeedsNoRequest(o, s.record.value, topic, events[1..]);
      forall q | q in Sent(s.request)
        ensures q.path != ResourcePath(o.weaviateUrl, topic)
      {
        var other := events[0].call.topic;
        assert q.path == ResourcePath(o.weaviateUrl, other);
        if q.path == ResourcePath(o.weaviateUrl, topic) {
          ResourcePathInjective(o.weaviateUrl, other, topic);
        }
      }
      forall i | 0 <= i < |events| && events[i].call == Publish(topic)
        ensures Run(o, Some(r), events).results[i] == Granted
      {
        if i > 0 {
          assert events[1..][i - 1] == events[i];
        }
      }
    }
  }

  /** The subscribe hook never answers from the record: n subscribes make n requests. */
  lemma {:induction false} EverySubscribeAsks(o: OptionValues, r: Record, events: seq<Event>)
    requires forall i :: 0 <= i < |events| ==> events[i].call.Subscribe?
    ensures |Run(o, Some(r), events).requests| == |events|
    decreases |events|
  {
    if events != [] {
      var s := Apply(o, Some(r), events[0]);
      EverySubscribeAsks(o, s.record.value, events[1..]);
    }
  }

  /**
   * An unreachable permission service never changes a decision: however many
   * connects, subscribes and publishes fail to reach it, every topic's
   * decision is the one recorded before, so the next reachable check asks again.
   */
  lemma {:induction false} TransportErrorsRecordNothing(o: OptionValues, r: Record, events: seq<Event>)
    requires forall i :: 0 <= i < |events| ==> events[i].remote.TransportError?
    ensures var t := Run(o, Some(r), events);
            t.record.Some? && forall topic :: Lookup(t.record.value.accessTo, topic) == Lookup(r.accessTo, topic)
    decreases |events|
  {
    if events != [] {
      var s := Apply(o, Some(r), events[0]);
      TransportErrorsRecordNothing(o, s.record.value, events[1..]);
    }
  }

  /**
   * As written, the publish hook never records a refusal: without subscribes,
   * no topic gains a `false` decision.
   */
  lemma {:induction false} PublishRecordsNoRefusal(o: OptionValues, r: Record, events: seq<Event>)
    requires forall i :: 0 <= i < |events| ==> events[i].call.Publish?
    ensures var t := Run(o, Some(r), events);
            t.record.Some? && forall topic :: Lookup(t.record.value.accessTo, topic) == Some(false) ==>
                                               Lookup(r.accessTo, topic) == Some(false)
    decreases |events|
  {
    if events != [] {
      var s := Apply(o, Some(r), events[0]);
      PublishRecordsNoRefusal(o, s.record.value, events[1..]);
    }
  }

  /**
   * Hence, if the process survived the first ReferenceError, a topic the
   * service refuses would be asked about on every publish, and every one of
   * those publishes would end in the ReferenceError again.
   */
  lemma {:induction false} RefusedPublishAsksEveryTime(o: OptionValues, r: Record, topic: string, events: seq<Event>)
    requires !Allows(r.accessTo, topic)
    requires forall i :: 0 <= i < |events| ==>
               events[i].call == Publish(topic) && events[i].remote.Status? && events[i].remote.code != 200
    ensures var t := Run(o, Some(r), events);
            |t.requests| == |events| && forall i :: 0 <= i < |events| ==> t.results[i] == Threw(ReferenceError)
    decreases |events|
  {
    if events != [] {
      var s := Apply(o, Some(r), events[0]);
      RefusedPublishAsksEveryTime(o, s.record.value, topic, events[1..]);
      var t := Run(o, Some(r), events);
      forall i | 0 <= i < |events| ensures t.results[i] == Threw(ReferenceError) {
        if i > 0 {
          assert t.results[i] == Run(o, s.record, events[1..]).results[i - 1];
        }
      }
    }
  }
}
