/**
 * The three authorization hooks as steps over the client record
 * (`client.CONNECTEDCLIENTS`): each takes the record, the hook's request and
 * the outcome the permission service would give, and yields the new record,
 * the request sent (if any) and how the hook ends. Each hook runs as one
 * atomic step; the classes in module Sessions are proved against these.
 */
module Hooks {
  import opened Wrappers
  import opened Settings
  import opened Requests

  /** The `accessTo` member of a client record. */
  datatype Access =
    | Unset                              // undefined: a record stored on successful authentication has none
    | Blank                              // the empty string of the placeholder record
    | Table(entries: map<string, bool>)  // the dictionary created on first use

  /** A client record: the credentials and the topic decisions. */
  datatype Record = Record(username: string, password: string, accessTo: Access)

  /** The record the connect hook creates for a client that has none. */
  const Placeholder := Record("", "", Blank)

  /** What the permission service answers: an HTTP status, or an 'error' event on the request. */
  datatype Remote = Status(code: int) | TransportError

  /** An exception that escapes a hook; the hook's callback is then never called. */
  datatype Exception = TypeError | ReferenceError

  /** How a hook ends. */
  datatype HookResult =
    | Granted                                            // callback(null, ...)
    | Refused(message: string, returnCode: Option<int>)  // callback(error), with the error's returnCode
    | Threw(exception: Exception)

  const MissingCredentials := "Auth error, no username or password set"
  const AuthError := "Auth error"
  const Unreachable := "can not connect to topic topic"
  const SubscribeDenied := "Can not subscribe"

  /** The CONNACK return code the connect hook's errors carry: bad user name or password. */
  const BadCredentials := 4

  /** The new record, the request handed to the permission service, and the outcome. */
  datatype Step = Step(record: Option<Record>, request: Option<Request>, result: HookResult)

  /** The requests a step sends: none or one. */
  function Sent(request: Option<Request>): (r: seq<Request>)
    ensures |r| == if request.Some? then 1 else 0
  {
    if request.Some? then [request.value] else []
  }

  /** The recorded decision for a topic, if any. */
  function Lookup(a: Access, topic: string): Option<bool>
  {
    if a.Table? && topic in a.entries then Some(a.entries[topic]) else None
  }

  /** `accessTo[topic] == true`: the only decision the publish hook trusts without asking. */
  predicate Allows(a: Access, topic: string)
  {
    Lookup(a, topic) == Some(true)
  }

  /** `if (accessTo === undefined) accessTo = {}`. */
  function Materialized(a: Access): (r: Access)
    ensures r.Table? || r.Blank?
    ensures r.Blank? <==> a.Blank?
    ensures a.Table? ==> r == a
    ensures forall t :: Lookup(r, t) == Lookup(a, t)
  {
    if a.Unset? then Table(map[]) else a
  }

  /** The record the connect hook works on: the existing one, or the placeholder it stores first. */
  function Existing(rec: Option<Record>): Record
  {
    if rec.None? then Placeholder else rec.value
  }

  /** The connect hook. */
  function AuthenticateStep(o: OptionValues, rec: Option<Record>, username: Option<string>,
                            password: Option<string>, remote: Remote): (s: Step)
    // missing credentials: refused with code 4, no request, only the placeholder stored
    ensures username.None? || password.None? ==>
              s.request.None? && s.result == Refused(MissingCredentials, Some(BadCredentials))
    // otherwise exactly one request, for "/keys/me" with the credentials given
    ensures username.Some? && password.Some? ==>
              s.request == Some(AuthRequest(o, username.value, password.value))
    ensures s.result.Granted? <==> username.Some? && password.Some? && remote == Status(200)
    // success replaces the whole record by the credentials alone, dropping accessTo
    ensures s.result.Granted? ==> s.record == Some(Record(username.value, password.value, Unset))
    // every failure leaves the record as it was, or the placeholder if there was none
    ensures !s.result.Granted? ==> s.record == Some(Existing(rec))
    ensures s.result.Refused? && s.result.returnCode == Some(BadCredentials) <==>
              username.None? || password.None? || (remote.Status? && remote.code != 200)
    ensures username.Some? && password.Some? && remote.TransportError? ==> s.result == Refused(Unreachable, None)
    ensures username.Some? && password.Some? && remote.Status? && remote.code != 200 ==>
              s.result == Refused(AuthError, Some(BadCredentials))
  {
    var base := Existing(rec);
    if username.None? || password.None? then
      Step(Some(base), None, Refused(MissingCredentials, Some(BadCredentials)))
    else
      var request := AuthRequest(o, username.value, password.value);
      match remote
      case TransportError => Step(Some(base), Some(request), Refused(Unreachable, None))
      case Status(code) =>
        if code == 200 then Step(Some(Record(username.value, password.value, Unset)), Some(request), Granted)
        else Step(Some(base), Some(request), Refused(AuthError, Some(BadCredentials)))
  }

  /** The subscribe hook. */
  function SubscribeStep(o: OptionValues, rec: Option<Record>, topic: string, remote: Remote): (s: Step)
    // no record: reading its username throws before any request is made
    ensures rec.None? ==> s == Step(None, None, Threw(TypeError))
    // otherwise exactly one request with the stored credentials, whatever accessTo holds
    ensures rec.Some? ==> s.request == Some(TopicRequest(o, topic, rec.value.username, rec.value.password))
    ensures rec.Some? ==> s.record.Some? && s.record.value.username == rec.value.username
                          && s.record.value.password == rec.value.password
    ensures s.result.Granted? <==> rec.Some? && remote == Status(200) && !rec.value.accessTo.Blank?
    // a transport error changes nothing
    ensures remote.TransportError? ==> s.record == rec && (rec.Some? ==> s.result == Refused(Unreachable, None))
    // a status is recorded for the topic: true for 200, false otherwise
    ensures rec.Some? && remote.Status? && !rec.value.accessTo.Blank? ==>
              Lookup(s.record.value.accessTo, topic) == Some(remote.code == 200)
              && (remote.code != 200 ==> s.result == Refused(SubscribeDenied, None))
    // writing into the placeholder's string throws in strict mode
    ensures rec.Some? && remote.Status? && rec.value.accessTo.Blank? ==> s.record == rec && s.result == Threw(TypeError)
    // no other topic's decision changes
    ensures rec.Some? ==> forall t :: t != topic ==> Lookup(s.record.value.accessTo, t) == Lookup(rec.value.accessTo, t)
  {
    if rec.None? then Step(None, None, Threw(TypeError))
    else
      var r := rec.value;
      var request := TopicRequest(o, topic, r.username, r.password);
      match remote
      case TransportError => Step(rec, Some(request), Refused(Unreachable, None))
      case Status(code) =>
        var a := Materialized(r.accessTo);
        if a.Blank? then Step(rec, Some(request), Threw(TypeError))
        else
          var r' := r.(accessTo := Table(a.entries[topic := code == 200]));
          Step(Some(r'), Some(request), if code == 200 then Granted else Refused(SubscribeDenied, None))
  }

  /**
   * The publish hook. A recorded `true` is trusted; anything else is asked
   * again. A refusal reads the undeclared `sub` and throws before `false` is
   * written.
   */
  function PublishStep(o: OptionValues, rec: Option<Record>, topic: string, remote: Remote): (s: Step)
    // no record: reading its accessTo throws before any request is made
    ensures rec.None? ==> s == Step(None, None, Threw(TypeError))
    ensures rec.Some? ==> s.record.Some? && s.record.value.username == rec.value.username
                          && s.record.value.password == rec.value.password
    // a recorded true: granted with no request and no change of any decision
    ensures rec.Some? && Allows(rec.value.accessTo, topic) ==> s.request.None? && s.result == Granted && s.record == rec
    // an absent and a false decision alike: one request with the stored credentials
    ensures rec.Some? && !Allows(rec.value.accessTo, topic) ==>
              s.request == Some(TopicRequest(o, topic, rec.value.username, rec.value.password))
    ensures s.result.Granted? <==>
              rec.Some? && (Allows(rec.value.accessTo, topic) || (remote == Status(200) && !rec.value.accessTo.Blank?))
    ensures s.result.Granted? ==> Allows(s.record.value.accessTo, topic)
    // a refusal throws and is never recorded
    ensures rec.Some? && !Allows(rec.value.accessTo, topic) && remote.Status? && remote.code != 200 ==>
              s.result == Threw(ReferenceError)
    ensures rec.Some? && !Allows(rec.value.accessTo, topic) && remote.TransportError? ==>
              s.result == Refused(Unreachable, None)
    // writing into the placeholder's string throws in strict mode
    ensures rec.Some? && rec.value.accessTo.Blank? && remote == Status(200) ==>
              s.record == rec && s.result == Threw(TypeError)
    // an outcome other than a grant keeps the record, with accessTo created if it was undefined
    ensures rec.Some? && !s.result.Granted? ==>
              s.record == Some(rec.value.(accessTo := Materialized(rec.value.accessTo)))
    // only the topic's own decision can change, and only to true
    ensures rec.Some? ==> forall t :: t != topic || !s.result.Granted? ==>
              Lookup(s.record.value.accessTo, t) == Lookup(rec.value.accessTo, t)
  {
    if rec.None? then Step(None, None, Threw(TypeError))
    else
      var r := rec.value.(accessTo := Materialized(rec.value.accessTo));
      if Allows(r.accessTo, topic) then Step(Some(r), None, Granted)
      else
        var request := TopicRequest(o, topic, r.username, r.password);
        match remote
        case TransportError => Step(Some(r), Some(request), Refused(Unreachable, None))
        case Status(code) =>
          if code != 200 then Step(Some(r), Some(request), Threw(ReferenceError))
          else if r.accessTo.Blank? then Step(Some(r), Some(request), Threw(TypeError))
          else Step(Some(r.(accessTo := Table(r.accessTo.entries[topic := true]))), Some(request), Granted)
  }

  /**
   * The decisions are shared: once a subscription to a topic is granted, a
   * publish to it is granted without asking the permission service.
   */
  lemma SubscribeGrantServesPublish(o: OptionValues, rec: Option<Record>, topic: string,
                                    remote: Remote, later: Remote)
    requires SubscribeStep(o, rec, topic, remote).result.Granted?
    ensures var p := PublishStep(o, SubscribeStep(o, rec, topic, remote).record, topic, later);
            p.request.None? && p.result.Granted?
  {
  }

  /** The subscribe hook never consults accessTo: even a recorded true is asked again. */
  lemma SubscribeAlwaysAsks(o: OptionValues, r: Record, topic: string, remote: Remote)
    requires Allows(r.accessTo, topic)
    ensures SubscribeStep(o, Some(r), topic, remote).request.Some?
    ensures remote.Status? && remote.code != 200 ==> Lookup(SubscribeStep(o, Some(r), topic, remote).record.value.accessTo, topic) == Some(false)
  {
  }

  /** A record stored by a successful connect has no decisions: the first subscribe and publish both ask. */
  lemma FreshLoginForgetsDecisions(o: OptionValues, rec: Option<Record>, username: string, password: string,
                                   topic: string, remote: Remote)
    ensures var s := AuthenticateStep(o, rec, Some(username), Some(password), Status(200));
            s.record.Some? && Lookup(s.record.value.accessTo, topic).None?
            && PublishStep(o, s.record, topic, remote).request.Some?
  {
  }
}
