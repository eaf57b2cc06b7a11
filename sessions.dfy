/**
 * The hooks as methods on the objects they change in place: a `Client` is
 * the broker's client object, whose `session` field is its
 * `CONNECTEDCLIENTS` record, and a `Session` is that record, whose fields
 * the hooks overwrite. Every request handed to the permission service is
 * appended to the ghost log `sent`, so `|sent|` counts the remote calls.
 * Each method is proved to do what the step function of module Hooks says.
 */
module Sessions {
  import opened Wrappers
  import opened Settings
  import opened Requests
  import opened Hooks

  /** The `CONNECTEDCLIENTS` record of one client. */
  class Session {
    var username: string
    var password: string
    var accessTo: Access

    constructor (username: string, password: string, accessTo: Access)
      ensures Value() == Record(username, password, accessTo)
    {
      this.username := username;
      this.password := password;
      this.accessTo := accessTo;
    }

    function Value(): Record
      reads this
    {
      Record(username, password, accessTo)
    }
  }

  /** A connected client, as the broker hands it to the hooks. */
  class Client {
    var session: Session?
    ghost var sent: seq<Request>

    /** A client the connect hook has not yet seen: no record, no request sent. */
    constructor ()
      ensures session == null && sent == []
    {
      session := null;
      sent := [];
    }

    /** The record, or `None` while `CONNECTEDCLIENTS` is undefined. */
    function State(): Option<Record>
      reads this, session
    {
      if session == null then None else Some(session.Value())
    }

    /** The connect hook. */
    method Authenticate(o: OptionValues, username: Option<string>, password: Option<string>, remote: Remote)
      returns (result: HookResult)
      modifies this, session
      ensures var s := AuthenticateStep(o, old(State()), username, password, remote);
              State() == s.record && result == s.result && sent == old(sent) + Sent(s.request)
      ensures session != old(session) ==> fresh(session)
      ensures old(session) != null ==> unchanged(old(session))
    {
      if session == null {
        session := new Session("", "", Blank);
      }
      if username.None? || password.None? {
        result := Refused(MissingCredentials, Some(BadCredentials));
        return;
      }
      var request := AuthRequest(o, username.value, password.value);
      sent := sent + [request];
      match remote
      case TransportError =>
        result := Refused(Unreachable, None);
      case Status(code) =>
        if code == 200 {
          result := Granted;
          session := new Session(username.value, password.value, Unset);
        } else {
          result := Refused(AuthError, Some(BadCredentials));
        }
    }

    /** The subscribe hook. */
    method AuthorizeSubscribe(o: OptionValues, topic: string, remote: Remote) returns (result: HookResult)
      modifies this, session
      ensures session == old(session)
      ensures var s := SubscribeStep(o, old(State()), topic, remote);
              State() == s.record && result == s.result && sent == old(sent) + Sent(s.request)
    {
      if session == null {
        result := Threw(TypeError);
        return;
      }
      var request := TopicRequest(o, topic, session.username, session.password);
      sent := sent + [request];
      match remote
      case TransportError =>
        result := Refused(Unreachable, None);
      case Status(code) =>
        if session.accessTo.Unset? {
          session.accessTo := Table(map[]);
        }
        match session.accessTo
        case Blank =>
          result := Threw(TypeError);
        case Table(entries) =>
          session.accessTo := Table(entries[topic := code == 200]);
          result := if code == 200 then Granted else Refused(SubscribeDenied, None);
    }

    /** The publish hook. */
    method AuthorizePublish(o: OptionValues, topic: string, remote: Remote) returns (result: HookResult)
      modifies this, session
      ensures session == old(session)
      ensures var s := PublishStep(o, old(State()), topic, remote);
              State() == s.record && result == s.result && sent == old(sent) + Sent(s.request)
    {
      if session == null {
        result := Threw(TypeError);
        return;
      }
      if session.accessTo.Unset? {
        session.accessTo := Table(map[]);
      }
      if Allows(session.accessTo, topic) {
        result := Granted;
        return;
      }
      var request := TopicRequest(o, topic, session.username, session.password);
      sent := sent + [request];
      match remote
      case TransportError =>
        result := Refused(Unreachable, None);
      case Status(code) =>
        if code != 200 {
          result := Threw(ReferenceError);
        } else {
          match session.accessTo
          case Blank =>
            result := Threw(TypeError);
          case Table(entries) =>
            session.accessTo := Table(entries[topic := true]);
            result := Granted;
        }
    }
  }
}
