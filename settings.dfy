/**
 * The broker's option record (`OPTIONS`): filling in defaults for the options
 * left undefined on the command line, the guard that takes the usage branch
 * instead, and the check that the protocol is `http` or `https`.
 */
module Settings {
  import opened JsValues

  /** The option values, one per command-line option. */
  datatype OptionValues = OptionValues(
    help: JsValue,
    weaviateHost: JsValue,
    weaviatePort: JsValue,
    protocol: JsValue,
    weaviateUrl: JsValue,
    debug: JsValue,
    mqtt: JsValue,
    mqttPort: JsValue,
    websockets: JsValue,
    websocketPort: JsValue)

  /** The names of the options. */
  datatype Field =
    | Help | WeaviateHost | WeaviatePort | Protocol | WeaviateUrl
    | Debug | Mqtt | MqttPort | Websockets | WebsocketPort

  function Get(o: OptionValues, f: Field): JsValue
  {
    match f
    case Help => o.help
    case WeaviateHost => o.weaviateHost
    case WeaviatePort => o.weaviatePort
    case Protocol => o.protocol
    case WeaviateUrl => o.weaviateUrl
    case Debug => o.debug
    case Mqtt => o.mqtt
    case MqttPort => o.mqttPort
    case Websockets => o.websockets
    case WebsocketPort => o.websocketPort
  }

  /** The value an undefined option receives; `Undefined` for the three options that get none. */
  function Default(f: Field): JsValue
  {
    match f
    case WeaviateHost => Str("localhost")
    case WeaviatePort => Num(80)
    case WeaviateUrl => Str("/weaviate/v1")
    case Debug => Bool(false)
    case Protocol => Str("https")
    case MqttPort => Num(1883)
    case WebsocketPort => Num(8888)
    case Help => Undefined
    case Mqtt => Undefined
    case Websockets => Undefined
  }

  /** Option `f` after defaulting: an undefined option takes its default, any other value stays. */
  function Filled(o: OptionValues, f: Field): JsValue
  {
    if Get(o, f).Undefined? then Default(f) else Get(o, f)
  }

  /**
   * The option record after the seven defaulting statements. The defaults are
   * written out field by field, as the statements write them; the ensures ties
   * each field to `Default`, and this flat form keeps the proof of
   * `Options.SetDefaults` small.
   */
  function Defaulted(o: OptionValues): (r: OptionValues)
    ensures forall f :: Get(r, f) == Filled(o, f)
  {
    OptionValues(
      o.help,
      if o.weaviateHost.Undefined? then Str("localhost") else o.weaviateHost,
      if o.weaviatePort.Undefined? then Num(80) else o.weaviatePort,
      if o.protocol.Undefined? then Str("https") else o.protocol,
      if o.weaviateUrl.Undefined? then Str("/weaviate/v1") else o.weaviateUrl,
      if o.debug.Undefined? then Bool(false) else o.debug,
      o.mqtt,
      if o.mqttPort.Undefined? then Num(1883) else o.mqttPort,
      o.websockets,
      if o.websocketPort.Undefined? then Num(8888) else o.websocketPort)
  }

  /** Defaulting leaves no option with a default undefined, and changes no option that was set. */
  lemma DefaultedDefinesAndKeeps(o: OptionValues, f: Field)
    ensures Default(f) != Undefined ==> Get(Defaulted(o), f) != Undefined
    ensures Get(o, f) != Undefined ==> Get(Defaulted(o), f) == Get(o, f)
    ensures Get(o, f) == Null ==> Get(Defaulted(o), f) == Null
  {
  }

  /** Defaulting a second time changes nothing. */
  lemma DefaultedIdempotent(o: OptionValues)
    ensures Defaulted(Defaulted(o)) == Defaulted(o)
  {
    var d := Defaulted(o);
    forall f ensures Get(Defaulted(d), f) == Get(d, f) {
      DefaultedDefinesAndKeeps(o, f);
    }
    assert Defaulted(d).weaviateHost == d.weaviateHost;
  }

  /**
   * The condition of `protocol != "http" && protocol != "https"`, negated:
   * loose inequality against a word makes every non-string value unequal.
   */
  function ProtocolAccepted(protocol: JsValue): (ok: bool)
    ensures ok <==> protocol == Str("http") || protocol == Str("https")
  {
    !(!LooselyEqualsWord(protocol, "http") && !LooselyEqualsWord(protocol, "https"))
  }

  /** How start-up ends. */
  datatype Startup =
    | ShowUsage                       // the usage branch is taken
    | InvalidProtocol                 // "Select a valid protocol.", then the process stops
    | Serve(options: OptionValues)    // the options the listeners and hooks run with

  /**
   * The usage guard `help || mqtt === undefined && websockets === undefined`:
   * `&&` binds tighter, so help asked for wins even when a listener is given.
   */
  predicate WantsUsage(o: OptionValues): (b: bool)
    ensures Truthy(o.help) ==> b
    ensures o.mqtt != Undefined || o.websockets != Undefined ==> (b <==> Truthy(o.help))
    ensures o.mqtt == Undefined && o.websockets == Undefined ==> b
  {
    Truthy(o.help) || (o.mqtt == Undefined && o.websockets == Undefined)
  }

  /** Start-up: the usage guard, then defaulting, then the protocol check. */
  function Start(o: OptionValues): (s: Startup)
    ensures s.ShowUsage? <==> WantsUsage(o)
    ensures s.Serve? ==> s.options == Defaulted(o) && ProtocolAccepted(s.options.protocol)
    ensures s.InvalidProtocol? <==>
              !WantsUsage(o) && o.protocol != Undefined && o.protocol != Str("http") && o.protocol != Str("https")
  {
    if WantsUsage(o) then ShowUsage
    else
      var d := Defaulted(o);
      if !ProtocolAccepted(d.protocol) then InvalidProtocol else Serve(d)
  }

  /** The option record as an object whose fields the defaulting statements overwrite. */
  class Options {
    var help: JsValue
    var weaviateHost: JsValue
    var weaviatePort: JsValue
    var protocol: JsValue
    var weaviateUrl: JsValue
    var debug: JsValue
    var mqtt: JsValue
    var mqttPort: JsValue
    var websockets: JsValue
    var websocketPort: JsValue

    /** The record as parsed from the command line. */
    constructor (parsed: OptionValues)
      ensures Values() == parsed
    {
      help, weaviateHost, weaviatePort := parsed.help, parsed.weaviateHost, parsed.weaviatePort;
      protocol, weaviateUrl, debug := parsed.protocol, parsed.weaviateUrl, parsed.debug;
      mqtt, mqttPort := parsed.mqtt, parsed.mqttPort;
      websockets, websocketPort := parsed.websockets, parsed.websocketPort;
    }

    function Values(): OptionValues
      reads this
    {
      OptionValues(help, weaviateHost, weaviatePort, protocol, weaviateUrl,
                   debug, mqtt, mqttPort, websockets, websocketPort)
    }

    /** The seven statements that fill in the undefined options, one field at a time. */
    method SetDefaults()
      modifies this
      ensures Values() == Defaulted(old(Values()))
    {
      if weaviateHost.Undefined? { weaviateHost := Str("localhost"); }
      if weaviatePort.Undefined? { weaviatePort := Num(80); }
      if weaviateUrl.Undefined? { weaviateUrl := Str("/weaviate/v1"); }
      if debug.Undefined? { debug := Bool(false); }
      if protocol.Undefined? { protocol := Str("https"); }
      if mqttPort.Undefined? { mqttPort := Num(1883); }
      if websocketPort.Undefined? { websocketPort := Num(8888); }
    }
  }
}
