/**
 * `Log(type, message)`: level 2 goes to the error console, level 3 only when
 * the debug option is loosely equal to `true`, every other level to the plain
 * console. The clock reading is a parameter: `time` is the formatted timestamp.
 */
module Logging {
  import opened Wrappers
  import opened JsValues

  /** The console method a line is written with. */
  datatype Console = ConsoleError | ConsoleDebug | ConsoleLog

  datatype Line = Line(console: Console, text: string)

  const ErrorLevel := 2
  const DebugLevel := 3

  /** The label that follows the timestamp. */
  function Label(level: int): string
  {
    if level == ErrorLevel then " ERROR: "
    else if level == DebugLevel then " DEBUG: "
    else " INFO: "
  }

  /** The line `Log` writes, or `None` for a debug message while debugging is off. */
  function Log(debug: JsValue, time: string, level: int, message: string): (r: Option<Line>)
    ensures r.None? <==> level == DebugLevel && !LooselyTrue(debug)
    ensures r.Some? ==> r.value.text == time + Label(level) + message
    ensures r.Some? ==> (r.value.console == ConsoleError <==> level == ErrorLevel)
    ensures r.Some? ==> (r.value.console == ConsoleDebug <==> level == DebugLevel)
  {
    if level == ErrorLevel then Some(Line(ConsoleError, time + Label(level) + message))
    else if level == DebugLevel then
      if LooselyTrue(debug) then Some(Line(ConsoleDebug, time + Label(level) + message)) else None
    else Some(Line(ConsoleLog, time + Label(level) + message))
  }

  /** The message can be read back from every line written: it follows the timestamp and the label. */
  lemma LogLineCarriesMessage(debug: JsValue, time: string, level: int, message: string)
    requires Log(debug, time, level, message).Some?
    ensures var t := Log(debug, time, level, message).value.text;
            |t| == |time| + |Label(level)| + |message| && t[|time| + |Label(level)|..] == message
  {
    var t := Log(debug, time, level, message).value.text;
    assert t == (time + Label(level)) + message;
  }

  /**
   * With the debug option given as the text "true" (a string option), debug
   * messages are never written: the text is not a spelling of the number one.
   */
  lemma DebugTextTrueStaysSilent(time: string, message: string)
    ensures Log(Str("true"), time, DebugLevel, message).None?
  {
    assert '1' !in "true";
    if LooselyTrue(Str("true")) {
      TextLooselyTrueHasDigitOne("true");
    }
  }
}
