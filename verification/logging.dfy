/**
 * JRADefaultLogEngine: the framework's default logging engine. It keeps,
 * per event-flow key, the list of lines logged for that flow, and writes
 * to the console. The console is modelled as the sequence of everything
 * printed so far, one element per `print` call.
 */
module Logging {
  import opened Options

  /** JRAEventKeyFlowLogProtocol: an event flow's unique key and its default description. */
  datatype EventKey = EventKey(flowKey: string, defaultDescription: string)

  /** `log(with:_:)`: the key, the separator `:- `, then the data. */
  function KeyedLine(key: string, data: string): (r: string)
  {
    key + ":- " + data
  }

  /** The keyed line splits back into its key and its data at the separator. */
  lemma KeyedLineParts(key: string, data: string)
    ensures |KeyedLine(key, data)| == |key| + 3 + |data|
    ensures KeyedLine(key, data)[..|key|] == key
    ensures KeyedLine(key, data)[|key|..|key| + 3] == ":- "
    ensures KeyedLine(key, data)[|key| + 3..] == data
  {
    var r := KeyedLine(key, data);
    assert r == key + (":- " + data);
    assert r == (key + ":- ") + data;
  }

  /** The first line of a flow, naming the key and the given description or else the default one. */
  function StartLine(event: EventKey, description: Option<string>): (r: string)
  {
    "Started event: " + event.flowKey + ". Description: " + description.GetOr(event.defaultDescription)
  }

  /** Opening line of a dispatch report. */
  function Header(key: string): string {
    "JRALog: Dispatch for event " + key + "\n\n"
  }

  /** Closing line of a dispatch report. */
  function Footer(key: string): string {
    "JRALog: Ending dispatch event for " + key + "\n"
  }

  /** One logged line as the report lists it. */
  function Line(line: string): string {
    "-> " + line + "\n"
  }

  /** Each logged line of a flow, in order, as `-> line` on a line of its own. */
  function Lines(lines: seq<string>): string
  {
    if lines == [] then "" else Line(lines[0]) + Lines(lines[1..])
  }

  /** The report `dispatchEvent` prints: header, the flow's lines, footer. */
  function Report(key: string, lines: seq<string>): string {
    Header(key) + Lines(lines) + Footer(key)
  }

  /** Listing two runs of lines one after the other lists their concatenation. */
  lemma {:induction false} LinesAppend(s: seq<string>, t: seq<string>)
    ensures Lines(s + t) == Lines(s) + Lines(t)
  {
    if s == [] {
      assert s + t == t;
    } else {
      assert (s + t)[1..] == s[1..] + t;
      LinesAppend(s[1..], t);
    }
  }

  /** One more logged line adds exactly its listed line at the end. */
  lemma LinesSnoc(lines: seq<string>, line: string)
    ensures Lines(lines + [line]) == Lines(lines) + Line(line)
  {
    LinesAppend(lines, [line]);
    assert [line][1..] == [];
    assert Lines([line]) == Line(line) + "";
  }

  /** A report grows by exactly one listed line for each logged line. */
  lemma ReportGrows(key: string, lines: seq<string>, line: string)
    ensures Report(key, lines + [line]) == Header(key) + Lines(lines) + Line(line) + Footer(key)
  {
    LinesSnoc(lines, line);
  }

  /**
   * A flow started with a description and given one action reports
   * exactly its start line and the action, in order, between header and
   * footer.
   */
  lemma ReportOfOneAction(event: EventKey, description: Option<string>, action: string)
    ensures Report(event.flowKey, [StartLine(event, description), action])
         == Header(event.flowKey) + Line(StartLine(event, description)) + Line(action) + Footer(event.flowKey)
  {
    ReportGrows(event.flowKey, [StartLine(event, description)], action);
    assert [StartLine(event, description)] + [action] == [StartLine(event, description), action];
    assert [StartLine(event, description)][1..] == [];
    assert Lines([StartLine(event, description)]) == Line(StartLine(event, description)) + "";
  }

  class LogEngine {
    /** The lines logged so far for each running flow. */
    var eventMap: map<string, seq<string>>
    /** Everything printed so far, one element per `print` call. */
    var output: seq<string>

    constructor ()
      ensures eventMap == map[] && output == []
    {
      eventMap := map[];
      output := [];
    }

    /** `log(_:)`: prints the data as it is. */
    method Log(data: string)
      modifies this`output
      ensures output == old(output) + [data]
    {
      output := output + [data];
    }

    /** `log(with:_:)`: prints the keyed line. */
    method LogWith(key: string, data: string)
      modifies this`output
      ensures output == old(output) + [KeyedLine(key, data)]
    {
      output := output + [KeyedLine(key, data)];
    }

    /** `startEvent(for:description:)`: the flow restarts with its one start line, whatever it held. */
    method StartEvent(event: EventKey, description: Option<string>)
      modifies this`eventMap
      ensures eventMap == old(eventMap)[event.flowKey := [StartLine(event, description)]]
    {
      eventMap := eventMap[event.flowKey := [StartLine(event, description)]];
    }

    /**
     * `eventLog(_:for:)`: the action is appended to its flow, which is
     * first started with the default description when it is not running.
     */
    method EventLog(action: string, event: EventKey)
      modifies this`eventMap
      ensures event.flowKey in old(eventMap) ==>
                eventMap == old(eventMap)[event.flowKey := old(eventMap)[event.flowKey] + [action]]
      ensures event.flowKey !in old(eventMap) ==>
                eventMap == old(eventMap)[event.flowKey := [StartLine(event, None), action]]
    {
      if event.flowKey !in eventMap {
        StartEvent(event, None);
        assert [StartLine(event, None)] + [action] == [StartLine(event, None), action];
      }
      eventMap := eventMap[event.flowKey := eventMap[event.flowKey] + [action]];
    }

    /**
     * `dispatchEvent(for:)`: prints the flow's report, listing nothing for
     * a flow that is not running, and keeps the flow.
     */
    method DispatchEvent(event: EventKey)
      modifies this`output
      ensures output == old(output) + [Report(event.flowKey, if event.flowKey in eventMap then eventMap[event.flowKey] else [])]
    {
      var key := event.flowKey;
      var log := ComposeReport(key, if key in eventMap then eventMap[key] else []);
      output := output + [log];
    }

    /** The `log +=` loop of `dispatchEvent(for:)`. */
    static method ComposeReport(key: string, lines: seq<string>) returns (log: string)
      ensures log == Report(key, lines)
    {
      log := "";
      log := log + Header(key);
      for i := 0 to |lines|
        invariant log == Header(key) + Lines(lines[..i])
      {
        LinesSnoc(lines[..i], lines[i]);
        assert lines[..i + 1] == lines[..i] + [lines[i]];
        log := log + Line(lines[i]);
      }
      assert lines[..|lines|] == lines;
      log := log + Footer(key);
    }

    /** `endEvent(for:)`: the flow and its lines are forgotten; other flows are untouched. */
    method EndEvent(event: EventKey)
      modifies this`eventMap
      ensures eventMap == old(eventMap) - {event.flowKey}
    {
      eventMap := eventMap - {event.flowKey};
    }
  }
}
