/**
 * The line format of the update log: `<timestamp> - <message>` followed by
 * a newline. The timestamp is an input; the caller reads the clock.
 */
module LogFormat {
  import opened Wrappers

  const LogSeparator: string := " - "

  /** The text `logToFile` appends for one message. */
  function LogLine(timestamp: string, message: string): string
  {
    timestamp + LogSeparator + message + "\n"
  }

  /** One parsed log line. */
  datatype LogEntry = LogEntry(timestamp: string, message: string)

  /** Index of the first space of `s`, or |s| when there is none. */
  function FirstSpace(s: string): (k: nat)
    ensures k <= |s|
    ensures forall j :: 0 <= j < k ==> s[j] != ' '
    ensures k < |s| ==> s[k] == ' '
    decreases |s|
  {
    if s == "" then 0
    else if s[0] == ' ' then 0
    else 1 + FirstSpace(s[1..])
  }

  /**
   * Reads a log line back: the timestamp is everything before the first
   * space, which must start the separator; the message runs up to the
   * final newline.
   */
  function ParseLogLine(line: string): Option<LogEntry>
  {
    var k := FirstSpace(line);
    if k + |LogSeparator| < |line| && line[k..k + |LogSeparator|] == LogSeparator && line[|line| - 1] == '\n'
    then Some(LogEntry(line[..k], line[k + |LogSeparator|..|line| - 1]))
    else None
  }

  /**
   * Every formatted line parses back to its parts, provided the timestamp
   * has no space (an ISO-8601 timestamp has none).
   */
  lemma ParseFormattedLine(timestamp: string, message: string)
    requires forall j :: 0 <= j < |timestamp| ==> timestamp[j] != ' '
    ensures ParseLogLine(LogLine(timestamp, message)) == Some(LogEntry(timestamp, message))
  {
    var line := LogLine(timestamp, message);
    FirstSpaceAfter(timestamp, LogSeparator + message + "\n");
    assert line == timestamp + (LogSeparator + message + "\n");
    var k := |timestamp|;
    assert line[..k] == timestamp;
    assert line[k..k + |LogSeparator|] == LogSeparator;
    assert line[k + |LogSeparator|..|line| - 1] == message;
  }

  /** A space-free head leaves the first space to the tail. */
  lemma {:induction false} FirstSpaceAfter(head: string, tail: string)
    requires forall j :: 0 <= j < |head| ==> head[j] != ' '
    requires tail != "" && tail[0] == ' '
    ensures FirstSpace(head + tail) == |head|
    decreases |head|
  {
    if head != "" {
      assert (head + tail)[1..] == head[1..] + tail;
      FirstSpaceAfter(head[1..], tail);
    } else {
      assert head + tail == tail;
    }
  }

  /** Conversely, whatever parses is exactly the formatted line of its parts. */
  lemma ParsedLineIsFormatted(line: string)
    requires ParseLogLine(line).Some?
    ensures LogLine(ParseLogLine(line).value.timestamp, ParseLogLine(line).value.message) == line
    ensures line[|line| - 1] == '\n'
  {
    var e := ParseLogLine(line).value;
    var k := FirstSpace(line);
    assert line == line[..k] + line[k..k + |LogSeparator|] + line[k + |LogSeparator|..|line| - 1] + [line[|line| - 1]];
  }
}
