/** The block-log extraction of routers/logs/logs_get.py (`block_logs`):
    pick the latest log of the block, parse its lines, and return the
    records between the executor's start message and the first separator
    line. The JSON decoder is a parameter: it gives the object's text
    fields, or nothing for a line it cannot decode. */
module LogsGet {
  import opened Wrappers
  import Text

  /** A log file of the pipeline's block runs. */
  datatype LogFile = LogFile(name: string, modifiedTimestamp: int, content: string)

  /** A decoded log line: its text fields by key. */
  type Fields = map<string, string>

  /** One returned record: "Log Level", "Timestamp" and "Message". */
  datatype Record = Record(level: string, timestamp: string, message: string)

  const StartMessage := "Start executing block with BlockExecutor."
  const Separator := "-----"

  // ---------------------------------------------------------------------
  // Selecting the log

  /** The logs named `<block>.log`, in order. */
  function LogsOfBlock(logs: seq<LogFile>, blockName: string): (r: seq<LogFile>)
    ensures forall l :: l in r <==> l in logs && l.name == blockName + ".log"
  {
    if logs == [] then []
    else (if logs[0].name == blockName + ".log" then [logs[0]] else []) + LogsOfBlock(logs[1..], blockName)
  }

  /** Log `i` has the largest timestamp, and every earlier log a smaller
      one. */
  predicate FirstLatest(logs: seq<LogFile>, i: int) {
    && 0 <= i < |logs|
    && (forall j :: 0 <= j < |logs| ==> logs[j].modifiedTimestamp <= logs[i].modifiedTimestamp)
    && (forall j :: 0 <= j < i ==> logs[j].modifiedTimestamp < logs[i].modifiedTimestamp)
  }

  /** `max(logs, key=lambda x: x["modified_timestamp"])`: the first log
      with the largest timestamp. */
  method Latest(logs: seq<LogFile>) returns (i: nat)
    requires |logs| > 0
    ensures FirstLatest(logs, i)
  {
    i := 0;
    var k := 1;
    while k < |logs|
      invariant 1 <= k <= |logs| && i < k
      invariant forall j :: 0 <= j < k ==> logs[j].modifiedTimestamp <= logs[i].modifiedTimestamp
      invariant forall j :: 0 <= j < i ==> logs[j].modifiedTimestamp < logs[i].modifiedTimestamp
    {
      if logs[k].modifiedTimestamp > logs[i].modifiedTimestamp {
        i := k;
      }
      k := k + 1;
    }
  }

  // ---------------------------------------------------------------------
  // Parsing the lines

  /** `line[20:]`. */
  function DropPrefix(line: string): string {
    if |line| >= 20 then line[20..] else ""
  }

  /** The decoded lines, undecodable ones skipped, in order. */
  function Parsed(lines: seq<string>, parse: string -> Option<Fields>): (r: seq<Fields>)
    ensures |r| <= |lines|
  {
    if lines == [] then []
    else
      var p := parse(DropPrefix(lines[0]));
      (if p.Some? then [p.value] else []) + Parsed(lines[1..], parse)
  }

  /** Every decoded record comes from a line, and every decodable line
      gives one. */
  lemma {:induction false} ParsedMembers(lines: seq<string>, parse: string -> Option<Fields>)
    ensures forall f :: f in Parsed(lines, parse) <==>
      exists l :: l in lines && parse(DropPrefix(l)) == Some(f)
  {
    if lines != [] {
      ParsedMembers(lines[1..], parse);
      assert forall l :: l in lines <==> l == lines[0] || l in lines[1..];
    }
  }

  /** The parse loop (lines 94-99). */
  method ParseContent(content: string, parse: string -> Option<Fields>) returns (contents: seq<Fields>)
    ensures contents == Parsed(Text.Split(content, '\n'), parse)
  {
    var lines := Text.Split(content, '\n');
    contents := [];
    var i := 0;
    while i < |lines|
      invariant 0 <= i <= |lines|
      invariant contents + Parsed(lines[i..], parse) == Parsed(lines, parse)
    {
      var p := parse(DropPrefix(lines[i]));
      ghost var here: seq<Fields> := if p.Some? then [p.value] else [];
      assert lines[i..][1..] == lines[i + 1..];
      assert Parsed(lines[i..], parse) == here + Parsed(lines[i + 1..], parse);
      assert contents + Parsed(lines[i..], parse) == (contents + here) + Parsed(lines[i + 1..], parse);
      if p.Some? {
        contents := contents + [p.value];
      }
      i := i + 1;
    }
    assert lines[|lines|..] == [];
  }

  // ---------------------------------------------------------------------
  // The window

  /** What the loop of lines 101-116 found from `cs`, having seen the
      start message (`started`) or not. A missing key fails. */
  function Collect(cs: seq<Fields>, started: bool): Result<seq<Record>, string> {
    if cs == [] then Success([])
    else
      var c := cs[0];
      if "message" !in c then Failure("KeyError")
      else if !started then Collect(cs[1..], c["message"] == StartMessage)
      else if Text.Contains(c["message"], Separator) then Success([])
      else if "level" !in c || "timestamp" !in c then Failure("KeyError")
      else
        match Collect(cs[1..], true)
        case Failure(e) => Failure(e)
        case Success(rest) => Success([Record(c["level"], c["timestamp"], c["message"])] + rest)
  }

  /** The record loop of `block_logs` (lines 101-116). */
  method Window(contents: seq<Fields>) returns (r: Result<seq<Record>, string>)
    ensures r == Collect(contents, false)
  {
    var found: seq<Record> := [];
    var start := false;
    var i := 0;
    assert contents[0..] == contents;
    forall rest: seq<Record> ensures found + rest == rest {}
    while i < |contents|
      invariant 0 <= i <= |contents|
      invariant Collect(contents, false) ==
        match Collect(contents[i..], start)
        case Failure(e) => Failure(e)
        case Success(rest) => Success(found + rest)
    {
      var c := contents[i];
      assert contents[i..][1..] == contents[i + 1..];
      if "message" !in c {
        return Failure("KeyError");
      }
      if !start {
        if c["message"] == StartMessage {
          start := true;
        }
      } else if Text.Contains(c["message"], Separator) {
        assert found + [] == found;
        return Success(found);
      } else {
        if "level" !in c || "timestamp" !in c {
          return Failure("KeyError");
        }
        var rec := Record(c["level"], c["timestamp"], c["message"]);
        forall rest: seq<Record> ensures found + ([rec] + rest) == (found + [rec]) + rest {}
        found := found + [rec];
      }
      i := i + 1;
    }
    assert contents[|contents|..] == [];
    assert found + [] == found;
    r := Success(found);
  }

  // ---------------------------------------------------------------------
  // The window, stated by positions

  predicate HasKeys(c: Fields) {
    "message" in c && "level" in c && "timestamp" in c
  }

  /** Every record carries the keys the loop reads. */
  predicate Keyed(cs: seq<Fields>) {
    forall k :: 0 <= k < |cs| ==> "message" in cs[k] && "level" in cs[k] && "timestamp" in cs[k]
  }

  function RecordOf(c: Fields): Record
    requires HasKeys(c)
  {
    Record(c["level"], c["timestamp"], c["message"])
  }

  function Records(cs: seq<Fields>): (r: seq<Record>)
    requires Keyed(cs)
    ensures |r| == |cs| && forall k :: 0 <= k < |cs| ==> r[k] == RecordOf(cs[k])
  {
    if cs == [] then [] else [RecordOf(cs[0])] + Records(cs[1..])
  }

  /** The index of the first start message. */
  function StartIndex(cs: seq<Fields>): (r: Option<nat>)
    requires Keyed(cs)
    ensures r.Some? ==> r.value < |cs| && cs[r.value]["message"] == StartMessage
    ensures r.Some? ==> forall k :: 0 <= k < r.value ==> cs[k]["message"] != StartMessage
    ensures r.None? ==> forall k :: 0 <= k < |cs| ==> cs[k]["message"] != StartMessage
  {
    if cs == [] then None
    else if cs[0]["message"] == StartMessage then Some(0)
    else match StartIndex(cs[1..])
      case None => None
      case Some(k) => Some(k + 1)
  }

  /** The index of the first separator message, or the length. */
  function StopIndex(cs: seq<Fields>): (r: nat)
    requires Keyed(cs)
    ensures r <= |cs|
    ensures r < |cs| ==> Text.Contains(cs[r]["message"], Separator)
    ensures forall k :: 0 <= k < r ==> !Text.Contains(cs[k]["message"], Separator)
  {
    if cs == [] then 0
    else if Text.Contains(cs[0]["message"], Separator) then 0
    else StopIndex(cs[1..]) + 1
  }

  lemma {:induction false} CollectStarted(cs: seq<Fields>)
    requires Keyed(cs)
    ensures Collect(cs, true) == Success(Records(cs[..StopIndex(cs)]))
  {
    if cs != [] && !Text.Contains(cs[0]["message"], Separator) {
      CollectStarted(cs[1..]);
      assert cs[..StopIndex(cs)] == [cs[0]] + cs[1..][..StopIndex(cs[1..])];
    }
  }

  lemma {:induction false} CollectWaiting(cs: seq<Fields>)
    requires Keyed(cs)
    ensures Collect(cs, false) ==
      match StartIndex(cs)
      case None => Success([])
      case Some(s) => Collect(cs[s + 1..], true)
  {
    if cs != [] {
      if cs[0]["message"] == StartMessage {
        assert cs[1..] == cs[0 + 1..];
      } else {
        CollectWaiting(cs[1..]);
        match StartIndex(cs[1..])
        case None =>
        case Some(s) => assert cs[1..][s + 1..] == cs[s + 2..];
      }
    }
  }

  /** With every record carrying its keys, the result is the records after
      the first start message, up to and excluding the first separator
      message after it, in order; without a start message it is empty. */
  lemma WindowByPositions(cs: seq<Fields>)
    requires Keyed(cs)
    ensures StartIndex(cs).None? ==> Collect(cs, false) == Success([])
    ensures StartIndex(cs).Some? ==>
      var after := cs[StartIndex(cs).value + 1..];
      Collect(cs, false) == Success(Records(after[..StopIndex(after)]))
  {
    CollectWaiting(cs);
    if StartIndex(cs).Some? {
      CollectStarted(cs[StartIndex(cs).value + 1..]);
    }
  }

  // ---------------------------------------------------------------------
  // The endpoint

  /** `block_logs` after the API call: the block's logs, the latest of them,
      its decoded lines and the window. */
  method BlockLogs(logs: seq<LogFile>, blockName: string, parse: string -> Option<Fields>) returns (r: Result<seq<Record>, string>)
    ensures LogsOfBlock(logs, blockName) == [] ==> r == Failure("Block does not exists or it does not have any logs yet!")
    ensures LogsOfBlock(logs, blockName) != [] ==>
      exists i :: FirstLatest(LogsOfBlock(logs, blockName), i)
        && r == Collect(Parsed(Text.Split(LogsOfBlock(logs, blockName)[i].content, '\n'), parse), false)
  {
    var candidates := LogsOfBlock(logs, blockName);
    if |candidates| == 0 {
      return Failure("Block does not exists or it does not have any logs yet!");
    }
    var i := Latest(candidates);
    var contents := ParseContent(candidates[i].content, parse);
    r := Window(contents);
  }
}
