/** The wire format between the session and the device: the request topic,
    the JSON object a command is sent as, the NUL framing, the split of an
    inbound topic, and the parameters of the session's command verbs. */
module Codec {
  import opened PyBase
  import opened PyText
  import opened PyValues

  /** An outbound command: namespace, command name, sequence id, parameters. */
  datatype Request = Request(top: string, command: string, sequence: nat, data: map<string, Value>)

  /** The object a request is serialised from:
      `{top: {'command': command, 'sequence_id': n}}` updated with the
      parameters, so a parameter named 'command' or 'sequence_id' wins. */
  function Message(q: Request): (m: Value)
    ensures m.Obj? && m.fields.Keys == {q.top} && m.fields[q.top].Obj?
    ensures
      var body := m.fields[q.top].fields;
      && body.Keys == {"command", "sequence_id"} + q.data.Keys
      && (forall k :: k in q.data ==> body[k] == q.data[k])
      && ("command" !in q.data ==> body["command"] == Str(q.command))
      && ("sequence_id" !in q.data ==> body["sequence_id"] == Int(q.sequence))
  {
    Obj(map[q.top := Obj(map["command" := Str(q.command), "sequence_id" := Int(q.sequence)] + q.data)])
  }

  /** The topic commands for a device are published to. */
  function RequestTopic(device: string): string {
    "device/" + device + "/request"
  }

  /** The serialised body followed by one NUL byte. */
  function Frame(body: seq<byte>): seq<byte> {
    body + [0]
  }

  /** A payload as it is handed to the JSON decoder: on a 'request' topic
      one trailing NUL is removed; any other payload is left as it is. */
  function Unframe(kind: string, payload: seq<byte>): seq<byte> {
    if kind == "request" && |payload| > 0 && payload[|payload| - 1] == 0
    then payload[..|payload| - 1]
    else payload
  }

  /** A request echoed back on its topic is unframed to exactly the body
      that was serialised, and only the one NUL goes: a body that itself
      ends in NUL keeps that byte. */
  lemma UnframeFrame(body: seq<byte>)
    ensures Unframe("request", Frame(body)) == body
    ensures Unframe("request", Frame(Frame(body))) == Frame(body)
  {
    assert Frame(body)[..|body|] == body;
    assert Frame(Frame(body))[..|body| + 1] == Frame(body);
  }

  /** Report payloads, and payloads of any topic other than 'request',
      reach the decoder unchanged, NUL or not. */
  lemma UnframeOnlyRequests(kind: string, payload: seq<byte>)
    requires kind != "request"
    ensures Unframe(kind, payload) == payload
  {
  }

  /** `_device, printer, topic = msg.topic.split('/')`: exactly three
      segments, or the unpacking raises ValueError. */
  function SplitTopic(topic: string): Result<(string, string, string)> {
    var parts := Split(topic, "/");
    if |parts| == 3 then Ok((parts[0], parts[1], parts[2])) else Raised(ValueError)
  }

  /** A topic that splits is its three segments joined by '/', and no
      segment contains '/'. */
  lemma SplitTopicSegments(topic: string)
    requires SplitTopic(topic).Ok?
    ensures
      var (a, b, c) := SplitTopic(topic).value;
      && topic == a + "/" + b + "/" + c
      && !Occurs(a, "/") && !Occurs(b, "/") && !Occurs(c, "/")
  {
    var parts := Split(topic, "/");
    JoinSplit(topic, "/");
    SplitPiecesFree(topic, "/");
    assert parts[1..][1..] == [parts[2]];
    assert Join(parts[1..], "/") == parts[1] + "/" + parts[2];
    assert parts[0] in parts && parts[1] in parts && parts[2] in parts;
  }

  /** Conversely, three segments free of '/' joined by '/' split back into
      exactly those segments. */
  lemma SplitTopicOfSegments(a: string, b: string, c: string)
    requires !Occurs(a, "/") && !Occurs(b, "/") && !Occurs(c, "/")
    ensures SplitTopic(a + "/" + b + "/" + c) == Ok((a, b, c))
  {
    var parts := [a, b, c];
    assert parts[1..] == [b, c] && parts[1..][1..] == [c];
    assert Join(parts[1..], "/") == b + "/" + c;
    assert Join(parts, "/") == a + "/" + b + "/" + c;
    SplitJoin(parts, '/');
  }

  /** The session's own request topic is read back as a 'request' topic
      naming the same device. */
  lemma RequestTopicSplits(device: string)
    requires !Occurs(device, "/")
    ensures SplitTopic(RequestTopic(device)) == Ok(("device", device, "request"))
  {
    CharFree("device", '/');
    CharFree("request", '/');
    assert RequestTopic(device) == "device" + "/" + device + "/" + "request";
    SplitTopicOfSegments("device", device, "request");
  }

  /** The parameters of `pushall`. */
  const PushallParams: map<string, Value> := map["push_target" := Int(1), "version" := Int(1)]

  /** The parameters of `stop`, `pause` and `resume`. */
  const ControlParams: map<string, Value> := map["param" := Str("")]

  /** The fixed protocol defaults of a print job for the given file. */
  function PrintDefaults(file: string): map<string, Value> {
    map[
      "param" := Str("Metadata/plate_1.gcode"),
      "subtask_name" := Str(file),
      "url" := Str("ftp://" + file),
      "bed_type" := Str("auto"),
      "timelapse" := Bool(false),
      "bed_leveling" := Bool(true),
      "flow_cali" := Bool(false),
      "vibration_cali" := Bool(true),
      "layer_inspect" := Bool(true),
      "use_ams" := Bool(true),
      "profile_id" := Str("0"),
      "project_id" := Str("0"),
      "subtask_id" := Str("0"),
      "task_id" := Str("0")
    ]
  }

  /** The parameters `print(**args)` sends: 'file' is popped from the
      arguments and names the job in the defaults, then every remaining
      argument overrides the default of the same name. */
  function PrintParams(args: map<string, Value>): (p: map<string, Value>)
    requires "file" in args && args["file"].Str?
    ensures p.Keys == PrintDefaults(args["file"].s).Keys + (args.Keys - {"file"})
    ensures "file" !in p
    ensures forall k :: k in args && k != "file" ==> p[k] == args[k]
    ensures forall k :: k in PrintDefaults(args["file"].s) && k !in args ==> p[k] == PrintDefaults(args["file"].s)[k]
  {
    PrintDefaults(args["file"].s) + (args - {"file"})
  }

  /** Overriding one default changes that one parameter and nothing else. */
  lemma PrintOverride(file: string, k: string, v: Value)
    requires k != "file" && k in PrintDefaults(file)
    ensures PrintParams(map["file" := Str(file), k := v]) == PrintDefaults(file)[k := v]
  {
    var args := map["file" := Str(file), k := v];
    var d := PrintDefaults(file);
    var p := PrintParams(args);
    assert args.Keys - {"file"} == {k};
    assert p.Keys == d[k := v].Keys;
    forall j | j in p ensures p[j] == d[k := v][j] {
      if j != k {
        assert j !in args || j == "file";
      }
    }
  }

  /** The job is named after the file and fetched from 'ftp://' + file;
      bed levelling is on unless overridden. */
  lemma PrintDefaultsNameJob(file: string)
    ensures PrintDefaults(file)["subtask_name"] == Str(file)
    ensures PrintDefaults(file)["url"] == Str("ftp://" + file)
    ensures PrintDefaults(file)["bed_leveling"] == Bool(true)
  {
  }
}
