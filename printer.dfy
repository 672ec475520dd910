/** The device session engine: the `Printer` object with its device id,
    command sequence counter and state dictionary; the commands it sends;
    and the handlers the MQTT client calls on connect, on each message
    and on disconnect. Each handler is specified by a function over a
    snapshot of the session, and the properties of the session are
    lemmas about those functions. */
module Session {
  import opened PyBase
  import opened PyText
  import opened PyValues
  import opened Codec
  import opened Reports

  /** What `client.publish` receives: a topic and the payload bytes. */
  datatype Publication = Publication(topic: string, payload: seq<byte>)

  /** The session's state as a value: the device id, the sequence counter,
      the state dictionary, and every command sent so far. */
  datatype Snapshot = Snapshot(device: Option<string>, sequence: nat, state: map<string, Value>, sent: seq<Request>)

  /** A handler's result and the snapshot after it. */
  datatype Step<T> = Step(result: Result<T>, after: Snapshot)

  /** `if not self._device`: a command needs a non-empty device id. */
  predicate Ready(device: Option<string>) {
    device.Some? && device.value != ""
  }

  /** `send(top, command, data)`: NotReady without a device id; otherwise
      the counter goes up by one and the command goes out with the new
      value as its sequence id. */
  function SendSpec(s: Snapshot, top: string, command: string, data: map<string, Value>): (t: Step<()>)
    ensures t.result.Raised? <==> !Ready(s.device)
    ensures t.result.Raised? ==> t.result.error == NotReady && t.after == s
    ensures t.result.Ok? ==>
      && t.after.sequence == s.sequence + 1
      && t.after.sent == s.sent + [Request(top, command, t.after.sequence, data)]
      && t.after.device == s.device && t.after.state == s.state
  {
    if !Ready(s.device) then Step(Raised(NotReady), s)
    else
      var n := s.sequence + 1;
      Step(Ok(()), s.(sequence := n, sent := s.sent + [Request(top, command, n, data)]))
  }

  /** What `json.loads` does with a payload: parse it, reject it with
      JSONDecodeError (caught), or fail to decode it to text at all with
      UnicodeDecodeError (not caught). */
  datatype Loaded = Parsed(value: Value) | NotJson | NotText

  /** A decoded inbound message: the topic's middle segment, its last
      segment, and the decoded payload. */
  datatype Envelope = Envelope(origin: string, kind: string, data: Value)

  /** The first steps of `_process_msg`: split the topic (ValueError unless
      it has three segments), unframe and decode the payload (None when
      `loads` rejects it as JSON, UnicodeDecodeError when it is not text). */
  function Classify(topic: string, payload: seq<byte>, loads: seq<byte> -> Loaded): Result<Option<Envelope>> {
    match SplitTopic(topic)
    case Raised(e) => Raised(e)
    case Ok(segments) =>
      match loads(Unframe(segments.2, payload))
      case NotText => Raised(UnicodeDecodeError)
      case NotJson => Ok(None)
      case Parsed(data) => Ok(Some(Envelope(segments.1, segments.2, data)))
  }

  /** `_process_msg`: after a successful decode, the first 'report' seen
      while the device id is None binds the id to the topic's middle
      segment and, if the state is still empty, sends one pushall; then
      the report is dispatched by kind. */
  function ProcessMsgSpec(s: Snapshot, topic: string, payload: seq<byte>, loads: seq<byte> -> Loaded): Step<Option<set<string>>> {
    match Classify(topic, payload, loads)
    case Raised(e) => Step(Raised(e), s)
    case Ok(None) => Step(Ok(None), s)
    case Ok(Some(env)) =>
      var binds := s.device.None? && env.kind == "report";
      var s1 := if binds then s.(device := Some(env.origin)) else s;
      var pushed := if binds && s.state == map[] then SendSpec(s1, "pushing", "pushall", PushallParams) else Step(Ok(()), s1);
      if pushed.result.Raised? then Step(Raised(pushed.result.error), pushed.after)
      else
        var a := Dispatch(pushed.after.state, env.kind, env.data);
        Step(a.result, pushed.after.(state := a.state))
  }

  /** The value stored under '_last_changed': None, or the set of keys. */
  function LastChanged(r: Option<set<string>>): Value {
    match r
    case None => Null
    case Some(keys) => Names(keys)
  }

  /** `on_message`: the value `_process_msg` returns is stored under
      '_last_changed'; when it raises, nothing is stored. */
  function OnMessageSpec(s: Snapshot, topic: string, payload: seq<byte>, loads: seq<byte> -> Loaded): Step<()> {
    var p := ProcessMsgSpec(s, topic, payload, loads);
    match p.result
    case Raised(e) => Step(Raised(e), p.after)
    case Ok(r) => Step(Ok(()), p.after.(state := p.after.state["_last_changed" := LastChanged(r)]))
  }

  /** An undecodable payload changes nothing but '_last_changed', which
      becomes None: no identity binding, no command, no report state. */
  lemma UndecodableOnlyLastChanged(s: Snapshot, topic: string, payload: seq<byte>, loads: seq<byte> -> Loaded)
    requires SplitTopic(topic).Ok?
    requires loads(Unframe(SplitTopic(topic).value.2, payload)) == NotJson
    ensures OnMessageSpec(s, topic, payload, loads) == Step(Ok(()), s.(state := s.state["_last_changed" := Null]))
  {
  }

  /** A payload that is not text escapes `on_message` with
      UnicodeDecodeError and changes nothing, '_last_changed' included. */
  lemma NonTextEscapes(s: Snapshot, topic: string, payload: seq<byte>, loads: seq<byte> -> Loaded)
    requires SplitTopic(topic).Ok?
    requires loads(Unframe(SplitTopic(topic).value.2, payload)) == NotText
    ensures OnMessageSpec(s, topic, payload, loads) == Step(Raised(UnicodeDecodeError), s)
  {
  }

  /** While the id is unbound, a message on any topic but 'report' leaves it
      unbound, sends nothing and does not advance the sequence number. */
  lemma NonReportNeverBinds(s: Snapshot, topic: string, payload: seq<byte>, loads: seq<byte> -> Loaded)
    requires s.device.None? && SplitTopic(topic).Ok? && SplitTopic(topic).value.2 != "report"
    ensures OnMessageSpec(s, topic, payload, loads).after.device == None
    ensures OnMessageSpec(s, topic, payload, loads).after.sent == s.sent
    ensures OnMessageSpec(s, topic, payload, loads).after.sequence == s.sequence
  { }

  /** Once the device id is known it never changes, whatever arrives. */
  lemma DeviceBoundOnce(s: Snapshot, topic: string, payload: seq<byte>, loads: seq<byte> -> Loaded)
    requires s.device.Some?
    ensures OnMessageSpec(s, topic, payload, loads).after.device == s.device
    ensures OnMessageSpec(s, topic, payload, loads).after.sent == s.sent
  {
  }

  /** The first decodable report on any topic of kind 'report' binds the
      device id to the topic's middle segment. */
  lemma ReportBindsOrigin(s: Snapshot, topic: string, payload: seq<byte>, loads: seq<byte> -> Loaded)
    requires s.device.None? && SplitTopic(topic).Ok? && SplitTopic(topic).value.2 == "report"
    requires loads(payload).Parsed?
    ensures OnMessageSpec(s, topic, payload, loads).after.device == Some(SplitTopic(topic).value.1)
  { }

  /** On a bound session a push_status report stores under '_last_changed'
      exactly the allowlisted keys whose payload value differs from the
      stored one; it escapes only where the report itself raises. */
  lemma PushStatusLastChanged(s: Snapshot, topic: string, payload: seq<byte>, loads: seq<byte> -> Loaded, data: Value)
    requires s.device.Some? && SplitTopic(topic).Ok? && SplitTopic(topic).value.2 == "report"
    requires loads(payload) == Parsed(data) && IsPushStatus(data)
    ensures
      var t := OnMessageSpec(s, topic, payload, loads);
      && (t.result.Ok? <==> ReportPrint(s.state, data).result.Ok?)
      && (t.result.Ok? ==>
            "_last_changed" in t.after.state &&
            t.after.state["_last_changed"] == Names(Differing(Allowlist, data.fields["print"].fields, s.state)))
  {
    PushStatusDiff(s.state, data);
  }

  /** The first decodable report on `device/<id>/report` binds the device id
      to `<id>`. If the state is still empty exactly one pushall follows,
      numbered one past the counter; if the id is empty that pushall
      raises NotReady instead. */
  lemma FirstReportBinds(s: Snapshot, id: string, payload: seq<byte>, loads: seq<byte> -> Loaded)
    requires s.device.None? && !Occurs(id, "/")
    requires loads(payload).Parsed?
    ensures
      var t := OnMessageSpec(s, "device/" + id + "/report", payload, loads);
      && t.after.device == Some(id)
      && (s.state == map[] && id != "" ==>
            t.after.sent == s.sent + [Request("pushing", "pushall", s.sequence + 1, PushallParams)])
      && (s.state == map[] && id == "" ==> t.result == Raised(NotReady) && t.after == s.(device := Some("")))
      && (s.state != map[] ==> t.after.sent == s.sent && t.after.sequence == s.sequence)
  {
    CharFree("device", '/');
    CharFree("report", '/');
    assert "device/" + id + "/report" == "device" + "/" + id + "/" + "report";
    SplitTopicOfSegments("device", id, "report");
  }

  /** A command the session published, echoed back by the device on its
      request topic, is decoded from exactly the serialised body and
      changes nothing but '_last_changed'. */
  lemma EchoedRequestIgnored(s: Snapshot, id: string, body: seq<byte>, loads: seq<byte> -> Loaded)
    requires !Occurs(id, "/") && s.device == Some(id)
    requires loads(body).Parsed?
    ensures Classify(RequestTopic(id), Frame(body), loads) == Ok(Some(Envelope(id, "request", loads(body).value)))
    ensures OnMessageSpec(s, RequestTopic(id), Frame(body), loads) == Step(Ok(()), s.(state := s.state["_last_changed" := Null]))
  {
    RequestTopicSplits(id);
    UnframeFrame(body);
  }

  /** A device id bound from a topic with an empty middle segment leaves the
      session unable to send for good: every command raises NotReady and
      no later report rebinds the id. */
  lemma EmptyDeviceNeverReady(s: Snapshot, topic: string, payload: seq<byte>, loads: seq<byte> -> Loaded,
                              top: string, command: string, data: map<string, Value>)
    requires s.device == Some("")
    ensures SendSpec(s, top, command, data) == Step(Raised(NotReady), s)
    ensures OnMessageSpec(s, topic, payload, loads).after.device == Some("")
  {
  }

  /** The outcome of one `client.reconnect()` call. */
  datatype Attempt = Succeeded | OsError | TimedOut | Failed

  /** OSError and TimeoutError are swallowed and retried. */
  predicate Transient(a: Attempt) {
    a == OsError || a == TimedOut
  }

  /** The index of the first attempt that ends the retry loop, if any. */
  function FirstDecisive(attempts: seq<Attempt>): (r: Option<nat>)
    ensures r.Some? ==> r.value < |attempts| && !Transient(attempts[r.value])
    ensures forall i :: 0 <= i < |attempts| && (r.None? || i < r.value) ==> Transient(attempts[i])
  {
    if attempts == [] then None
    else if !Transient(attempts[0]) then Some(0)
    else
      match FirstDecisive(attempts[1..])
      case None => None
      case Some(j) => Some(j + 1)
  }

  /** How `on_disconnect` ends: terminally (reconnect disabled); reconnected
      after some attempts; with an exception other than OSError or
      TimeoutError escaping; or, when every attempt given failed
      transiently, still inside its retry loop. */
  datatype Disconnect = Terminal | Reconnected(tries: nat) | Escaped(tries: nat) | StillRetrying

  function DisconnectSpec(reconnect: bool, attempts: seq<Attempt>): (d: Disconnect)
    ensures !reconnect <==> d == Terminal
    ensures d.Reconnected? ==> 0 < d.tries <= |attempts| && attempts[d.tries - 1] == Succeeded
    ensures d.Escaped? ==> 0 < d.tries <= |attempts| && attempts[d.tries - 1] == Failed
    ensures d.Reconnected? || d.Escaped? ==> forall i :: 0 <= i < d.tries - 1 ==> Transient(attempts[i])
    ensures d == StillRetrying ==> forall i :: 0 <= i < |attempts| ==> Transient(attempts[i])
  {
    if !reconnect then Terminal
    else
      match FirstDecisive(attempts)
      case None => StillRetrying
      case Some(i) => if attempts[i] == Succeeded then Reconnected(i + 1) else Escaped(i + 1)
  }

  class Printer {
    const host: string
    const key: string
    const reconnect: bool
    /** `json.dumps(msg).encode()`, left abstract. */
    const dumps: Value -> seq<byte>
    /** `json.loads`, with its two failure modes. */
    const loads: seq<byte> -> Loaded

    var device: Option<string>
    var sequence: nat
    var state: map<string, Value>
    /** Every command sent, in order. */
    ghost var sent: seq<Request>
    /** Every publication handed to the MQTT client, in order. */
    ghost var outbox: seq<Publication>
    /** How many times the condition was notified. */
    ghost var notifications: nat

    ghost function Snap(): Snapshot
      reads this
    {
      Snapshot(device, sequence, state, sent)
    }

    /** Command i was sent with sequence id i + 1, published to the
        request topic of the (by then fixed) device id as the framed
        serialisation of its message. */
    ghost predicate Valid()
      reads this
    {
      && |sent| == sequence && |outbox| == sequence
      && (forall i :: 0 <= i < |sent| ==> sent[i].sequence == i + 1)
      && (sequence > 0 ==> Ready(device))
      && (forall i :: 0 <= i < |outbox| ==>
            device.Some? && outbox[i] == Publication(RequestTopic(device.value), Frame(dumps(Message(sent[i])))))
    }

    /** A new session: nothing sent, an empty state, the given device id
        (None when it is to be learnt from the first report). */
    constructor (host: string, key: string, device: Option<string>, reconnect: bool,
                 dumps: Value -> seq<byte>, loads: seq<byte> -> Loaded)
      ensures Valid()
      ensures this.host == host && this.key == key && this.reconnect == reconnect
      ensures this.dumps == dumps && this.loads == loads
      ensures Snap() == Snapshot(device, 0, map[], []) && outbox == [] && notifications == 0
    {
      this.host := host;
      this.key := key;
      this.reconnect := reconnect;
      this.dumps := dumps;
      this.loads := loads;
      this.device := device;
      sequence := 0;
      state := map[];
      sent := [];
      outbox := [];
      notifications := 0;
    }

    /** `client.publish(topic, payload)`, recorded. */
    ghost method Publish(topic: string, payload: seq<byte>)
      modifies this`outbox
      ensures outbox == old(outbox) + [Publication(topic, payload)]
    {
      outbox := outbox + [Publication(topic, payload)];
    }

    method Send(top: string, command: string, data: map<string, Value>) returns (r: Result<()>)
      requires Valid()
      modifies this`sequence, this`sent, this`outbox
      ensures Valid()
      ensures Step(r, Snap()) == SendSpec(old(Snap()), top, command, data)
      ensures r.Ok? ==> outbox == old(outbox) + [Publication(RequestTopic(device.value), Frame(dumps(Message(Request(top, command, sequence, data)))))]
      ensures r.Raised? ==> outbox == old(outbox)
    {
      if device.None? || device.value == "" {
        return Raised(NotReady);
      }
      sequence := sequence + 1;
      var q := Request(top, command, sequence, data);
      Publish(RequestTopic(device.value), Frame(dumps(Message(q))));
      sent := sent + [q];
      r := Ok(());
    }

    method PushAll() returns (r: Result<()>)
      requires Valid()
      modifies this`sequence, this`sent, this`outbox
      ensures Valid()
      ensures Step(r, Snap()) == SendSpec(old(Snap()), "pushing", "pushall", PushallParams)
    {
      r := Send("pushing", "pushall", PushallParams);
    }

    method Info() returns (r: Result<()>)
      requires Valid()
      modifies this`sequence, this`sent, this`outbox
      ensures Valid()
      ensures Step(r, Snap()) == SendSpec(old(Snap()), "info", "get_version", map[])
    {
      r := Send("info", "get_version", map[]);
    }

    /** `print(**args)`: KeyError without a 'file' argument, before anything
        is sent; otherwise a project_file command with the merged parameters. */
    method Print(args: map<string, Value>) returns (r: Result<()>)
      requires Valid()
      requires "file" in args ==> args["file"].Str?
      modifies this`sequence, this`sent, this`outbox
      ensures Valid()
      ensures "file" !in args ==> r == Raised(KeyError("file")) && Snap() == old(Snap())
      ensures "file" in args ==> Step(r, Snap()) == SendSpec(old(Snap()), "print", "project_file", PrintParams(args))
    {
      if "file" !in args {
        return Raised(KeyError("file"));
      }
      r := Send("print", "project_file", PrintParams(args));
    }

    method Stop() returns (r: Result<()>)
      requires Valid()
      modifies this`sequence, this`sent, this`outbox
      ensures Valid()
      ensures Step(r, Snap()) == SendSpec(old(Snap()), "print", "stop", ControlParams)
    {
      r := Send("print", "stop", ControlParams);
    }

    method Pause() returns (r: Result<()>)
      requires Valid()
      modifies this`sequence, this`sent, this`outbox
      ensures Valid()
      ensures Step(r, Snap()) == SendSpec(old(Snap()), "print", "pause", ControlParams)
    {
      r := Send("print", "pause", ControlParams);
    }

    method Resume() returns (r: Result<()>)
      requires Valid()
      modifies this`sequence, this`sent, this`outbox
      ensures Valid()
      ensures Step(r, Snap()) == SendSpec(old(Snap()), "print", "resume", ControlParams)
    {
      r := Send("print", "resume", ControlParams);
    }

    /** `on_connect`: attempt a pushall and swallow NotReady. */
    method OnConnect()
      requires Valid()
      modifies this`sequence, this`sent, this`outbox
      ensures Valid()
      ensures Snap() == SendSpec(old(Snap()), "pushing", "pushall", PushallParams).after
    {
      var _ := PushAll();
    }

    /** `_process_report_print(data)`, with the copy loop over the allowlist. */
    method ProcessReportPrint(data: Value) returns (r: Result<Option<set<string>>>)
      modifies this`state
      ensures Applied(r, state) == ReportPrint(old(state), data)
    {
      if !data.Obj? {
        return Raised(AttributeError);
      }
      var printData := PrintPayload(data);
      if !Truthy(printData) {
        return Ok(None);
      }
      state := state["print" := printData];
      if !printData.Obj? {
        return Raised(AttributeError);
      }
      if Get(printData.fields, "command") != Str("push_status") {
        return Ok(None);
      }
      ghost var before := state;
      var newData: set<string> := {};
      for i := 0 to |Allowlist|
        invariant Copied(state, newData) == CopyKeys(Allowlist[..i], printData.fields, before)
      {
        var k := Allowlist[i];
        if k in printData.fields && !PyEq(printData.fields[k], Get(state, k)) {
          state := state[k := printData.fields[k]];
          newData := newData + {k};
        }
        assert Allowlist[..i + 1][..i] == Allowlist[..i];
      }
      assert Allowlist[..|Allowlist|] == Allowlist;
      if "mc_remaining_time" in state {
        match RemainMinutes(state["mc_remaining_time"])
        case None =>
          return Raised(TypeError);
        case Some(mins) =>
          state := state["remain_min" := mins];
      }
      return Ok(Some(newData));
    }

    /** `_process_report_info(data)`. */
    method ProcessReportInfo(data: Value) returns (r: Result<Option<set<string>>>)
      modifies this`state
      ensures Applied(r, state) == ReportInfo(old(state), data)
    {
      if !data.Obj? {
        return Raised(TypeError);
      }
      if "info" !in data.fields {
        return Raised(KeyError("info"));
      }
      var info := data.fields["info"];
      if !info.Obj? {
        return Raised(TypeError);
      }
      if "command" !in info.fields {
        return Raised(KeyError("command"));
      }
      if info.fields["command"] == Str("get_version") {
        if "module" !in info.fields {
          return Raised(KeyError("module"));
        }
        state := state["version" := info.fields["module"]];
      }
      return Ok(None);
    }

    /** `_process_msg(client, userdata, msg)`. */
    method ProcessMsg(topic: string, payload: seq<byte>) returns (r: Result<Option<set<string>>>)
      requires Valid()
      modifies this`device, this`sequence, this`state, this`sent, this`outbox
      ensures Valid()
      ensures Step(r, Snap()) == ProcessMsgSpec(old(Snap()), topic, payload, loads)
    {
      var segments := SplitTopic(topic);
      if segments.Raised? {
        return Raised(segments.error);
      }
      var printer, kind := segments.value.1, segments.value.2;
      var data := loads(Unframe(kind, payload));
      if data.NotText? {
        return Raised(UnicodeDecodeError);
      } else if data.NotJson? {
        return Ok(None);
      }
      if device.None? && kind == "report" {
        device := Some(printer);
        if state == map[] {
          var pushed := PushAll();
          if pushed.Raised? {
            return Raised(pushed.error);
          }
        }
      }
      r := ProcessReport(kind, data.value);
    }

    /** The dispatch at the end of `_process_msg`: a report carrying 'print'
        goes to the print handler, else one carrying 'info' to the info
        handler; nothing else changes the state. */
    method ProcessReport(kind: string, data: Value) returns (r: Result<Option<set<string>>>)
      modifies this`state
      ensures Applied(r, state) == Dispatch(old(state), kind, data)
    {
      if kind == "report" {
        var hasPrint := Contains(data, "print");
        if hasPrint.Raised? {
          return Raised(hasPrint.error);
        }
        if hasPrint.value {
          r := ProcessReportPrint(data);
          return;
        }
        var hasInfo := Contains(data, "info");
        if hasInfo == Ok(true) {
          var info := ProcessReportInfo(data);
          if info.Raised? {
            return Raised(info.error);
          }
        }
      }
      return Ok(None);
    }

    /** `on_message`: store what `_process_msg` returns under
        '_last_changed' and notify once; an exception escapes before either. */
    method OnMessage(topic: string, payload: seq<byte>) returns (r: Result<()>)
      requires Valid()
      modifies this`device, this`sequence, this`state, this`sent, this`outbox, this`notifications
      ensures Valid()
      ensures Step(r, Snap()) == OnMessageSpec(old(Snap()), topic, payload, loads)
      ensures notifications == old(notifications) + (if r.Ok? then 1 else 0)
    {
      var changed := ProcessMsg(topic, payload);
      if changed.Raised? {
        return Raised(changed.error);
      }
      state := state["_last_changed" := LastChanged(changed.value)];
      notifications := notifications + 1;
      r := Ok(());
    }

    /** `on_disconnect`: without reconnect, mark '_connected' False; with
        it, call `reconnect()` (whose outcomes are `attempts`, in order)
        until one succeeds, retrying on OSError and TimeoutError. One
        notify follows unless an exception escaped or the loop is still
        retrying. */
    method OnDisconnect(attempts: seq<Attempt>) returns (d: Disconnect)
      modifies this`state, this`notifications
      ensures d == DisconnectSpec(reconnect, attempts)
      ensures state == if d == Terminal then old(state)["_connected" := Bool(false)] else old(state)
      ensures notifications == old(notifications) + (if d == Terminal || d.Reconnected? then 1 else 0)
    {
      d := StillRetrying;
      var i := 0;
      while reconnect && i < |attempts|
        invariant 0 <= i <= |attempts|
        invariant forall j :: 0 <= j < i ==> Transient(attempts[j])
        invariant d == StillRetrying
        invariant state == old(state) && notifications == old(notifications)
      {
        if attempts[i] == Succeeded {
          d := Reconnected(i + 1);
          break;
        } else if attempts[i] == Failed {
          return Escaped(i + 1);
        }
        i := i + 1;
      }
      if !reconnect {
        state := state["_connected" := Bool(false)];
        d := Terminal;
      }
      if d == StillRetrying {
        return;
      }
      notifications := notifications + 1;
    }
  }
}
