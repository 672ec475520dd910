# shoots: the printer session engine, in Dafny

This project models the core of `shoots`, a command-line client for Bambu Lab 3D printers:
- the `Printer` session object, which talks to the printer over MQTT;
- the parser of the printer's UDP discovery datagram.

The session learns the device id from the first report it sees. It sends commands on `device/<id>/request`. Each command is a JSON object keyed by a namespace, numbered with a per-session sequence id and terminated by a NUL byte. Incoming reports are folded into a state dictionary:
- A `push_status` print report copies an allowlist of nine fields, but only those whose value differs, and reports the set of changed keys.
- A `get_version` info report stores the module list.

`on_message` stores that set under `_last_changed` and wakes waiters. `on_disconnect` either marks the session disconnected or retries `reconnect()` until it succeeds.

The model has seven modules:
- `PyBase`: bytes, `Option`, and Python exceptions as values (`Result`).
- `PyText`: `str.find`, `split`, `join`, `strip`, `int()` on text, and `str()` of numbers.
- `PyValues`: decoded JSON values, with Python's `==`, truthiness, `in`, `dict.get` and `int()` on them.
- `Codec`: the outbound message, the request topic, NUL framing, the topic split, and the `print` parameters.
- `Reports`: the handling of print and info reports, the stage table, `print_stage` and `task_name`.
- `Session`: the `Printer` class, plus pure functions over a `Snapshot` value that specify its handlers.
- `Discovery`: the `NOTIFY *` header parse.

The class methods are proved equal to those specification functions. The session's properties are lemmas about the functions.

Where the behaviour is about exceptions, the model follows the code:
- An unpackable topic raises ValueError.
- A report of the wrong shape raises TypeError, AttributeError or KeyError.
- `send` raises `NotReady` when there is no device id.

Each handler's result is `Ok` or `Raised(e)`. When a handler raises, the state changes made before the raise are kept, as in the code.

Where the code differs from how its behaviour is usually described, the model follows the code:
- A payload that is text but not JSON does not leave `_last_changed` alone. `_process_msg` returns None, so `on_message` stores None there (`Session.UndecodableOnlyLastChanged`).
- Several exceptions escape `on_message`. When one does, nothing is stored under `_last_changed` and waiters are not woken. They are:
  - ValueError from a topic that does not unpack;
  - UnicodeDecodeError from a payload that `json.loads` cannot decode to text (`except json.JSONDecodeError` does not catch it; `Session.NonTextEscapes`);
  - NotReady from the pushall sent when an empty device id is bound;
  - TypeError, AttributeError and KeyError from a report of the wrong shape.

## Model

| member | source | states |
|---|---|---|
| PyText.FindFrom | src/shoots/discover.py:22 | the index returned is an occurrence of the separator at or after the start, with no occurrence between the start and it; None means there is no occurrence at all |
| PyText.JoinSplit | src/shoots/printer.py:201 | joining the pieces of `split(sep)` with `sep` gives back the original text |
| PyText.SplitPiecesFree | src/shoots/printer.py:201 | no piece of `split(sep)` contains `sep` |
| PyText.SplitJoin | src/shoots/printer.py:201 | splitting a join of pieces that do not contain the one-character separator gives back exactly those pieces |
| PyText.NatText | src/shoots/printer.py:114 | `str()` of a natural number is non-empty and all decimal digits |
| PyText.NatTextValue | src/shoots/printer.py:112 | the digits `str()` writes for a natural number read back as that number |
| PyText.ParseIntText | src/shoots/printer.py:112 | `int(str(n)) == n` for every integer, negative ones included |
| PyValues.PyEqReflexive | src/shoots/printer.py:254 | every decoded value is `==` to itself, containers included |
| PyValues.PyEqSymmetric | src/shoots/printer.py:254 | Python `==` on decoded values is symmetric |
| PyValues.PyEqStr | src/shoots/printer.py:245 | a value is `==` to a string exactly when it is that string, so the push_status test is exact |
| PyValues.Contains | src/shoots/printer.py:226-228 | `key in v` raises exactly for None, booleans and numbers; on a dict it is key membership |
| PyValues.PyInt | src/shoots/printer.py:112 | `int(v)` raises TypeError exactly when v is neither a number nor a string; it raises only TypeError or ValueError; on an int it is the identity |
| Codec.Message | src/shoots/printer.py:158-159 | the message has the namespace as its only key; its body has exactly the keys command, sequence_id and the data keys; data overrides command and sequence_id |
| Codec.UnframeFrame | src/shoots/printer.py:205-208 | `Codec.Unframe` of `Codec.Frame` of a request body gives back the body: exactly one trailing NUL is stripped |
| Codec.UnframeOnlyRequests | src/shoots/printer.py:205-208 | `Codec.Unframe` leaves payloads of any topic kind other than request untouched |
| Codec.SplitTopicSegments | src/shoots/printer.py:201 | a topic that `Codec.SplitTopic` unpacks is its three segments joined by '/', none of which contains '/' |
| Codec.SplitTopicOfSegments | src/shoots/printer.py:201 | `Codec.SplitTopic` unpacks three '/'-free segments joined by '/' to exactly those segments |
| Codec.RequestTopicSplits | src/shoots/printer.py:160 | `Codec.RequestTopic` of a '/'-free device id unpacks to ('device', id, 'request') |
| Codec.PrintParams | src/shoots/printer.py:170-189 | the print parameters are the fourteen defaults plus every argument but 'file'; arguments override defaults |
| Codec.PrintOverride | src/shoots/printer.py:172-188 | overriding one default changes that parameter and leaves every other default as it was |
| Codec.PrintDefaultsNameJob | src/shoots/printer.py:172-178 | the job is named after the file, fetched from 'ftp://' + file, and bed levelling is on by default |
| Reports.CopyKeysExact | src/shoots/printer.py:249-256 | the copy loop's changed set is exactly the keys present in the payload whose value is not `==` to the stored one; each of those now holds the payload's value and every other key is unchanged |
| Reports.AllowlistDistinct | src/shoots/printer.py:250-252 | the nine allowlisted keys are distinct, and neither 'print' nor 'remain_min' is among them |
| Reports.RemainMinutes | src/shoots/printer.py:258-262 | `mins % 60` exists exactly for numbers; it lies in [0, 60) and differs from the input by a whole multiple of 60; for ints it is an int |
| Reports.RemainMinutesExample | src/shoots/printer.py:262 | 125 minutes gives 5, and -5 gives 55 (floor modulo) |
| Reports.PushStatusSteps | src/shoots/printer.py:238-269 | a push_status report returns the copy loop's changed set; it raises exactly when the stored remaining time is not a number; its state is the loop's, with only remain_min possibly added |
| Reports.PushStatusDiff | src/shoots/printer.py:238-269 | a push_status report (`Reports.ReportPrint`) returns exactly the differing allowlisted keys; each of those now holds the payload's value; afterwards each allowlisted key in the payload is `==` to the payload's value; 'print' holds the payload; no other key changes except remain_min |
| Reports.ChangedIsStateDiff | src/shoots/printer.py:238-269 | the set a successful push_status report returns is exactly the allowlisted keys whose stored value the report added or replaced with a different value |
| Reports.ReprocessYieldsNothing | src/shoots/printer.py:253-256 | processing the same push_status report twice gives an empty changed set the second time |
| Reports.RemainMinDerived | src/shoots/printer.py:258-267 | after a push_status report that stores a remaining time, remain_min is that time modulo 60 |
| Reports.EmptyPrintNoChange | src/shoots/printer.py:239-241 | a report whose 'print' is missing or falsy returns None and changes nothing |
| Reports.OtherPrintCommand | src/shoots/printer.py:243-247 | a print report with another command stores the payload under 'print' and returns None |
| Reports.NonReportUnchanged | src/shoots/printer.py:226-229 | `Reports.Dispatch` of a message on a topic other than report changes no state and returns None |
| Reports.VersionReplaced | src/shoots/printer.py:226-234 | every report without 'print' whose 'info' is a get_version command, whatever its other keys, stores the module list under 'version' wholesale, returns None and changes nothing else |
| Reports.PrintStage | src/shoots/printer.py:109-114 | with no stored stage the text is 'Stage Unknown'; it raises exactly when the stored stage is neither a number nor a string |
| Reports.PrintStageNumber | src/shoots/printer.py:110-114 | an integer stage 1, 2 or 3 reads Idle, Printing or Paused; any other integer reads 'Stage <n>' |
| Reports.PrintStageText | src/shoots/printer.py:112-114 | a stage stored as decimal text reads the same as the number |
| Reports.TaskName | src/shoots/printer.py:116-118 | the task name is the stored subtask_name, or 'Unknown' when absent |
| Reports.TaskNameAfterReport | src/shoots/printer.py:253-256 | after a push_status report carrying a subtask_name, the task name is that name |
| Session.SendSpec | src/shoots/printer.py:152-161 | a send raises NotReady and changes nothing exactly when there is no non-empty device id; otherwise the counter grows by one and the command is sent with the new value as its id |
| Session.UndecodableOnlyLastChanged | src/shoots/printer.py:209-216 | a payload that `json.loads` rejects with JSONDecodeError changes nothing but '_last_changed', which becomes None |
| Session.NonTextEscapes | src/shoots/printer.py:209-216 | a payload that `json.loads` cannot decode to text raises UnicodeDecodeError out of `on_message` and changes nothing, '_last_changed' included |
| Session.DeviceBoundOnce | src/shoots/printer.py:218-219 | once the device id is bound, no message changes it or sends a command |
| Session.ReportBindsOrigin | src/shoots/printer.py:200-219 | while unbound, the first decodable report on any topic of kind 'report' binds the device id to the topic's middle segment |
| Session.FirstReportBinds | src/shoots/printer.py:218-222 | the first decodable report on `device/<id>/report` binds the device id to `<id>`; with an empty state exactly one pushall follows, numbered one past the counter, unless the id is empty, in which case NotReady is raised; with a non-empty state nothing is sent |
| Session.PushStatusLastChanged | src/shoots/printer.py:238-275 | on a bound session a push_status report escapes exactly when the report raises; otherwise '_last_changed' holds exactly the allowlisted keys whose payload value differs from the stored one |
| Session.EchoedRequestIgnored | src/shoots/printer.py:205-210 | a published command echoed back on the request topic is classified (`Session.Classify`) with exactly its serialised body and changes nothing but '_last_changed' |
| Session.NonReportNeverBinds | src/shoots/printer.py:218-219 | while no device id is bound, a message on any topic kind other than report leaves it unbound, sends nothing and keeps the sequence number |
| Session.EmptyDeviceNeverReady | src/shoots/printer.py:154-155 | once the device id is bound to the empty string, every send raises NotReady and no message rebinds the id |
| Session.FirstDecisive | src/shoots/printer.py:283-290 | the retry loop stops at the first reconnect attempt that is not OSError or TimeoutError, and every attempt before it was one of those |
| Session.DisconnectSpec | src/shoots/printer.py:277-295 | the outcome is terminal exactly when reconnect is off; a reconnect ends at a successful attempt after only transient failures, an escaping error at a failed one, and a loop still retrying has seen only transient failures |
| Session.Printer.constructor | src/shoots/printer.py:66-73 | a new session has sequence 0, an empty state, nothing sent and the given device id |
| Session.Printer.Send | src/shoots/printer.py:152-161 | the new state is as SendSpec states; on success the framed serialised message goes to `Codec.RequestTopic` of the device id; the invariant keeps command i numbered i + 1 |
| Session.Printer.PushAll | src/shoots/printer.py:163-165 | sends pushing/pushall with push_target 1 and version 1 |
| Session.Printer.Info | src/shoots/printer.py:167-168 | sends info/get_version with no parameters |
| Session.Printer.Print | src/shoots/printer.py:170-189 | raises KeyError('file') and sends nothing when no file is given; otherwise sends print/project_file with the merged parameters |
| Session.Printer.Stop | src/shoots/printer.py:191-192 | sends print/stop with an empty param |
| Session.Printer.Pause | src/shoots/printer.py:194-195 | sends print/pause with an empty param |
| Session.Printer.Resume | src/shoots/printer.py:197-198 | sends print/resume with an empty param |
| Session.Printer.OnConnect | src/shoots/printer.py:147-150 | attempts a pushall and swallows NotReady: the state after it is the pushall's, whether or not it was sent |
| Session.Printer.ProcessReportPrint | src/shoots/printer.py:238-269 | the in-place copy loop and remain_min update leave exactly the result and state `Reports.ReportPrint` specifies |
| Session.Printer.ProcessReportInfo | src/shoots/printer.py:231-236 | the result and new state are those `Reports.ReportInfo` specifies, including its KeyError and TypeError cases |
| Session.Printer.ProcessMsg | src/shoots/printer.py:200-229 | the result and new session state are those `Session.ProcessMsgSpec` specifies, after `Session.Classify` sorts the topic and payload; commands sent keep their numbering |
| Session.Printer.ProcessReport | src/shoots/printer.py:226-229 | the result and new state are those `Reports.Dispatch` specifies: 'print' is tested before 'info', and a TypeError from the membership test propagates |
| Session.Printer.OnMessage | src/shoots/printer.py:271-275 | the result and new state are those `Session.OnMessageSpec` specifies; exactly one notify happens when nothing escapes, none otherwise |
| Session.Printer.OnDisconnect | src/shoots/printer.py:277-295 | the outcome is DisconnectSpec's; '_connected' becomes False only on the terminal path; one notify follows unless an error escaped or the loop is still retrying |
| Discovery.SplitOnce | src/shoots/discover.py:22-23 | a line splits into the text before its first space and the rest exactly when it contains a space, and `dict()` raises ValueError otherwise |
| Discovery.SplitOnceFirstSpace | src/shoots/discover.py:22 | only the first space separates: a space-free name followed by a space and any value, spaces included, splits into that name and value |
| Discovery.Insert | src/shoots/discover.py:22-23 | assigning a key makes it read the new value and leaves every other key's value as it was |
| Discovery.BuildDictSpec | src/shoots/discover.py:22-23 | `Discovery.BuildDict` raises ValueError exactly when a non-empty line has no space; otherwise each name maps to the value on the last line carrying it, and empty lines are skipped |
| Discovery.InsertDistinct | src/shoots/discover.py:22-23 | assigning a key never makes a name appear twice in the dict |
| Discovery.BuildDictDistinct | src/shoots/discover.py:22-23 | the header dict holds each name once |
| Discovery.LookupAt | src/shoots/discover.py:22-23 | in a dict whose names are distinct, every entry is what its name looks up |
| Discovery.LastShortenedNamed | src/shoots/discover.py:25 | when every name shortening like `k` is `k` itself, the shortened key holds what `k` holds |
| Discovery.HeaderValue | src/shoots/discover.py:21-25 | when no other header name shortens to the same key, the result of `Discovery.Headers` has that key exactly when a line carries the name, and its value is the value on the last such line |
| Discovery.LastValueAt | src/shoots/discover.py:22-23 | the value of a name is the one on the last line carrying it, whatever lines follow under other names |
| Discovery.Rekey | src/shoots/discover.py:25 | the result has one key per shortened name, valued by the last entry whose name shortens to it |
| Discovery.Discover | src/shoots/discover.py:21-25 | the result is None exactly when the datagram does not start with 'NOTIFY *'; undecodable bytes raise UnicodeDecodeError; only that and ValueError are raised |
| Discovery.HeaderNames | src/shoots/discover.py:22-25 | a successful `Discovery.Headers` parse has exactly the shortened names of the non-empty lines as keys |
| Discovery.PreambleLine | src/shoots/discover.py:22-25 | the preamble line splits at its first space into 'NOTIFY' and '* HTTP/1.1', and 'NOTIFY' shortens to 'NOTIF' |
| Discovery.PreambleEntry | src/shoots/discover.py:21-25 | a parsed datagram whose first line is 'NOTIFY * HTTP/1.1' has the entry 'NOTIF' with value '* HTTP/1.1', unless a later line's name also shortens to 'NOTIF' |
| Discovery.RepeatedHeaderLastWins | src/shoots/discover.py:22-23 | when a header name repeats, the later line's value wins |

## Left out

- MQTT client setup, TLS, `connect`/`connect_async`/`loop_start`, and the subscription to `#`: these are library and network plumbing. `client.publish` is a ghost record of the publications (`outbox`). The outcomes of `client.reconnect()` are a parameter of `OnDisconnect`.
- The disconnect and connect result codes only choose log messages. The `rc == 5` `loop_stop()` is transport plumbing.
- Logging, `pprint`, and the `print('unknown %s')` diagnostic in `_process_report_info` are output only.
- The condition variable, `wait()` and threading: waits block, so they are not modelled. Notifications are counted in the ghost field `notifications`.
- JSON text: `json.dumps(...).encode()` and `json.loads` are functions supplied to the session (`dumps`, `loads`). `loads` returns one of three outcomes: a parsed value, a JSONDecodeError (caught) or a UnicodeDecodeError (not caught). UTF-8 `bytes.decode()` in discovery is likewise a parameter of `Discover`.
- Reports.PushStatusDiff: the derived fields `remain_hr` (true division `mins / 60`, so 125 minutes would give 2.083…, not 2) and `remain_eta` (now plus a timedelta, read from the clock) are not modelled, and neither are the `eta` property and the OverflowError a huge remaining time would raise. Only `remain_min` is modelled.
- Reports.RemainMinutes: floats are real numbers, so NaN, infinities and rounding are not modelled. The ValueError `timedelta` raises for NaN is therefore absent, and so is the OverflowError it raises for a huge `mc_remaining_time` (src/shoots/printer.py:260): the model says the remaining time raises exactly when it is not a number.
- Reports.PushStatusSteps: the report raises exactly when the stored remaining time is not a number; the OverflowError `timedelta` raises for a huge remaining time (src/shoots/printer.py:260) is not modelled.
- PyValues.PyEqReflexive: holds only because the model's floats are reals. `json.loads` accepts `NaN`, and in Python `nan == nan` is false, so Python's `==` is not reflexive on such payloads.
- Reports.ReprocessYieldsNothing: a push_status report carrying NaN in an allowlisted field reports that key as changed every time it is processed again (the comparison at src/shoots/printer.py:254 is never equal). The model has no NaN, so the lemma covers only NaN-free payloads.
- PyText.FloatText: `str()` of a float is rendered in positional notation, not Python's exponent form for very large or small values.
- PyValues.PyInt: `int()` on text accepts ASCII whitespace and ASCII digits only, not other Unicode whitespace or digits.
- Session.Printer.Print: a `file` argument that is not a string is excluded by its precondition, since the command line always passes text.
- Dict key order is not modelled in results. The discovery parse does keep insertion order internally, because that order decides which value wins when shortened names collide.
- Session.Printer.OnDisconnect: the retry loop runs over a finite list of attempt outcomes. When they are all transient, the outcome `StillRetrying` stands for a loop that has not yet ended.
- `connect_ftp`, `ImplicitFTP_TLS`, the socket part of discovery and `UnableToDiscover` are file-transfer and socket I/O.
- The `key`, `host`, `device` and `state` properties are plain reads of the class fields.
