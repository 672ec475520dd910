/** How a decoded report changes the session's state dictionary, stated as
    functions of the state before and the report: the push_status diff
    over the allowlisted fields, the derived remaining minutes, the
    version list, the dispatch by report kind; and the read projections
    `print_stage` and `task_name`. */
module Reports {
  import opened PyBase
  import opened PyText
  import opened PyValues

  /** The push_status fields that are copied and diffed, in loop order. */
  const Allowlist: seq<string> := [
    "mc_percent", "mc_remaining_time", "layer_num", "wifi_signal",
    "mc_print_stage", "mc_print_sub_stage", "nozzle_temper",
    "chamber_temper", "subtask_name"
  ]

  predicate Distinct(keys: seq<string>) {
    forall i, j :: 0 <= i < j < |keys| ==> keys[i] != keys[j]
  }

  /** The state and the set of changed keys the copy loop has built so far. */
  datatype Copied = Copied(state: map<string, Value>, changed: set<string>)

  /** One turn of the copy loop: a key is copied and recorded when the
      payload carries it with a value that is not `==` to `state.get(k)`. */
  function CopyKey(acc: Copied, payload: map<string, Value>, k: string): Copied {
    if k in payload && !PyEq(payload[k], Get(acc.state, k))
    then Copied(acc.state[k := payload[k]], acc.changed + {k})
    else acc
  }

  /** The copy loop run over `keys` in order, starting from `st`. */
  function CopyKeys(keys: seq<string>, payload: map<string, Value>, st: map<string, Value>): Copied
    decreases |keys|
  {
    if keys == [] then Copied(st, {})
    else CopyKey(CopyKeys(keys[..|keys| - 1], payload, st), payload, keys[|keys| - 1])
  }

  /** The keys among `keys` that the payload carries with a value that
      differs, in Python's sense, from the one in `st` (absent reads as None). */
  function Differing(keys: seq<string>, payload: map<string, Value>, st: map<string, Value>): set<string> {
    set k | k in keys && k in payload && !PyEq(payload[k], Get(st, k))
  }

  /** Over distinct keys the copy loop records exactly the differing keys,
      overwrites exactly those with the payload's values, and leaves every
      other key as it was. */
  lemma {:induction false} CopyKeysExact(keys: seq<string>, payload: map<string, Value>, st: map<string, Value>)
    requires Distinct(keys)
    ensures CopyKeys(keys, payload, st).changed == Differing(keys, payload, st)
    ensures forall k :: k in CopyKeys(keys, payload, st).state <==> k in st || k in Differing(keys, payload, st)
    ensures forall k :: k in CopyKeys(keys, payload, st).state ==>
      CopyKeys(keys, payload, st).state[k] == if k in Differing(keys, payload, st) then payload[k] else st[k]
    decreases |keys|
  {
    if keys != [] {
      var pre, x := keys[..|keys| - 1], keys[|keys| - 1];
      assert Distinct(pre) by {
        forall i, j | 0 <= i < j < |pre| ensures pre[i] != pre[j] { assert keys[i] == pre[i] && keys[j] == pre[j]; }
      }
      assert x !in pre by {
        forall i | 0 <= i < |pre| ensures pre[i] != x { assert keys[i] == pre[i]; }
      }
      CopyKeysExact(pre, payload, st);
      DifferingSnoc(pre, x, payload, st);
    }
  }

  /** Extending the keys by one key adds that key to the differing set
      exactly when it differs. */
  lemma DifferingSnoc(pre: seq<string>, x: string, payload: map<string, Value>, st: map<string, Value>)
    ensures Differing(pre + [x], payload, st) ==
      Differing(pre, payload, st) + (if x in payload && !PyEq(payload[x], Get(st, x)) then {x} else {})
  {
    assert forall k :: k in pre + [x] <==> k in pre || k == x;
  }

  /** What processing a message did: the value `_process_msg` returns, or
      the exception it raises, and the state dictionary afterwards. */
  datatype Applied = Applied(result: Result<Option<set<string>>>, state: map<string, Value>)

  /** `mins %= 60` on the stored remaining time; None where building the
      ETA's timedelta from it raises TypeError. The remainder lies in
      [0, 60) and differs from the input by a whole multiple of 60. */
  function RemainMinutes(v: Value): (r: Option<Value>)
    ensures r.Some? <==> IsNumber(v)
    ensures r.Some? ==> IsNumber(r.value) && 0.0 <= Numeric(r.value) < 60.0
    ensures r.Some? ==> var q := (Numeric(v) - Numeric(r.value)) / 60.0; q == q.Floor as real
    ensures v.Int? ==> r.Some? && r.value.Int?
  {
    match v
    case Int(i) =>
      IntRemainder(i);
      Some(Int(i % 60))
    case Bool(b) => Some(Int(if b then 1 else 0))
    case Float(x) =>
      FloatRemainder(x);
      Some(Float(x - 60.0 * ((x / 60.0).Floor as real)))
    case _ => None
  }

  /** Integer floor modulo 60 leaves a whole number of hours behind. */
  lemma IntRemainder(i: int)
    ensures 0 <= i % 60 < 60
    ensures (i as real - (i % 60) as real) / 60.0 == (i / 60) as real
  {
    assert i == 60 * (i / 60) + i % 60;
  }

  /** Float floor modulo 60 lies in [0, 60) and leaves a whole number of hours behind. */
  lemma FloatRemainder(x: real)
    ensures 0.0 <= x - 60.0 * ((x / 60.0).Floor as real) < 60.0
    ensures (x - (x - 60.0 * ((x / 60.0).Floor as real))) / 60.0 == (x / 60.0).Floor as real
  {
    var f := (x / 60.0).Floor as real;
    assert f <= x / 60.0 < f + 1.0;
  }

  /** A remaining time of 125 minutes leaves 5 minutes past the hour. */
  lemma RemainMinutesExample()
    ensures RemainMinutes(Int(125)) == Some(Int(5))
    ensures RemainMinutes(Int(-5)) == Some(Int(55))
  {
  }

  /** `data.get('print', {})`. */
  function PrintPayload(data: Value): Value
    requires data.Obj?
  {
    if "print" in data.fields then data.fields["print"] else Obj(map[])
  }

  /** `_process_report_print(data)`. */
  function ReportPrint(st: map<string, Value>, data: Value): Applied {
    if !data.Obj? then Applied(Raised(AttributeError), st)
    else
      var pd := PrintPayload(data);
      if !Truthy(pd) then Applied(Ok(None), st)
      else
        var st1 := st["print" := pd];
        if !pd.Obj? then Applied(Raised(AttributeError), st1)
        else if Get(pd.fields, "command") != Str("push_status") then Applied(Ok(None), st1)
        else
          var c := CopyKeys(Allowlist, pd.fields, st1);
          if "mc_remaining_time" !in c.state then Applied(Ok(Some(c.changed)), c.state)
          else
            match RemainMinutes(c.state["mc_remaining_time"])
            case None => Applied(Raised(TypeError), c.state)
            case Some(m) => Applied(Ok(Some(c.changed)), c.state["remain_min" := m])
  }

  /** A report whose 'print' object is a push_status command. */
  predicate IsPushStatus(data: Value) {
    && data.Obj? && "print" in data.fields
    && data.fields["print"].Obj?
    && Get(data.fields["print"].fields, "command") == Str("push_status")
  }

  /** No allowlisted key is repeated, and none of them is one of the keys
      the session writes besides them. */
  lemma AllowlistDistinct()
    ensures Distinct(Allowlist)
    ensures "print" !in Allowlist && "remain_min" !in Allowlist
  {
  }

  /** A push_status report returns the loop's changed set (or raises), and
      its state is the loop's, with 'remain_min' derived on top when a
      remaining time is stored. */
  lemma PushStatusSteps(st: map<string, Value>, data: Value)
    requires IsPushStatus(data)
    ensures
      var pd := data.fields["print"].fields;
      var c := CopyKeys(Allowlist, pd, st["print" := data.fields["print"]]);
      var a := ReportPrint(st, data);
      && (a.result.Ok? ==> a.result.value == Some(c.changed))
      && (a.result.Raised? <==> "mc_remaining_time" in c.state && !IsNumber(c.state["mc_remaining_time"]))
      && (a.state == c.state || ("mc_remaining_time" in c.state && a.state == c.state["remain_min" := a.state["remain_min"]]))
  {
    assert Truthy(data.fields["print"]) by { assert "command" in data.fields["print"].fields; }
  }

  /** A push_status report yields exactly the allowlisted keys whose value
      it changes; afterwards each allowlisted key it carries reads back
      equal to the payload's value; 'print' holds the payload; and no
      other key changes except 'remain_min' (so no key outside the
      allowlist is ever diffed or copied). It raises
      only when the stored remaining time is not a number. */
  lemma PushStatusDiff(st: map<string, Value>, data: Value)
    requires IsPushStatus(data)
    ensures
      var pd := data.fields["print"].fields;
      var a := ReportPrint(st, data);
      && (a.result.Ok? ==> a.result.value == Some(Differing(Allowlist, pd, st)))
      && (a.result.Raised? <==> "mc_remaining_time" in a.state && !IsNumber(a.state["mc_remaining_time"]))
      && (forall k :: k in Allowlist && k in pd ==> PyEq(Get(a.state, k), pd[k]))
      && "print" in a.state && a.state["print"] == data.fields["print"]
      && (forall k :: k in Differing(Allowlist, pd, st) ==> k in a.state && a.state[k] == pd[k])
      && (forall k :: k !in Differing(Allowlist, pd, st) && k != "print" && k != "remain_min" ==>
            (k in a.state <==> k in st) && (k in st ==> a.state[k] == st[k]))
  {
    var pd := data.fields["print"].fields;
    var st1 := st["print" := data.fields["print"]];
    var c := CopyKeys(Allowlist, pd, st1);
    var a := ReportPrint(st, data);
    AllowlistDistinct();
    CopyKeysExact(Allowlist, pd, st1);
    PushStatusSteps(st, data);
    assert Differing(Allowlist, pd, st1) == Differing(Allowlist, pd, st) by {
      forall k | k in Allowlist ensures Get(st1, k) == Get(st, k) { }
    }
    forall k | k in Allowlist && k in pd ensures PyEq(Get(a.state, k), pd[k]) {
      assert Get(a.state, k) == Get(c.state, k);
      if k in c.changed {
        PyEqReflexive(pd[k]);
      } else {
        PyEqSymmetric(pd[k], Get(st1, k));
      }
    }
  }

  /** The set a push_status report returns is exactly the allowlisted keys
      whose stored value the report altered (added, or replaced by a value
      that is not the same value). */
  lemma ChangedIsStateDiff(st: map<string, Value>, data: Value)
    requires IsPushStatus(data)
    requires ReportPrint(st, data).result.Ok?
    ensures
      var a := ReportPrint(st, data);
      a.result.value == Some(set k | k in Allowlist && k in a.state && (k !in st || a.state[k] != st[k]))
  {
    var pd := data.fields["print"].fields;
    var a := ReportPrint(st, data);
    PushStatusDiff(st, data);
    var altered := set k | k in Allowlist && k in a.state && (k !in st || a.state[k] != st[k]);
    forall k | k in Differing(Allowlist, pd, st) ensures k in altered {
      PyEqReflexive(pd[k]);
    }
    forall k | k in altered ensures k in Differing(Allowlist, pd, st) {
      assert k != "print" && k != "remain_min";
    }
    assert Differing(Allowlist, pd, st) == altered;
  }

  /** Processing the same push_status report a second time changes no
      allowlisted key: the returned set is empty. */
  lemma ReprocessYieldsNothing(st: map<string, Value>, data: Value)
    requires IsPushStatus(data)
    requires ReportPrint(st, data).result.Ok?
    ensures ReportPrint(ReportPrint(st, data).state, data).result == Ok(Some({}))
  {
    var pd := data.fields["print"].fields;
    var st2 := ReportPrint(st, data).state;
    PushStatusDiff(st, data);
    PushStatusDiff(st2, data);
    forall k | k in Allowlist && k in pd ensures PyEq(pd[k], Get(st2, k)) {
      PyEqSymmetric(Get(st2, k), pd[k]);
    }
    assert Differing(Allowlist, pd, st2) == {};
  }

  /** Whenever the state holds a remaining time after a push_status report,
      'remain_min' is derived from it, even when the report itself did
      not carry that field. */
  lemma RemainMinDerived(st: map<string, Value>, data: Value)
    requires IsPushStatus(data)
    requires ReportPrint(st, data).result.Ok?
    requires "mc_remaining_time" in ReportPrint(st, data).state
    ensures
      var a := ReportPrint(st, data);
      "remain_min" in a.state && RemainMinutes(a.state["mc_remaining_time"]) == Some(a.state["remain_min"])
  {
  }

  /** A report whose 'print' object is missing or empty changes nothing. */
  lemma EmptyPrintNoChange(st: map<string, Value>, data: Value)
    requires data.Obj? && !Truthy(PrintPayload(data))
    ensures ReportPrint(st, data) == Applied(Ok(None), st)
  {
  }

  /** A 'print' object with another command replaces 'print' wholesale,
      touches no allowlisted key and returns None. */
  lemma OtherPrintCommand(st: map<string, Value>, data: Value)
    requires data.Obj? && "print" in data.fields
    requires data.fields["print"].Obj? && |data.fields["print"].fields| > 0
    requires Get(data.fields["print"].fields, "command") != Str("push_status")
    ensures ReportPrint(st, data) == Applied(Ok(None), st["print" := data.fields["print"]])
  {
  }

  /** `_process_report_info(data)`: a get_version answer replaces
      'version' with its module list; other commands change nothing;
      a missing key raises KeyError, a non-dict raises TypeError. */
  function ReportInfo(st: map<string, Value>, data: Value): Applied {
    match data
    case Obj(m) =>
      if "info" !in m then Applied(Raised(KeyError("info")), st)
      else
        (match m["info"]
         case Obj(info) =>
           if "command" !in info then Applied(Raised(KeyError("command")), st)
           else if info["command"] != Str("get_version") then Applied(Ok(None), st)
           else if "module" !in info then Applied(Raised(KeyError("module")), st)
           else Applied(Ok(None), st["version" := info["module"]])
         case _ => Applied(Raised(TypeError), st))
    case _ => Applied(Raised(TypeError), st)
  }

  /** The dispatch in `_process_msg` once the payload is decoded: only
      'report' topics change the state; a 'print' member wins over an
      'info' member; `'print' in data` raises TypeError on None, numbers
      and bools. */
  function Dispatch(st: map<string, Value>, kind: string, data: Value): Applied {
    if kind != "report" then Applied(Ok(None), st)
    else
      match Contains(data, "print")
      case Raised(e) => Applied(Raised(e), st)
      case Ok(hasPrint) =>
        if hasPrint then ReportPrint(st, data)
        else
          match Contains(data, "info")
          case Raised(e) => Applied(Raised(e), st)
          case Ok(hasInfo) =>
            if hasInfo then
              var a := ReportInfo(st, data);
              Applied(if a.result.Raised? then a.result else Ok(None), a.state)
            else Applied(Ok(None), st)
  }

  /** Topics other than 'report' (requests echoed back included) leave
      the state as it is and return None. */
  lemma NonReportUnchanged(st: map<string, Value>, kind: string, data: Value)
    requires kind != "report"
    ensures Dispatch(st, kind, data) == Applied(Ok(None), st)
  {
  }

  /** A version report replaces the stored version list wholesale with the
      report's module list, and nothing else. */
  lemma VersionReplaced(st: map<string, Value>, m: map<string, Value>, info: map<string, Value>)
    requires "print" !in m && "info" in m && m["info"] == Obj(info)
    requires "command" in info && info["command"] == Str("get_version") && "module" in info
    ensures Dispatch(st, "report", Obj(m)) == Applied(Ok(None), st["version" := info["module"]])
  {
  }

  /** The stage names by number. */
  const Stages: map<int, string> := map[1 := "Idle", 2 := "Printing", 3 := "Paused"]

  /** `print_stage`: the name of `int(mc_print_stage)` when it is 1, 2 or
      3; otherwise 'Stage ' and the stored value, or 'Stage Unknown' when
      there is none. Values `int()` rejects with TypeError (None, lists,
      dicts) make it raise. */
  function PrintStage(st: map<string, Value>): (r: Result<string>)
    ensures "mc_print_stage" !in st ==> r == Ok("Stage Unknown")
    ensures r.Raised? <==> "mc_print_stage" in st && !IsNumber(st["mc_print_stage"]) && !st["mc_print_stage"].Str?
  {
    if "mc_print_stage" !in st then Ok("Stage Unknown")
    else
      var v := st["mc_print_stage"];
      match PyInt(v)
      case Ok(n) => Ok(if n in Stages then Stages[n] else "Stage " + Display(v))
      case Raised(e) => if e == ValueError then Ok("Stage " + Display(v)) else Raised(e)
  }

  /** The rendering of a stage number. */
  function StageName(n: int): string {
    if n in Stages then Stages[n] else "Stage " + IntText(n)
  }

  /** An integer stage renders as its name, or as 'Stage N'. */
  lemma PrintStageNumber(st: map<string, Value>, n: int)
    requires "mc_print_stage" in st && st["mc_print_stage"] == Int(n)
    ensures PrintStage(st) == Ok(StageName(n))
  {
  }

  /** A stage reported as decimal text (as the device sends it) renders
      exactly as the number does. */
  lemma PrintStageText(st: map<string, Value>, n: int)
    requires "mc_print_stage" in st && st["mc_print_stage"] == Str(IntText(n))
    ensures PrintStage(st) == Ok(StageName(n))
  {
    ParseIntText(n);
  }

  /** `task_name`: the stored 'subtask_name', or 'Unknown'. */
  function TaskName(st: map<string, Value>): (r: Value)
    ensures "subtask_name" !in st ==> r == Str("Unknown")
    ensures "subtask_name" in st ==> r == st["subtask_name"]
  {
    if "subtask_name" in st then st["subtask_name"] else Str("Unknown")
  }

  /** After a push_status report naming the task, `task_name` is that name. */
  lemma TaskNameAfterReport(st: map<string, Value>, data: Value, name: string)
    requires IsPushStatus(data)
    requires "subtask_name" in data.fields["print"].fields
    requires data.fields["print"].fields["subtask_name"] == Str(name)
    ensures TaskName(ReportPrint(st, data).state) == Str(name)
  {
    PushStatusDiff(st, data);
    PyEqStr(Get(ReportPrint(st, data).state, "subtask_name"), name);
  }
}
