/** The END telemetry event and its builder: the event's `edata` normalises a missing mode, page id
    or summary list to an empty value, so a reader never meets a null there. */
module TelemetryEnd {
  import opened Common

  const EID := "END"

  /** A summary entry: one JSON object. */
  type Summary = map<string, Value>

  /** The event: its id and its `edata` map. */
  datatype EndEvent = EndEvent(eid: string, edata: map<string, Value>)

  function Objs(summaries: seq<Summary>): (r: seq<Value>)
    ensures |r| == |summaries|
    ensures forall i :: 0 <= i < |r| ==> r[i] == Obj(summaries[i])
  {
    if summaries == [] then [] else [Obj(summaries[0])] + Objs(summaries[1..])
  }

  /** `createEData`. */
  function CreateEData(kind: string, mode: Option<string>, duration: int, pageid: Option<string>,
                       summaryList: Option<seq<Summary>>): (r: map<string, Value>)
    ensures r.Keys == {"type", "mode", "duration", "pageid", "summary"}
    // type and duration pass through unchanged
    ensures r["type"] == Str(kind) && r["duration"] == Num(duration)
    // mode and pageid are strings, never null: "" for a null or empty input, the input otherwise
    ensures r["mode"].Str? && (r["mode"].s == "" <==> NullOrEmpty(mode))
    ensures !NullOrEmpty(mode) ==> r["mode"] == Str(mode.value)
    ensures r["pageid"].Str? && (r["pageid"].s == "" <==> NullOrEmpty(pageid))
    ensures !NullOrEmpty(pageid) ==> r["pageid"] == Str(pageid.value)
    // summary is a list, never null: empty for a null or empty input, the entries in order otherwise
    ensures r["summary"].Arr? && |r["summary"].items| == |OrEmpty(summaryList)|
    ensures forall i :: 0 <= i < |r["summary"].items| ==> r["summary"].items[i] == Obj(OrEmpty(summaryList)[i])
  {
    map[
      "type" := Str(kind),
      "mode" := Str(if !NullOrEmpty(mode) then mode.value else ""),
      "duration" := Num(duration),
      "pageid" := Str(if !NullOrEmpty(pageid) then pageid.value else ""),
      "summary" := Arr(if !NullOrEmptyList(summaryList) then Objs(summaryList.value) else [])
    ]
  }

  /** A null and an empty mode, page id or summary list produce the same `edata`. */
  lemma NullAndEmptyAlike(kind: string, duration: int, mode: Option<string>, pageid: Option<string>,
                          summaryList: Option<seq<Summary>>)
    requires NullOrEmpty(mode) && NullOrEmpty(pageid) && NullOrEmptyList(summaryList)
    ensures CreateEData(kind, mode, duration, pageid, summaryList) == CreateEData(kind, None, duration, None, None)
    ensures CreateEData(kind, mode, duration, pageid, summaryList) == CreateEData(kind, Some(""), duration, Some(""), Some([]))
  {
  }

  /** Reading `edata` back recovers every non-empty builder value. */
  lemma EDataRecoversInputs(kind: string, mode: string, duration: int, pageid: string, summaryList: seq<Summary>)
    requires mode != "" && pageid != ""
    ensures var e := CreateEData(kind, Some(mode), duration, Some(pageid), Some(summaryList));
      && e["type"].s == kind && e["mode"].s == mode && e["duration"].n == duration && e["pageid"].s == pageid
      && (forall i :: 0 <= i < |summaryList| ==> e["summary"].items[i].fields == summaryList[i])
      && |e["summary"].items| == |summaryList|
  {
  }

  class EndBuilder {
    var kind: Option<string>
    var mode: Option<string>
    var duration: int
    var pageid: Option<string>
    var summaryList: Option<seq<Summary>>

    constructor()
      ensures kind.None? && mode.None? && duration == 0 && pageid.None? && summaryList.None?
    {
      kind := None;
      mode := None;
      duration := 0;
      pageid := None;
      summaryList := None;
    }

    /** `type(type)`. */
    method Type(kind: Option<string>) returns (o: Outcome)
      modifies this`kind
      ensures NullOrEmpty(kind) ==>
        o == Throw(IllegalArgument("Type shouldn't be null or empty.")) && this.kind == old(this.kind)
      ensures !NullOrEmpty(kind) ==> o == Pass && this.kind == kind
    {
      if NullOrEmpty(kind) {
        return Throw(IllegalArgument("Type shouldn't be null or empty."));
      }
      this.kind := kind;
      o := Pass;
    }

    /** `mode(mode)`: unchecked, null included. */
    method Mode(mode: Option<string>)
      modifies this`mode
      ensures this.mode == mode
    {
      this.mode := mode;
    }

    /** `duration(duration)`. */
    method Duration(duration: int)
      modifies this`duration
      ensures this.duration == duration
    {
      this.duration := duration;
    }

    /** `pageid(pageid)`: unchecked, null included. */
    method Pageid(pageid: Option<string>)
      modifies this`pageid
      ensures this.pageid == pageid
    {
      this.pageid := pageid;
    }

    /** `addSummary(summary)`: creates the list on first call; a null summary adds nothing. */
    method AddSummary(summary: Option<Summary>)
      modifies this`summaryList
      ensures summaryList == Some(OrEmpty(old(summaryList)) + if summary.Some? then [summary.value] else [])
    {
      if summaryList.None? {
        summaryList := Some([]);
      }
      assert summaryList.value == OrEmpty(old(summaryList));
      if summary.Some? {
        summaryList := Some(summaryList.value + [summary.value]);
      } else {
        assert summaryList.value + [] == summaryList.value;
      }
    }

    /** `build()`: needs a type; the event then carries `createEData` of the builder's values. */
    function Build(): (r: Result<EndEvent>)
      reads this
      ensures r.Built? <==> !NullOrEmpty(kind)
      ensures r.Thrown? ==> r.error == IllegalState("Type is required.")
      ensures r.Built? ==> r.value.eid == "END" && r.value.edata == CreateEData(kind.value, mode, duration, pageid, summaryList)
    {
      if NullOrEmpty(kind) then Thrown(IllegalState("Type is required."))
      else Built(EndEvent(EID, CreateEData(kind.value, mode, duration, pageid, summaryList)))
    }
  }
}
