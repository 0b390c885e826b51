/**
 * query.go: the entity lookups, the key-history report and the ad-hoc query.
 * None of them writes: the lookups are functions of a state snapshot and the two
 * handlers have no modifies clause.
 */
module Queries {
  import opened Wrappers
  import opened GoText
  import opened JsonText
  import opened Ledger
  import opened Lib

  // ---------------------------------------------------------------- lookups

  /**
   * getProject: the stored document decoded as a Project; it exists only when
   * the decoded ProjectID is non-empty (a missing key decodes to the zero value).
   */
  function GetProject(st: Store, id: string): (r: Result<Project>)
    ensures r.Success? <==> id in st && AsProject(st[id]).projectId != ""
    ensures r.Success? ==> r.value == AsProject(st[id])
    ensures r.Failure? ==> r.error == "project does not exist - " + id + ", '' '"
  {
    var project := if id in st then AsProject(st[id]) else NoProject;
    if |project.projectId| == 0 then
      Failure("project does not exist - " + id + ", '" + project.projectId + "' '")
    else Success(project)
  }

  /** getMilestone: as getProject, judged by the decoded MilestoneID. */
  function GetMilestone(st: Store, id: string): (r: Result<Milestone>)
    ensures r.Success? <==> id in st && AsMilestone(st[id]).milestoneId != ""
    ensures r.Success? ==> r.value == AsMilestone(st[id])
    ensures r.Failure? ==> r.error == "milestone does not exist - " + id + ", '' '"
  {
    var milestone := if id in st then AsMilestone(st[id]) else NoMilestone;
    if |milestone.milestoneId| == 0 then
      Failure("milestone does not exist - " + id + ", '" + milestone.milestoneId + "' '")
    else Success(milestone)
  }

  /** getActivity: as getProject, judged by the decoded ActivityID. */
  function GetActivity(st: Store, id: string): (r: Result<Activity>)
    ensures r.Success? <==> id in st && AsActivity(st[id]).activityId != ""
    ensures r.Success? ==> r.value == AsActivity(st[id])
    ensures r.Failure? ==> r.error == "activity does not exist - " + id + ", '' '"
  {
    var activity := if id in st then AsActivity(st[id]) else NoActivity;
    if |activity.activityId| == 0 then
      Failure("activity does not exist - " + id + ", '" + activity.activityId + "' '")
    else Success(activity)
  }

  /** A present key is not enough: a stored project with an empty ID is not found. */
  lemma PresentKeyIsNotExistence(st: Store, id: string)
    requires id in st && st[id] == ProjectDoc(NoProject)
    ensures GetProject(st, id).Failure?
  {
  }

  /** In a well-keyed state a found project carries the key it was looked up by. */
  lemma FoundUnderOwnKey(st: Store, id: string)
    requires WellKeyed(st)
    ensures GetProject(st, id).Success? ==> GetProject(st, id).value.projectId == id
    ensures GetMilestone(st, id).Success? ==> GetMilestone(st, id).value.milestoneId == id
    ensures GetActivity(st, id).Success? ==> GetActivity(st, id).value.activityId == id
  {
    if id in st {
      assert OwnId(st[id]) in {None, Some(id)};
    }
  }

  // ---------------------------------------------------------------- getHistory

  /**
   * One history entry: TxId and Timestamp quoted, the stored value verbatim (or
   * null for a delete), and IsDelete as the quoted text "true"/"false".
   */
  function HistoryEntry(m: Modification, localTime: Timestamp -> string): string {
    TxIdPart(m) + ValuePart(m) + TimestampPart(m, localTime) + IsDeletePart(m) + "}"
  }

  function TxIdPart(m: Modification): string {
    "{\"TxId\":" + "\"" + m.txId + "\""
  }

  function ValuePart(m: Modification): string {
    ", \"Value\":" + (if m.isDelete then "null" else m.value)
  }

  function TimestampPart(m: Modification, localTime: Timestamp -> string): string {
    ", \"Timestamp\":" + "\"" + localTime(m.timestamp) + "\""
  }

  function IsDeletePart(m: Modification): string {
    ", \"IsDelete\":" + "\"" + FormatBool(m.isDelete) + "\""
  }

  /** The entry renderer with the peer's time rendering fixed. */
  function Entries(localTime: Timestamp -> string): Modification -> string {
    m => HistoryEntry(m, localTime)
  }

  /** The response getHistory gives for the ledger's answer about a key. */
  function HistoryResponse(answer: Result<seq<Fetch<Modification>>>, localTime: Timestamp -> string): (r: Response)
    ensures !r.Panic?
    ensures answer.Failure? ==> r == Error(answer.error)
    ensures r.Ok? <==> answer.Success? && forall i :: 0 <= i < |answer.value| ==> answer.value[i].Next?
  {
    match answer
    case Failure(e) => Error(e)
    case Success(steps) =>
      DrainMeaning(steps);
      match ArrayOf(steps, Entries(localTime))
      case Success(text) => Ok(text)
      case Failure(e) => Error(e)
  }

  /** The writes of one history entry onto the buffer (lines of the loop body). */
  method WriteHistoryEntry(buffer: string, m: Modification, localTime: Timestamp -> string) returns (out: string)
    ensures out == buffer + HistoryEntry(m, localTime)
  {
    out := buffer;
    out := out + "{\"TxId\":";
    out := out + "\"";
    out := out + m.txId;
    out := out + "\"";
    Regroup4(buffer, "{\"TxId\":", "\"", m.txId, "\"");
    ghost var mark2 := out;
    out := out + ", \"Value\":";
    if m.isDelete {
      out := out + "null";
    } else {
      out := out + m.value;
    }
    Regroup2(mark2, ", \"Value\":", if m.isDelete then "null" else m.value);
    ghost var mark3 := out;
    out := out + ", \"Timestamp\":";
    out := out + "\"";
    out := out + localTime(m.timestamp);
    out := out + "\"";
    Regroup4(mark3, ", \"Timestamp\":", "\"", localTime(m.timestamp), "\"");
    ghost var mark4 := out;
    out := out + ", \"IsDelete\":";
    out := out + "\"";
    out := out + FormatBool(m.isDelete);
    out := out + "\"";
    Regroup4(mark4, ", \"IsDelete\":", "\"", FormatBool(m.isDelete), "\"");
    out := out + "}";
    Regroup5(buffer, TxIdPart(m), ValuePart(m), TimestampPart(m, localTime),
            IsDeletePart(m), "}");
  }

  /** The comma the written flag calls for, then the entry. */
  method WriteHistoryElement(buffer: string, written: bool, m: Modification, localTime: Timestamp -> string)
    returns (out: string)
    ensures out == buffer + (if written then "," else "") + Entries(localTime)(m)
  {
    out := buffer;
    if written {
      out := out + ",";
    }
    out := WriteHistoryEntry(out, m, localTime);
  }

  /** getHistory: every version of the key args[0], oldest first, as a JSON array. */
  method GetHistory(stub: Stub, args: seq<string>, localTime: Timestamp -> string) returns (resp: Response)
    ensures |args| != 1 ==> resp == Error("Incorrect number of arguments. Expecting 1")
    ensures |args| == 1 ==> resp == HistoryResponse(stub.historyFor(args[0]), localTime)
  {
    if |args| != 1 {
      return Error("Incorrect number of arguments. Expecting 1");
    }
    var projectId := args[0];
    var answer := stub.historyFor(projectId);
    if answer.Failure? {
      return Error(answer.error);
    }
    var steps := answer.value;
    var buffer := "[";
    var written := false;
    ghost var seen: seq<Modification> := [];
    var i := 0;
    while i < |steps|
      invariant 0 <= i <= |steps|
      invariant Drain(steps[..i]) == Success(seen)
      invariant written <==> |seen| > 0
      invariant buffer == "[" + Joined(Rendered(seen, Entries(localTime)))
    {
      match steps[i]
      case Broken(e) =>
        Halt(steps, i, seen);
        return Error(e);
      case Next(response) =>
        Advance(steps, i, seen, Entries(localTime), written);
        buffer := WriteHistoryElement(buffer, written, response, localTime);
        written := true;
        seen := seen + [response];
      i := i + 1;
    }
    buffer := buffer + "]";
    assert steps[..i] == steps;
    return Ok(buffer);
  }

  /** A deleted version reads back with Value null and IsDelete "true". */
  lemma DeletedEntry(d: Modification, localTime: Timestamp -> string)
    requires d.isDelete
    ensures HistoryEntry(d, localTime) ==
      TxIdPart(d) + ", \"Value\":null" + TimestampPart(d, localTime) + ", \"IsDelete\":\"true\"" + "}"
  {
    assert ValuePart(d) == ", \"Value\":null";
    assert IsDeletePart(d) == ", \"IsDelete\":\"true\"";
  }

  /**
   * With no failing step the history is one entry per version, in iterator order,
   * between brackets and separated by commas.
   */
  lemma HistoryInOrder(steps: seq<Fetch<Modification>>, localTime: Timestamp -> string)
    requires forall i :: 0 <= i < |steps| ==> steps[i].Next?
    ensures Drain(steps).Success?
    ensures var items := Drain(steps).value;
      |items| == |steps| && (forall i :: 0 <= i < |steps| ==> items[i] == steps[i].item) &&
      HistoryResponse(Success(steps), localTime) ==
        Ok(JsonArray(Rendered(items, Entries(localTime))))
  {
    AllStepsGiveEveryEntry(steps, Entries(localTime));
  }

  /** A key whose only version is a delete has a one-entry history with Value null. */
  lemma HistoryOfDeletedKey(d: Modification, localTime: Timestamp -> string)
    requires d.isDelete
    ensures HistoryResponse(Success([Next(d)]), localTime) ==
      Ok("[" + TxIdPart(d) + ", \"Value\":null" + TimestampPart(d, localTime) +
         ", \"IsDelete\":\"true\"" + "}" + "]")
  {
    HistoryInOrder([Next(d)], localTime);
    DeletedEntry(d, localTime);
    assert Rendered([d], Entries(localTime)) == [HistoryEntry(d, localTime)];
  }

  /** A history iterator that fails aborts getHistory with that error and no payload. */
  lemma HistoryErrorAborts(steps: seq<Fetch<Modification>>, k: nat, localTime: Timestamp -> string)
    requires k < |steps| && steps[k].Broken? && forall i :: 0 <= i < k ==> steps[i].Next?
    ensures HistoryResponse(Success(steps), localTime) == Error(steps[k].message)
  {
    BrokenStepMeansNoOutput(steps, k, Entries(localTime));
  }

  // ---------------------------------------------------------------- query

  /**
   * query: args[0] is passed through verbatim as the selector and the answer is the
   * Key/Record array; an empty argument list is an index panic.
   */
  method Query(stub: Stub, args: seq<string>) returns (resp: Response)
    ensures |args| == 0 ==> resp == Panic
    ensures |args| > 0 ==>
      var q := QueryArray(stub.queryResults(args[0]), KeyRecordEntry);
      resp == (if q.Success? then Ok(q.value) else Error(q.error))
  {
    if |args| == 0 {
      return Panic;
    }
    var queryString := args[0];
    var queryResults := GetQueryResultForQueryStringCouch(stub, queryString);
    if queryResults.Failure? {
      return Error(queryResults.error);
    }
    return Ok(queryResults.value);
  }
}
