/**
 * comgo.go: the chaincode's entry points.  Init checks one integer argument and
 * writes two fixed keys; Invoke maps the function name to its handler through a
 * chain of name comparisons; the legacy Query entry always refuses.
 *
 * The handlers of user.go and the read, write and invke entries are not part of
 * this model: their effect reaches Invoke as the parameter `outside`.
 */
module Chaincode {
  import opened Wrappers
  import opened GoText
  import opened Ledger
  import opened Lib
  import Queries
  import opened Projects

  // ---------------------------------------------------------------- Init

  const VersionKey := "projects_ui"
  const Version := "3.5.0"
  const SelftestKey := "selftest"
  const NotNumeric := "Expecting a numeric string argument to Init()"

  /**
   * Init: exactly one argument, which strconv.Atoi must accept; then the
   * application version and the parsed integer are written.
   */
  function InitOutcome(st: Store, args: seq<string>): (o: Outcome)
    ensures |args| != 1 ==> o == Outcome(Error(ArityError(1)), st)
    ensures |args| == 1 && Atoi(args[0]).None? ==> o == Outcome(Error(NotNumeric), st)
    ensures o.response == Done <==> |args| == 1 && Atoi(args[0]).Some?
    ensures o.response != Done ==> o.state == st
  {
    if |args| != 1 then Outcome(Error(ArityError(1)), st)
    else
      match Atoi(args[0])
      case None => Outcome(Error(NotNumeric), st)
      case Some(aval) =>
        Outcome(Done, st[VersionKey := RawDoc(Version)][SelftestKey := RawDoc(IntToString(aval))])
  }

  method Init(stub: Stub, args: seq<string>) returns (resp: Response)
    modifies stub
    ensures Outcome(resp, stub.state) == InitOutcome(old(stub.state), args)
  {
    if |args| != 1 {
      return Error(ArityError(1));
    }
    var aval := Atoi(args[0]);
    if aval.None? {
      return Error(NotNumeric);
    }
    stub.PutState(VersionKey, RawDoc(Version));
    stub.PutState(SelftestKey, RawDoc(IntToString(aval.value)));
    return Done;
  }

  /**
   * A successful Init changes exactly the two fixed keys: the version reads
   * "3.5.0" and the self-test value reads back as the integer that was passed.
   */
  lemma InitWrites(st: Store, args: seq<string>)
    requires InitOutcome(st, args).response == Done
    ensures var st2 := InitOutcome(st, args).state;
      OnlyChanged(st, st2, {VersionKey, SelftestKey}) &&
      VersionKey in st2 && st2[VersionKey] == RawDoc(Version) &&
      SelftestKey in st2 && st2[SelftestKey].RawDoc? &&
      Atoi(st2[SelftestKey].bytes) == Atoi(args[0])
  {
    AtoiCanonical(args[0]);
  }

  /** Running Init a second time with the same argument leaves the store as the first run did. */
  lemma InitIdempotent(st: Store, args: seq<string>)
    ensures InitOutcome(InitOutcome(st, args).state, args) == InitOutcome(st, args)
  {
  }

  // ---------------------------------------------------------------- routing

  /** The handlers Invoke can reach. */
  datatype Handler =
    | InitCall
    | AddProjectCall
    | UpdateProjectCall
    | AddMilestoneCall
    | UpdateMilestoneCall
    | AddActivityCall
    | UpdateActivityCall
    | UpdateProjectStatusCall
    | GetHistoryCall
    | QueryCall
    | OutsideCall(name: string)

  /** Every name Invoke routes to a handler. */
  const RoutedNames: set<string> := {
    "init", "read", "write", "invke",
    "addFoundation", "updateFoundation", "addNGO", "updateNGO", "addDonor", "updateDonor",
    "addBoard", "updateBoard", "addCRM", "updateCRM", "addAdmin", "updateAdmin",
    "addProject", "updateProject", "addMilestone", "updateMilestone",
    "addActivity", "updateActivity", "updateProjectStatus", "getHistory", "query"}

  /** The if/else chain of Invoke: the handler a function name selects, if any. */
  function Route(name: string): (h: Option<Handler>)
    ensures h.None? <==> name !in RoutedNames
  {
    if name == "init" then Some(InitCall)
    else if name == "read" then Some(OutsideCall(name))
    else if name == "write" then Some(OutsideCall(name))
    else if name == "invke" then Some(OutsideCall(name))
    else if name == "addFoundation" then Some(OutsideCall(name))
    else if name == "updateFoundation" then Some(OutsideCall(name))
    else if name == "addNGO" then Some(OutsideCall(name))
    else if name == "updateNGO" then Some(OutsideCall(name))
    else if name == "addDonor" then Some(OutsideCall(name))
    else if name == "updateDonor" then Some(OutsideCall(name))
    else if name == "addBoard" then Some(OutsideCall(name))
    else if name == "updateBoard" then Some(OutsideCall(name))
    else if name == "addCRM" then Some(OutsideCall(name))
    else if name == "updateCRM" then Some(OutsideCall(name))
    else if name == "addAdmin" then Some(OutsideCall(name))
    else if name == "updateAdmin" then Some(OutsideCall(name))
    else if name == "addProject" then Some(AddProjectCall)
    else if name == "updateProject" then Some(UpdateProjectCall)
    else if name == "addMilestone" then Some(AddMilestoneCall)
    else if name == "updateMilestone" then Some(UpdateMilestoneCall)
    else if name == "addActivity" then Some(AddActivityCall)
    else if name == "updateActivity" then Some(UpdateActivityCall)
    else if name == "updateProjectStatus" then Some(UpdateProjectStatusCall)
    else if name == "getHistory" then Some(GetHistoryCall)
    else if name == "query" then Some(QueryCall)
    else None
  }

  /** Handlers that exist in the chaincode but that no name reaches. */
  const UnroutedHandlers: set<string> := {
    "fundProject", "deleteProject", "deleteMilestone", "deleteActivity",
    "updateMilestoneStatus", "updateActivityStatus", "submitProof", "query_all", "fund"}

  lemma UnroutedHandlersAreUnknown(name: string)
    requires name in UnroutedHandlers
    ensures name !in RoutedNames
  {
  }

  const AtLeastOne := "Incorrect number of arguments. Expecting at least 1"

  function UnknownName(name: string): string {
    "Received unknown invoke function name - '" + name + "'"
  }

  /** The effect of a routed handler that is not part of this model, as a function of its inputs. */
  type OutsideHandler = (string, Option<string>, seq<string>, Store) -> Outcome

  /** The response the `query` handler gives once its argument list is non-empty. */
  function QueryResponse(queryResults: string -> Result<seq<Fetch<Kv>>>, selector: string): Response {
    var q := QueryArray(queryResults(selector), KeyRecordEntry);
    if q.Success? then Ok(q.value) else Error(q.error)
  }

  /**
   * What Invoke answers and leaves behind: an empty argument list is refused before
   * any routing, an unknown name is refused naming it, and otherwise the selected
   * handler runs on the same arguments.
   */
  function InvokeOutcome(st: Store, identity: Option<string>,
                         queryResults: string -> Result<seq<Fetch<Kv>>>,
                         historyFor: string -> Result<seq<Fetch<Modification>>>,
                         name: string, args: seq<string>, lib: Library,
                         outside: OutsideHandler): (o: Outcome)
    ensures |args| == 0 ==> o == Outcome(Error(AtLeastOne), st)
    ensures |args| > 0 && name !in RoutedNames ==> o == Outcome(Error(UnknownName(name)), st)
  {
    if |args| < 1 then Outcome(Error(AtLeastOne), st)
    else
      match Route(name)
      case None => Outcome(Error(UnknownName(name)), st)
      case Some(h) => HandlerOutcome(st, identity, queryResults, historyFor, h, args, lib, outside)
  }

  /** The outcome of the handler `h` on a non-empty argument list. */
  function HandlerOutcome(st: Store, identity: Option<string>,
                          queryResults: string -> Result<seq<Fetch<Kv>>>,
                          historyFor: string -> Result<seq<Fetch<Modification>>>,
                          h: Handler, args: seq<string>, lib: Library,
                          outside: OutsideHandler): (o: Outcome)
    requires |args| > 0
    ensures h.GetHistoryCall? || h.QueryCall? ==> o.state == st
    ensures !h.OutsideCall? && o.response != Done ==> o.state == st
  {
    match h
    case InitCall => InitOutcome(st, args)
    case AddProjectCall => AddProjectOutcome(st, identity, args, lib.decodeStrings)
    case UpdateProjectCall => UpdateProjectOutcome(st, identity, args, lib.decodeStrings)
    case AddMilestoneCall => AddMilestoneOutcome(st, identity, args)
    case UpdateMilestoneCall => UpdateMilestoneOutcome(st, identity, args)
    case AddActivityCall => AddActivityOutcome(st, identity, args)
    case UpdateActivityCall => UpdateActivityOutcome(st, identity, args)
    case UpdateProjectStatusCall => UpdateProjectStatusOutcome(st, identity, args)
    case GetHistoryCall =>
      Outcome(if |args| != 1 then Error(ArityError(1))
              else Queries.HistoryResponse(historyFor(args[0]), lib.localTime), st)
    case QueryCall => Outcome(QueryResponse(queryResults, args[0]), st)
    case OutsideCall(name) => outside(name, identity, args, st)
  }

  /** Through Invoke the getHistory and query entries never write. */
  lemma ReadEntriesDoNotWrite(st: Store, identity: Option<string>,
                              queryResults: string -> Result<seq<Fetch<Kv>>>,
                              historyFor: string -> Result<seq<Fetch<Modification>>>,
                              name: string, args: seq<string>, lib: Library,
                              outside: OutsideHandler)
    requires Route(name) in {Some(GetHistoryCall), Some(QueryCall)}
    ensures InvokeOutcome(st, identity, queryResults, historyFor, name, args, lib, outside).state == st
  {
  }

  /** Invoke: the entry point of every transaction after instantiation. */
  method Invoke(stub: Stub, name: string, args: seq<string>, lib: Library, outside: OutsideHandler)
    returns (resp: Response)
    modifies stub
    ensures Outcome(resp, stub.state) ==
      InvokeOutcome(old(stub.state), stub.identity, stub.queryResults, stub.historyFor,
                    name, args, lib, outside)
  {
    if |args| < 1 {
      return Error(AtLeastOne);
    }
    var route := Route(name);
    if route.None? {
      return Error(UnknownName(name));
    }
    resp := Dispatch(stub, route.value, args, lib, outside);
  }

  /** Runs the handler that routing selected. */
  method Dispatch(stub: Stub, h: Handler, args: seq<string>, lib: Library, outside: OutsideHandler)
    returns (resp: Response)
    requires |args| > 0
    modifies stub
    ensures Outcome(resp, stub.state) == HandlerOutcome(old(stub.state), stub.identity, stub.queryResults,
                                                        stub.historyFor, h, args, lib, outside)
  {
    match h
    case InitCall => resp := Init(stub, args);
    case AddProjectCall => resp := AddProject(stub, args, lib);
    case UpdateProjectCall => resp := UpdateProject(stub, args, lib);
    case AddMilestoneCall => resp := AddMilestone(stub, args);
    case UpdateMilestoneCall => resp := UpdateMilestone(stub, args);
    case AddActivityCall => resp := AddActivity(stub, args);
    case UpdateActivityCall => resp := UpdateActivity(stub, args);
    case UpdateProjectStatusCall => resp := UpdateProjectStatus(stub, args);
    case GetHistoryCall => resp := Queries.GetHistory(stub, args, lib.localTime);
    case QueryCall => resp := Queries.Query(stub, args);
    case OutsideCall(name) =>
      var o := outside(name, stub.identity, args, stub.state);
      stub.state := o.state;
      resp := o.response;
  }

  // ---------------------------------------------------------------- legacy Query

  /** Query: the legacy entry point refuses every call. */
  method Query(stub: Stub) returns (resp: Response)
    ensures resp == Error("Unknown supported call - Query()")
  {
    return Error("Unknown supported call - Query()");
  }
}
