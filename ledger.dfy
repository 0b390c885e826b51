/**
 * The entities the chaincode stores and the ledger interface it runs against.
 * The world state is a flat map from key to stored document; the stub adds the
 * caller's identity, rich-query and key-history results supplied by the ledger.
 */
module Ledger {
  import opened Wrappers

  datatype Location = Location(latitude: string, longitude: string)

  datatype Sdg = Sdg(sdgType: string)

  /** A project, with the fields project.go assigns. */
  datatype Project = Project(
    objectType: string,
    projectId: string,
    organization: string,
    ngoCompany: string,
    projectName: string,
    fundGoal: real,
    projectType: string,
    startDate: string,
    endDate: string,
    description: string,
    currency: string,
    fundRaised: real,
    fundAllocated: real,
    projectBudget: real,
    projectOwner: string,
    fundAllocationType: string,
    isPublished: bool,
    isApproved: bool,
    status: string,
    flag: string,
    remarks: string,
    sdg: seq<Sdg>,
    projectLoc: Location,
    country: string,
    fundNotAllocated: real)

  datatype Milestone = Milestone(
    objectType: string,
    projectId: string,
    milestoneId: string,
    milestoneName: string,
    startDate: string,
    endDate: string,
    description: string,
    status: string,
    isApproved: bool)

  datatype Activity = Activity(
    objectType: string,
    projectId: string,
    milestoneId: string,
    activityId: string,
    activityName: string,
    startDate: string,
    endDate: string,
    activityBudget: real,
    fundAllocated: real,
    description: string,
    secondaryValidation: bool,
    remarks: string,
    isApproved: bool,
    validatorId: string,
    status: string,
    technicalCriteria: string,
    financialCriteria: string)

  /** Go's zero values: what json.Unmarshal leaves when it cannot fill a struct. */
  const NoProject := Project("", "", "", "", "", 0.0, "", "", "", "", "", 0.0, 0.0, 0.0, "", "",
                             false, false, "", "", "", [], Location("", ""), "", 0.0)
  const NoMilestone := Milestone("", "", "", "", "", "", "", "", false)
  const NoActivity := Activity("", "", "", "", "", "", "", 0.0, 0.0, "", false, "", false, "", "", "", "")

  /** A stored document: one of the three entity kinds, or any other bytes. */
  datatype Record =
    | ProjectDoc(project: Project)
    | MilestoneDoc(milestone: Milestone)
    | ActivityDoc(activity: Activity)
    | RawDoc(bytes: string)

  type Store = map<string, Record>

  /** json.Unmarshal of a stored document into a Project. */
  function AsProject(r: Record): Project {
    if r.ProjectDoc? then r.project else NoProject
  }

  function AsMilestone(r: Record): Milestone {
    if r.MilestoneDoc? then r.milestone else NoMilestone
  }

  function AsActivity(r: Record): Activity {
    if r.ActivityDoc? then r.activity else NoActivity
  }

  /** The identity a document carries, if it is one of the three entity kinds. */
  function OwnId(r: Record): Option<string> {
    match r
    case ProjectDoc(p) => Some(p.projectId)
    case MilestoneDoc(m) => Some(m.milestoneId)
    case ActivityDoc(a) => Some(a.activityId)
    case RawDoc(_) => None
  }

  /** Every entity document is stored under its own identity. */
  ghost predicate WellKeyed(st: Store) {
    forall k :: k in st ==> OwnId(st[k]) in {None, Some(k)}
  }

  lemma PutKeepsWellKeyed(st: Store, k: string, r: Record)
    requires WellKeyed(st) && OwnId(r) in {None, Some(k)}
    ensures WellKeyed(st[k := r])
  {
  }

  /** Writing a key the document it already holds changes nothing. */
  lemma PutExisting(st: Store, k: string, r: Record)
    requires k in st && st[k] == r
    ensures st[k := r] == st
  {
  }

  // ---------------------------------------------------------------- iterators

  /** One step of a ledger iterator: a result, or the error its Next() returned. */
  datatype Fetch<T> = Next(item: T) | Broken(message: string)

  /** A rich-query result: key and stored JSON bytes. */
  datatype Kv = Kv(key: string, value: string)

  datatype Timestamp = Timestamp(seconds: int, nanos: int)

  /** One entry of a key's history. */
  datatype Modification = Modification(txId: string, value: string, timestamp: Timestamp, isDelete: bool)

  /**
   * Reading an iterator to its end: the items in order, or the error of the
   * first step that failed.
   */
  function Drain<T>(xs: seq<Fetch<T>>): Result<seq<T>> {
    if |xs| == 0 then Success([])
    else
      match Drain(xs[..|xs| - 1])
      case Failure(e) => Failure(e)
      case Success(items) =>
        match xs[|xs| - 1]
        case Next(x) => Success(items + [x])
        case Broken(e) => Failure(e)
  }

  /** Once reading fails, reading further steps does not change the outcome. */
  lemma {:induction false} DrainFailureSticks<T>(xs: seq<Fetch<T>>, k: nat)
    requires k <= |xs| && Drain(xs[..k]).Failure?
    ensures Drain(xs) == Drain(xs[..k])
    decreases |xs| - k
  {
    if k < |xs| {
      assert xs[..k + 1][..k] == xs[..k];
      DrainFailureSticks(xs, k + 1);
    } else {
      assert xs[..k] == xs;
    }
  }

  /**
   * Drain succeeds exactly when no step failed, and then yields every item in
   * iterator order; otherwise it reports the first failing step.
   */
  lemma {:induction false} DrainMeaning<T>(xs: seq<Fetch<T>>)
    ensures Drain(xs).Success? <==> forall i :: 0 <= i < |xs| ==> xs[i].Next?
    ensures Drain(xs).Success? ==>
      |Drain(xs).value| == |xs| && forall i :: 0 <= i < |xs| ==> Drain(xs).value[i] == xs[i].item
    ensures Drain(xs).Failure? ==>
      exists k :: 0 <= k < |xs| && xs[k].Broken? && Drain(xs).error == xs[k].message &&
        forall i :: 0 <= i < k ==> xs[i].Next?
    decreases |xs|
  {
    if |xs| > 0 {
      var front := xs[..|xs| - 1];
      DrainMeaning(front);
      assert forall i :: 0 <= i < |front| ==> front[i] == xs[i];
      if Drain(front).Failure? {
        var k :| 0 <= k < |front| && front[k].Broken? && Drain(front).error == front[k].message &&
          forall i :: 0 <= i < k ==> front[i].Next?;
        assert xs[k].Broken?;
      }
    }
  }

  // ---------------------------------------------------------------- responses

  /** A chaincode response: shim.Success, shim.Error, or a Go runtime panic. */
  datatype Response = Ok(payload: string) | Error(message: string) | Panic

  /**
   * Library code outside the model: JSON decoding of a string list and of an
   * activity array, and time.Time's String() in the peer's time zone.
   */
  datatype Library = Library(
    decodeStrings: string -> seq<string>,
    decodeActivities: string -> seq<Activity>,
    localTime: Timestamp -> string)

  /**
   * The chaincode stub of one transaction: the world state it reads and writes,
   * the caller's certificate common name (None when it cannot be extracted), and
   * what the ledger answers to a rich query and to a key-history request.
   */
  class Stub {
    var state: Store
    const identity: Option<string>
    const queryResults: string -> Result<seq<Fetch<Kv>>>
    const historyFor: string -> Result<seq<Fetch<Modification>>>

    constructor (state0: Store, identity: Option<string>,
                 queryResults: string -> Result<seq<Fetch<Kv>>>,
                 historyFor: string -> Result<seq<Fetch<Modification>>>)
      ensures state == state0 && this.identity == identity
      ensures this.queryResults == queryResults && this.historyFor == historyFor
    {
      state := state0;
      this.identity := identity;
      this.queryResults := queryResults;
      this.historyFor := historyFor;
    }

    /** PutState: store a document under a key. */
    method PutState(key: string, value: Record)
      modifies this
      ensures state == old(state)[key := value]
    {
      state := state[key := value];
    }

    /** DelState: remove a key. */
    method DelState(key: string)
      modifies this
      ensures state == old(state) - {key}
    {
      state := state - {key};
    }
  }
}
