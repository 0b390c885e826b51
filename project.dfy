/**
 * project.go: creating, updating and deleting projects, milestones and activities.
 *
 * Every handler first checks the caller's certificate, the argument count and
 * the arguments' sanitation, then looks records up, and only then writes.  Writes
 * cannot fail in this model, so a handler that refuses leaves the store as it was
 * (the platform discards the writes of a failed transaction in any case).
 *
 * Each handler is a method over the stub, proved against an `...Outcome` function
 * of the old store that gives the response and the new store; what the source
 * promises is stated on those functions and in the lemmas after them.
 */
module Projects {
  import opened Wrappers
  import opened GoText
  import opened Ledger
  import opened Lib
  import opened Queries

  // ---------------------------------------------------------------- prologue

  const CertError := "Error retrieving cert"

  function ArityError(n: nat): string {
    "Incorrect number of arguments. Expecting " + NatToString(n)
  }

  /**
   * Why a handler with the given arity refuses before it reads the store: no
   * certificate, a wrong argument count, or the first argument that is empty or
   * longer than 2000 bytes.
   */
  function Refusal(identity: Option<string>, args: seq<string>, arity: nat): (r: Option<string>)
    ensures r.None? <==>
      identity.Some? && |args| == arity && forall i :: 0 <= i < |args| ==> 0 < ByteLen(args[i]) <= MaxArgBytes
    ensures identity.None? ==> r == Some(CertError)
    ensures identity.Some? && |args| != arity ==> r == Some(ArityError(arity))
    ensures identity.Some? && |args| == arity && r.Some? ==> r == Some(SanitizeError(args).Message())
  {
    if identity.None? then Some(CertError)
    else if |args| != arity then Some(ArityError(arity))
    else if !ValidArgs(args) then Some(SanitizeError(args).Message())
    else None
  }

  /** The shared prologue: get_cert, the arity test and sanitize_arguments, in that order. */
  method Admit(stub: Stub, args: seq<string>, arity: nat) returns (refusal: Option<string>)
    ensures refusal == Refusal(stub.identity, args, arity)
  {
    var certname := stub.identity;
    if certname.None? {
      return Some(CertError);
    }
    if |args| != arity {
      return Some(ArityError(arity));
    }
    var err := SanitizeArguments(args);
    if err.Some? {
      return Some(err.value.Message());
    }
    return None;
  }

  /** What a handler answers and the store it leaves behind. */
  datatype Outcome = Outcome(response: Response, state: Store)

  /** Success as the handlers report it: shim.Success(nil). */
  const Done := Ok("")

  /** Every key outside `keys` is present in both stores or in neither, with the same document. */
  ghost predicate OnlyChanged(st: Store, st2: Store, keys: set<string>) {
    forall k :: k !in keys ==> (k in st2 <==> k in st) && (k in st ==> st2[k] == st[k])
  }

  // ---------------------------------------------------------------- building records

  /** The SDG list: one entry per decoded string, in order. */
  function SdgOf(list: seq<string>): (sdg: seq<Sdg>)
    ensures |sdg| == |list| && forall i :: 0 <= i < |list| ==> sdg[i].sdgType == list[i]
  {
    seq(|list|, i requires 0 <= i < |list| => Sdg(list[i]))
  }

  /** The loop of addProject/updateProject that appends one SDG per decoded string. */
  method BuildSdg(list: seq<string>) returns (sdg: seq<Sdg>)
    ensures sdg == SdgOf(list)
  {
    sdg := [];
    for i := 0 to |list|
      invariant |sdg| == i && forall j :: 0 <= j < i ==> sdg[j] == Sdg(list[j])
    {
      var s := Sdg(list[i]);
      sdg := sdg + [s];
    }
  }

  /**
   * The fields addProject and updateProject take from the 23 arguments.  Identity,
   * kind, approval and remarks are left as they were.
   */
  function ProjectDetails(p: Project, args: seq<string>, sdg: seq<Sdg>): (q: Project)
    requires |args| == 23
    ensures q.projectId == p.projectId && q.objectType == p.objectType
    ensures q.isApproved == p.isApproved && q.remarks == p.remarks
    ensures q.fundRaised == ParseFloat(args[10]) && q.fundAllocated == ParseFloat(args[11])
    ensures q.fundNotAllocated == ParseFloat(args[22]) && q.fundAllocationType == args[14]
  {
    p.(organization := args[1], ngoCompany := args[2], projectName := args[3],
       fundGoal := ParseFloat(args[4]), projectType := args[5], startDate := args[6],
       endDate := args[7], description := args[8], currency := args[9],
       fundRaised := ParseFloat(args[10]), fundAllocated := ParseFloat(args[11]),
       projectBudget := ParseFloat(args[12]), projectOwner := args[13],
       fundAllocationType := args[14], isPublished := ParseBool(args[15]),
       status := args[16], flag := args[17], sdg := sdg,
       country := args[21], fundNotAllocated := ParseFloat(args[22]),
       projectLoc := Location(args[19], args[20]))
  }

  /** The project addProject creates: not approved, no remarks, keyed by args[0]. */
  function NewProject(args: seq<string>, sdg: seq<Sdg>): (p: Project)
    requires |args| == 23
    ensures p.projectId == args[0] && p.objectType == "Project"
    ensures !p.isApproved && p.remarks == ""
  {
    ProjectDetails(NoProject.(projectId := args[0], objectType := "Project"), args, sdg)
  }

  /** updateProjectStatus: Status, Flag, IsPublished, IsApproved and Remarks from args[1..5]. */
  function ProjectStatus(p: Project, args: seq<string>): (q: Project)
    requires |args| == 6
    ensures q.(status := p.status, flag := p.flag, isPublished := p.isPublished,
               isApproved := p.isApproved, remarks := p.remarks) == p
    ensures q.status == args[1] && q.flag == args[2] && q.isPublished == ParseBool(args[3])
    ensures q.isApproved == ParseBool(args[4]) && q.remarks == args[5]
  {
    p.(status := args[1], flag := args[2], isPublished := ParseBool(args[3]),
       isApproved := ParseBool(args[4]), remarks := args[5])
  }

  /** The Status and Flag a child operation writes onto its project. */
  function Flagged(p: Project, status: string, flag: string): (q: Project)
    ensures q.(status := p.status, flag := p.flag) == p
    ensures q.status == status && q.flag == flag
  {
    p.(status := status, flag := flag)
  }

  /** The milestone addMilestone creates from its 10 arguments. */
  function NewMilestone(args: seq<string>): (m: Milestone)
    requires |args| == 10
    ensures m.projectId == args[0] && m.milestoneId == args[1] && m.objectType == "Milestone"
  {
    Milestone("Milestone", args[0], args[1], args[2], args[3], args[4], args[5], args[6],
              ParseBool(args[7]))
  }

  /** updateMilestone: name, dates, description and status; identity and approval kept. */
  function MilestoneDetails(m: Milestone, args: seq<string>): (q: Milestone)
    requires |args| == 8
    ensures q.objectType == m.objectType && q.projectId == m.projectId
    ensures q.milestoneId == m.milestoneId && q.isApproved == m.isApproved
  {
    m.(milestoneName := args[1], startDate := args[2], endDate := args[3],
       description := args[4], status := args[5])
  }

  /** The activity addActivity creates from its 18 arguments; nothing is allocated yet. */
  function NewActivity(args: seq<string>): (a: Activity)
    requires |args| == 18
    ensures a.projectId == args[0] && a.milestoneId == args[1] && a.activityId == args[2]
    ensures a.objectType == "Activity" && a.fundAllocated == 0.0
    ensures a.activityBudget == ParseFloat(args[6])
  {
    Activity("Activity", args[0], args[1], args[2], args[3], args[4], args[5],
             ParseFloat(args[6]), 0.0, args[7], ParseBool(args[8]), args[9],
             ParseBool(args[10]), args[11], args[12], args[13], args[14])
  }

  /** updateActivity: args[1..12]; identity, back-references and allocation kept. */
  function ActivityDetails(a: Activity, args: seq<string>): (q: Activity)
    requires |args| == 16
    ensures q.objectType == a.objectType && q.activityId == a.activityId
    ensures q.projectId == a.projectId && q.milestoneId == a.milestoneId
    ensures q.fundAllocated == a.fundAllocated
  {
    a.(activityName := args[1], startDate := args[2], endDate := args[3],
       activityBudget := ParseFloat(args[4]), description := args[5],
       secondaryValidation := ParseBool(args[6]), remarks := args[7],
       isApproved := ParseBool(args[8]), validatorId := args[9], status := args[10],
       technicalCriteria := args[11], financialCriteria := args[12])
  }

  /** updateActivityStatus: Status, IsApproved and Remarks from args[1..3]. */
  function ActivityStatus(a: Activity, args: seq<string>): (q: Activity)
    requires |args| == 7
    ensures q.(status := a.status, isApproved := a.isApproved, remarks := a.remarks) == a
    ensures q.status == args[1] && q.isApproved == ParseBool(args[2]) && q.remarks == args[3]
  {
    a.(status := args[1], isApproved := ParseBool(args[2]), remarks := args[3])
  }

  /** Re-applying the update arguments changes nothing more. */
  lemma ProjectDetailsIdempotent(p: Project, args: seq<string>, sdg: seq<Sdg>)
    requires |args| == 23
    ensures ProjectDetails(ProjectDetails(p, args, sdg), args, sdg) == ProjectDetails(p, args, sdg)
  {
  }

  /** updateProject of a freshly created project with the creating arguments gives it back. */
  lemma UpdateOfNewProject(args: seq<string>, sdg: seq<Sdg>)
    requires |args| == 23
    ensures ProjectDetails(NewProject(args, sdg), args, sdg) == NewProject(args, sdg)
  {
    ProjectDetailsIdempotent(NoProject.(projectId := args[0], objectType := "Project"), args, sdg);
  }

  // ---------------------------------------------------------------- projects

  /** addProject: refuse, panic on an existing project, or store the new project under args[0]. */
  function AddProjectOutcome(st: Store, identity: Option<string>, args: seq<string>,
                             decodeStrings: string -> seq<string>): (o: Outcome)
    ensures o.response == Done <==> Refusal(identity, args, 23).None? && GetProject(st, args[0]).Failure?
    ensures o.response != Done ==> o.state == st
    ensures Refusal(identity, args, 23).None? && GetProject(st, args[0]).Success? ==> o.response == Panic
    ensures o.response == Done ==>
      OnlyChanged(st, o.state, {args[0]}) && args[0] in o.state &&
      o.state[args[0]] == ProjectDoc(NewProject(args, SdgOf(decodeStrings(args[18]))))
    ensures WellKeyed(st) ==> WellKeyed(o.state)
  {
    match Refusal(identity, args, 23)
    case Some(e) => Outcome(Error(e), st)
    case None =>
      if GetProject(st, args[0]).Success? then Outcome(Panic, st)
      else
        var project := NewProject(args, SdgOf(decodeStrings(args[18])));
        PutKeepsWellKeyedIf(st, project.projectId, ProjectDoc(project));
        Outcome(Done, st[project.projectId := ProjectDoc(project)])
  }

  /** Storing an entity under its own ID keeps the store well keyed. */
  lemma PutKeepsWellKeyedIf(st: Store, k: string, r: Record)
    requires OwnId(r) == Some(k)
    ensures WellKeyed(st) ==> WellKeyed(st[k := r])
  {
    if WellKeyed(st) {
      PutKeepsWellKeyed(st, k, r);
    }
  }

  method AddProject(stub: Stub, args: seq<string>, lib: Library) returns (resp: Response)
    modifies stub
    ensures Outcome(resp, stub.state) == AddProjectOutcome(old(stub.state), stub.identity, args, lib.decodeStrings)
  {
    var refusal := Admit(stub, args, 23);
    if refusal.Some? {
      return Error(refusal.value);
    }
    var proj := GetProject(stub.state, args[0]);
    if proj.Success? {
      return Panic;
    }
    var list := lib.decodeStrings(args[18]);
    var sdg := BuildSdg(list);
    var project := NewProject(args, sdg);
    stub.PutState(project.projectId, ProjectDoc(project));
    return Done;
  }

  /**
   * updateProject: the stored project found under args[0] gets the argument fields
   * and is written back under its own ProjectID.
   */
  function UpdateProjectOutcome(st: Store, identity: Option<string>, args: seq<string>,
                                decodeStrings: string -> seq<string>): (o: Outcome)
    ensures o.response == Done <==> Refusal(identity, args, 23).None? && GetProject(st, args[0]).Success?
    ensures o.response != Done ==> o.state == st
    ensures Refusal(identity, args, 23).None? && GetProject(st, args[0]).Failure? ==>
      o.response == Error(GetProject(st, args[0]).error)
    ensures o.response == Done ==>
      var p := GetProject(st, args[0]).value;
      OnlyChanged(st, o.state, {p.projectId}) && p.projectId in o.state &&
      o.state[p.projectId] == ProjectDoc(ProjectDetails(p, args, SdgOf(decodeStrings(args[18]))))
    ensures WellKeyed(st) ==> WellKeyed(o.state)
  {
    match Refusal(identity, args, 23)
    case Some(e) => Outcome(Error(e), st)
    case None =>
      match GetProject(st, args[0])
      case Failure(e) => Outcome(Error(e), st)
      case Success(p) =>
        var project := ProjectDetails(p, args, SdgOf(decodeStrings(args[18])));
        PutKeepsWellKeyedIf(st, project.projectId, ProjectDoc(project));
        Outcome(Done, st[project.projectId := ProjectDoc(project)])
  }

  method UpdateProject(stub: Stub, args: seq<string>, lib: Library) returns (resp: Response)
    modifies stub
    ensures Outcome(resp, stub.state) == UpdateProjectOutcome(old(stub.state), stub.identity, args, lib.decodeStrings)
  {
    var refusal := Admit(stub, args, 23);
    if refusal.Some? {
      return Error(refusal.value);
    }
    var found := GetProject(stub.state, args[0]);
    if found.Failure? {
      return Error(found.error);
    }
    var list := lib.decodeStrings(args[18]);
    var sdg := BuildSdg(list);
    var project := ProjectDetails(found.value, args, sdg);
    stub.PutState(project.projectId, ProjectDoc(project));
    return Done;
  }

  /**
   * updateProjectStatus: only Status, Flag, IsPublished, IsApproved and Remarks of
   * the stored project change.
   */
  function UpdateProjectStatusOutcome(st: Store, identity: Option<string>, args: seq<string>): (o: Outcome)
    ensures o.response == Done <==> Refusal(identity, args, 6).None? && GetProject(st, args[0]).Success?
    ensures o.response != Done ==> o.state == st
    ensures Refusal(identity, args, 6).None? && GetProject(st, args[0]).Failure? ==>
      o.response == Error(GetProject(st, args[0]).error)
    ensures o.response == Done ==>
      var p := GetProject(st, args[0]).value;
      OnlyChanged(st, o.state, {p.projectId}) && p.projectId in o.state && o.state[p.projectId].ProjectDoc? &&
      var q := o.state[p.projectId].project;
      q.(status := p.status, flag := p.flag, isPublished := p.isPublished,
         isApproved := p.isApproved, remarks := p.remarks) == p &&
      q.status == args[1] && q.flag == args[2] && q.isPublished == ParseBool(args[3]) &&
      q.isApproved == ParseBool(args[4]) && q.remarks == args[5]
    ensures WellKeyed(st) ==> WellKeyed(o.state)
  {
    match Refusal(identity, args, 6)
    case Some(e) => Outcome(Error(e), st)
    case None =>
      match GetProject(st, args[0])
      case Failure(e) => Outcome(Error(e), st)
      case Success(p) =>
        var project := ProjectStatus(p, args);
        PutKeepsWellKeyedIf(st, project.projectId, ProjectDoc(project));
        Outcome(Done, st[project.projectId := ProjectDoc(project)])
  }

  method UpdateProjectStatus(stub: Stub, args: seq<string>) returns (resp: Response)
    modifies stub
    ensures Outcome(resp, stub.state) == UpdateProjectStatusOutcome(old(stub.state), stub.identity, args)
  {
    var refusal := Admit(stub, args, 6);
    if refusal.Some? {
      return Error(refusal.value);
    }
    var found := GetProject(stub.state, args[0]);
    if found.Failure? {
      return Error(found.error);
    }
    var project := ProjectStatus(found.value, args);
    stub.PutState(project.projectId, ProjectDoc(project));
    return Done;
  }

  /** deleteProject: removes the key args[0] and nothing else; children stay. */
  function DeleteProjectOutcome(st: Store, identity: Option<string>, args: seq<string>): (o: Outcome)
    ensures o.response == Done <==> Refusal(identity, args, 1).None? && GetProject(st, args[0]).Success?
    ensures o.response != Done ==> o.state == st
    ensures Refusal(identity, args, 1).None? && GetProject(st, args[0]).Failure? ==>
      o.response == Error(GetProject(st, args[0]).error)
    ensures o.response == Done ==> o.state == st - {args[0]} && args[0] in st
    ensures WellKeyed(st) ==> WellKeyed(o.state)
  {
    match Refusal(identity, args, 1)
    case Some(e) => Outcome(Error(e), st)
    case None =>
      match GetProject(st, args[0])
      case Failure(e) => Outcome(Error(e), st)
      case Success(_) => Outcome(Done, st - {args[0]})
  }

  method DeleteProject(stub: Stub, args: seq<string>) returns (resp: Response)
    modifies stub
    ensures Outcome(resp, stub.state) == DeleteProjectOutcome(old(stub.state), stub.identity, args)
  {
    var refusal := Admit(stub, args, 1);
    if refusal.Some? {
      return Error(refusal.value);
    }
    var found := GetProject(stub.state, args[0]);
    if found.Failure? {
      return Error(found.error);
    }
    stub.DelState(args[0]);
    return Done;
  }

  /** updateProject applied twice with the same arguments leaves what one application left. */
  lemma UpdateProjectIdempotent(st: Store, identity: Option<string>, args: seq<string>,
                                decodeStrings: string -> seq<string>)
    ensures var once := UpdateProjectOutcome(st, identity, args, decodeStrings);
            UpdateProjectOutcome(once.state, identity, args, decodeStrings).state == once.state
  {
    var once := UpdateProjectOutcome(st, identity, args, decodeStrings);
    if once.response == Done {
      var p := GetProject(st, args[0]).value;
      var sdg := SdgOf(decodeStrings(args[18]));
      var q := ProjectDetails(p, args, sdg);
      assert once.state == st[p.projectId := ProjectDoc(q)];
      ProjectDetailsIdempotent(p, args, sdg);
      var found := if p.projectId == args[0] then q else p;
      assert GetProject(once.state, args[0]) == Success(found);
      UpdateRewritesSame(once.state, identity, args, decodeStrings, found);
    }
  }

  /** An update whose result is already stored under its ID leaves the store as it is. */
  lemma UpdateRewritesSame(st: Store, identity: Option<string>, args: seq<string>,
                           decodeStrings: string -> seq<string>, found: Project)
    requires Refusal(identity, args, 23).None? && GetProject(st, args[0]) == Success(found)
    requires var q := ProjectDetails(found, args, SdgOf(decodeStrings(args[18])));
      q.projectId in st && st[q.projectId] == ProjectDoc(q)
    ensures UpdateProjectOutcome(st, identity, args, decodeStrings).state == st
  {
    var q := ProjectDetails(found, args, SdgOf(decodeStrings(args[18])));
    assert UpdateProjectOutcome(st, identity, args, decodeStrings).state == st[q.projectId := ProjectDoc(q)];
    PutExisting(st, q.projectId, ProjectDoc(q));
  }

  /** Creating a project that was absent and deleting it again gives back the old store. */
  lemma AddThenDeleteProject(st: Store, identity: Option<string>, args: seq<string>,
                             decodeStrings: string -> seq<string>)
    requires |args| > 0 && args[0] !in st
    requires AddProjectOutcome(st, identity, args, decodeStrings).response == Done
    ensures var added := AddProjectOutcome(st, identity, args, decodeStrings).state;
            DeleteProjectOutcome(added, identity, [args[0]]) == Outcome(Done, st)
  {
    var project := NewProject(args, SdgOf(decodeStrings(args[18])));
    assert ValidArg(args[0]);
    DeleteOfAdded(st, identity, project);
  }

  lemma DeleteOfAdded(st: Store, identity: Option<string>, project: Project)
    requires identity.Some? && ValidArg(project.projectId) && project.projectId !in st
    ensures DeleteProjectOutcome(st[project.projectId := ProjectDoc(project)], identity, [project.projectId]) ==
      Outcome(Done, st)
  {
    var k := project.projectId;
    var added := st[k := ProjectDoc(project)];
    assert Refusal(identity, [k], 1).None?;
    assert GetProject(added, k) == Success(project);
    assert added - {k} == st;
  }

  // ---------------------------------------------------------------- milestones

  /**
   * addMilestone: panic if args[1] already resolves to a milestone, fail if the
   * project args[0] is missing, else write the project's Status/Flag from args[8..9]
   * and then the new milestone under args[1].
   */
  function AddMilestoneOutcome(st: Store, identity: Option<string>, args: seq<string>): (o: Outcome)
    ensures o.response == Done <==>
      Refusal(identity, args, 10).None? && GetMilestone(st, args[1]).Failure? && GetProject(st, args[0]).Success?
    ensures o.response != Done ==> o.state == st
    ensures Refusal(identity, args, 10).None? && GetMilestone(st, args[1]).Success? ==> o.response == Panic
    ensures Refusal(identity, args, 10).None? && GetMilestone(st, args[1]).Failure? ==>
      GetProject(st, args[0]).Failure? ==> o.response == Error(GetProject(st, args[0]).error)
    ensures o.response == Done ==>
      var p := GetProject(st, args[0]).value;
      OnlyChanged(st, o.state, {p.projectId, args[1]}) &&
      args[1] in o.state && o.state[args[1]] == MilestoneDoc(NewMilestone(args)) &&
      (p.projectId != args[1] ==>
        p.projectId in o.state &&
        o.state[p.projectId] == ProjectDoc(Flagged(p, args[8], args[9])))
    ensures WellKeyed(st) ==> WellKeyed(o.state)
  {
    match Refusal(identity, args, 10)
    case Some(e) => Outcome(Error(e), st)
    case None =>
      if GetMilestone(st, args[1]).Success? then Outcome(Panic, st)
      else
        match GetProject(st, args[0])
        case Failure(e) => Outcome(Error(e), st)
        case Success(p) =>
          var project := Flagged(p, args[8], args[9]);
          var milestone := NewMilestone(args);
          var st1 := st[project.projectId := ProjectDoc(project)];
          PutKeepsWellKeyedIf(st, project.projectId, ProjectDoc(project));
          PutKeepsWellKeyedIf(st1, milestone.milestoneId, MilestoneDoc(milestone));
          Outcome(Done, st1[milestone.milestoneId := MilestoneDoc(milestone)])
  }

  method AddMilestone(stub: Stub, args: seq<string>) returns (resp: Response)
    modifies stub
    ensures Outcome(resp, stub.state) == AddMilestoneOutcome(old(stub.state), stub.identity, args)
  {
    var refusal := Admit(stub, args, 10);
    if refusal.Some? {
      return Error(refusal.value);
    }
    var mil := GetMilestone(stub.state, args[1]);
    if mil.Success? {
      return Panic;
    }
    var found := GetProject(stub.state, args[0]);
    if found.Failure? {
      return Error(found.error);
    }
    var milestone := NewMilestone(args);
    var project := Flagged(found.value, args[8], args[9]);
    stub.PutState(project.projectId, ProjectDoc(project));
    stub.PutState(milestone.milestoneId, MilestoneDoc(milestone));
    return Done;
  }

  /**
   * updateMilestone: the milestone args[0] and the project its own ProjectID names;
   * writes the project's Status/Flag, then the milestone's details.
   */
  function UpdateMilestoneOutcome(st: Store, identity: Option<string>, args: seq<string>): (o: Outcome)
    ensures o.response == Done <==>
      Refusal(identity, args, 8).None? && GetMilestone(st, args[0]).Success? &&
      GetProject(st, GetMilestone(st, args[0]).value.projectId).Success?
    ensures o.response != Done ==> o.state == st
    ensures Refusal(identity, args, 8).None? && GetMilestone(st, args[0]).Failure? ==>
      o.response == Error(GetMilestone(st, args[0]).error)
    ensures o.response == Done ==>
      var m := GetMilestone(st, args[0]).value;
      var p := GetProject(st, m.projectId).value;
      OnlyChanged(st, o.state, {p.projectId, m.milestoneId}) &&
      m.milestoneId in o.state && o.state[m.milestoneId] == MilestoneDoc(MilestoneDetails(m, args)) &&
      (p.projectId != m.milestoneId ==>
        p.projectId in o.state &&
        o.state[p.projectId] == ProjectDoc(Flagged(p, args[6], args[7])))
    ensures WellKeyed(st) ==> WellKeyed(o.state)
  {
    match Refusal(identity, args, 8)
    case Some(e) => Outcome(Error(e), st)
    case None =>
      match GetMilestone(st, args[0])
      case Failure(e) => Outcome(Error(e), st)
      case Success(m) =>
        match GetProject(st, m.projectId)
        case Failure(e) => Outcome(Error(e), st)
        case Success(p) =>
          var project := Flagged(p, args[6], args[7]);
          var milestone := MilestoneDetails(m, args);
          var st1 := st[project.projectId := ProjectDoc(project)];
          PutKeepsWellKeyedIf(st, project.projectId, ProjectDoc(project));
          PutKeepsWellKeyedIf(st1, milestone.milestoneId, MilestoneDoc(milestone));
          Outcome(Done, st1[milestone.milestoneId := MilestoneDoc(milestone)])
  }

  method UpdateMilestone(stub: Stub, args: seq<string>) returns (resp: Response)
    modifies stub
    ensures Outcome(resp, stub.state) == UpdateMilestoneOutcome(old(stub.state), stub.identity, args)
  {
    var refusal := Admit(stub, args, 8);
    if refusal.Some? {
      return Error(refusal.value);
    }
    var foundMilestone := GetMilestone(stub.state, args[0]);
    if foundMilestone.Failure? {
      return Error(foundMilestone.error);
    }
    var foundProject := GetProject(stub.state, foundMilestone.value.projectId);
    if foundProject.Failure? {
      return Error(foundProject.error);
    }
    var milestone := MilestoneDetails(foundMilestone.value, args);
    var project := Flagged(foundProject.value, args[6], args[7]);
    stub.PutState(project.projectId, ProjectDoc(project));
    stub.PutState(milestone.milestoneId, MilestoneDoc(milestone));
    return Done;
  }

  /**
   * updateMilestoneStatus: the milestone's Status/IsApproved from args[1..2] and its
   * project's Status/Flag/IsApproved from args[3..5].
   */
  function UpdateMilestoneStatusOutcome(st: Store, identity: Option<string>, args: seq<string>): (o: Outcome)
    ensures o.response == Done <==>
      Refusal(identity, args, 6).None? && GetMilestone(st, args[0]).Success? &&
      GetProject(st, GetMilestone(st, args[0]).value.projectId).Success?
    ensures o.response != Done ==> o.state == st
    ensures o.response == Done ==>
      var m := GetMilestone(st, args[0]).value;
      var p := GetProject(st, m.projectId).value;
      OnlyChanged(st, o.state, {p.projectId, m.milestoneId}) &&
      m.milestoneId in o.state &&
      o.state[m.milestoneId] == MilestoneDoc(m.(status := args[1], isApproved := ParseBool(args[2]))) &&
      (p.projectId != m.milestoneId ==>
        p.projectId in o.state &&
        o.state[p.projectId] == ProjectDoc(p.(status := args[3], flag := args[4], isApproved := ParseBool(args[5]))))
    ensures WellKeyed(st) ==> WellKeyed(o.state)
  {
    match Refusal(identity, args, 6)
    case Some(e) => Outcome(Error(e), st)
    case None =>
      match GetMilestone(st, args[0])
      case Failure(e) => Outcome(Error(e), st)
      case Success(m) =>
        match GetProject(st, m.projectId)
        case Failure(e) => Outcome(Error(e), st)
        case Success(p) =>
          var milestone := m.(status := args[1], isApproved := ParseBool(args[2]));
          var project := p.(status := args[3], flag := args[4], isApproved := ParseBool(args[5]));
          var st1 := st[project.projectId := ProjectDoc(project)];
          PutKeepsWellKeyedIf(st, project.projectId, ProjectDoc(project));
          PutKeepsWellKeyedIf(st1, milestone.milestoneId, MilestoneDoc(milestone));
          Outcome(Done, st1[milestone.milestoneId := MilestoneDoc(milestone)])
  }

  method UpdateMilestoneStatus(stub: Stub, args: seq<string>) returns (resp: Response)
    modifies stub
    ensures Outcome(resp, stub.state) == UpdateMilestoneStatusOutcome(old(stub.state), stub.identity, args)
  {
    var refusal := Admit(stub, args, 6);
    if refusal.Some? {
      return Error(refusal.value);
    }
    var foundMilestone := GetMilestone(stub.state, args[0]);
    if foundMilestone.Failure? {
      return Error(foundMilestone.error);
    }
    var foundProject := GetProject(stub.state, foundMilestone.value.projectId);
    if foundProject.Failure? {
      return Error(foundProject.error);
    }
    var milestone := foundMilestone.value.(status := args[1], isApproved := ParseBool(args[2]));
    var project := foundProject.value.(status := args[3], flag := args[4], isApproved := ParseBool(args[5]));
    stub.PutState(project.projectId, ProjectDoc(project));
    stub.PutState(milestone.milestoneId, MilestoneDoc(milestone));
    return Done;
  }

  /**
   * deleteMilestone: both lookups must succeed; then only the key args[0] goes.
   * The Status and Flag it assigns to the project are never written.
   */
  function DeleteMilestoneOutcome(st: Store, identity: Option<string>, args: seq<string>): (o: Outcome)
    ensures o.response == Done <==>
      Refusal(identity, args, 3).None? && GetMilestone(st, args[0]).Success? &&
      GetProject(st, GetMilestone(st, args[0]).value.projectId).Success?
    ensures o.response != Done ==> o.state == st
    ensures o.response == Done ==> o.state == st - {args[0]} && args[0] in st
    ensures WellKeyed(st) ==> WellKeyed(o.state)
  {
    match Refusal(identity, args, 3)
    case Some(e) => Outcome(Error(e), st)
    case None =>
      match GetMilestone(st, args[0])
      case Failure(e) => Outcome(Error(e), st)
      case Success(m) =>
        match GetProject(st, m.projectId)
        case Failure(e) => Outcome(Error(e), st)
        case Success(_) => Outcome(Done, st - {args[0]})
  }

  method DeleteMilestone(stub: Stub, args: seq<string>) returns (resp: Response)
    modifies stub
    ensures Outcome(resp, stub.state) == DeleteMilestoneOutcome(old(stub.state), stub.identity, args)
  {
    var refusal := Admit(stub, args, 3);
    if refusal.Some? {
      return Error(refusal.value);
    }
    var foundMilestone := GetMilestone(stub.state, args[0]);
    if foundMilestone.Failure? {
      return Error(foundMilestone.error);
    }
    var foundProject := GetProject(stub.state, foundMilestone.value.projectId);
    if foundProject.Failure? {
      return Error(foundProject.error);
    }
    // The source assigns the project's new Status and Flag here but never writes them.
    var project := Flagged(foundProject.value, args[1], args[2]);
    stub.DelState(args[0]);
    return Done;
  }

  // ---------------------------------------------------------------- activities

  /**
   * addActivity: panic if args[2] already resolves to an activity; the milestone
   * args[1] and the project args[0] must exist; writes the project's Status/Flag
   * (args[16..17]), the milestone's Status (args[15]) and the new activity.
   */
  function AddActivityOutcome(st: Store, identity: Option<string>, args: seq<string>): (o: Outcome)
    ensures o.response == Done <==>
      Refusal(identity, args, 18).None? && GetActivity(st, args[2]).Failure? &&
      GetMilestone(st, args[1]).Success? && GetProject(st, args[0]).Success?
    ensures o.response != Done ==> o.state == st
    ensures Refusal(identity, args, 18).None? && GetActivity(st, args[2]).Success? ==> o.response == Panic
    ensures o.response == Done ==>
      var m := GetMilestone(st, args[1]).value;
      var p := GetProject(st, args[0]).value;
      o.state == ActivityWrites(st, p, m, NewActivity(args), args[16], args[17], args[15])
    ensures WellKeyed(st) ==> WellKeyed(o.state)
  {
    match Refusal(identity, args, 18)
    case Some(e) => Outcome(Error(e), st)
    case None =>
      if GetActivity(st, args[2]).Success? then Outcome(Panic, st)
      else
        match GetMilestone(st, args[1])
        case Failure(e) => Outcome(Error(e), st)
        case Success(m) =>
          match GetProject(st, args[0])
          case Failure(e) => Outcome(Error(e), st)
          case Success(p) =>
            Outcome(Done, ActivityWrites(st, p, m, NewActivity(args), args[16], args[17], args[15]))
  }

  /**
   * The three writes the activity handlers end with: the project with a new
   * Status/Flag, the milestone with a new Status, then the activity.
   */
  function ActivityWrites(st: Store, p: Project, m: Milestone, a: Activity,
                          projectStatus: string, flag: string, milestoneStatus: string): (st2: Store)
    requires p.projectId != "" && m.milestoneId != ""
    ensures OnlyChanged(st, st2, {p.projectId, m.milestoneId, a.activityId})
    ensures a.activityId in st2 && st2[a.activityId] == ActivityDoc(a)
    ensures m.milestoneId != a.activityId ==>
      m.milestoneId in st2 && st2[m.milestoneId] == MilestoneDoc(m.(status := milestoneStatus))
    ensures p.projectId != a.activityId && p.projectId != m.milestoneId ==>
      p.projectId in st2 && st2[p.projectId] == ProjectDoc(Flagged(p, projectStatus, flag))
    ensures WellKeyed(st) ==> WellKeyed(st2)
  {
    var project := Flagged(p, projectStatus, flag);
    var milestone := m.(status := milestoneStatus);
    var st1 := st[project.projectId := ProjectDoc(project)];
    var st2 := st1[milestone.milestoneId := MilestoneDoc(milestone)];
    PutKeepsWellKeyedIf(st, project.projectId, ProjectDoc(project));
    PutKeepsWellKeyedIf(st1, milestone.milestoneId, MilestoneDoc(milestone));
    PutKeepsWellKeyedIf(st2, a.activityId, ActivityDoc(a));
    st2[a.activityId := ActivityDoc(a)]
  }

  method AddActivity(stub: Stub, args: seq<string>) returns (resp: Response)
    modifies stub
    ensures Outcome(resp, stub.state) == AddActivityOutcome(old(stub.state), stub.identity, args)
  {
    var refusal := Admit(stub, args, 18);
    if refusal.Some? {
      return Error(refusal.value);
    }
    var act := GetActivity(stub.state, args[2]);
    if act.Success? {
      return Panic;
    }
    var foundMilestone := GetMilestone(stub.state, args[1]);
    if foundMilestone.Failure? {
      return Error(foundMilestone.error);
    }
    var foundProject := GetProject(stub.state, args[0]);
    if foundProject.Failure? {
      return Error(foundProject.error);
    }
    var activity := NewActivity(args);
    var milestone := foundMilestone.value.(status := args[15]);
    var project := Flagged(foundProject.value, args[16], args[17]);
    stub.PutState(project.projectId, ProjectDoc(project));
    stub.PutState(milestone.milestoneId, MilestoneDoc(milestone));
    stub.PutState(activity.activityId, ActivityDoc(activity));
    return Done;
  }

  /**
   * updateActivity: the activity args[0], then the milestone and the project its own
   * MilestoneID and ProjectID name; writes project, milestone, activity.
   */
  function UpdateActivityOutcome(st: Store, identity: Option<string>, args: seq<string>): (o: Outcome)
    ensures o.response == Done <==>
      Refusal(identity, args, 16).None? && GetActivity(st, args[0]).Success? &&
      GetMilestone(st, GetActivity(st, args[0]).value.milestoneId).Success? &&
      GetProject(st, GetActivity(st, args[0]).value.projectId).Success?
    ensures o.response != Done ==> o.state == st
    ensures o.response == Done ==>
      var a := GetActivity(st, args[0]).value;
      o.state == ActivityWrites(st, GetProject(st, a.projectId).value, GetMilestone(st, a.milestoneId).value,
                                ActivityDetails(a, args), args[14], args[15], args[13])
    ensures WellKeyed(st) ==> WellKeyed(o.state)
  {
    match Refusal(identity, args, 16)
    case Some(e) => Outcome(Error(e), st)
    case None =>
      match GetActivity(st, args[0])
      case Failure(e) => Outcome(Error(e), st)
      case Success(a) =>
        match GetMilestone(st, a.milestoneId)
        case Failure(e) => Outcome(Error(e), st)
        case Success(m) =>
          match GetProject(st, a.projectId)
          case Failure(e) => Outcome(Error(e), st)
          case Success(p) =>
            Outcome(Done, ActivityWrites(st, p, m, ActivityDetails(a, args), args[14], args[15], args[13]))
  }

  method UpdateActivity(stub: Stub, args: seq<string>) returns (resp: Response)
    modifies stub
    ensures Outcome(resp, stub.state) == UpdateActivityOutcome(old(stub.state), stub.identity, args)
  {
    var refusal := Admit(stub, args, 16);
    if refusal.Some? {
      return Error(refusal.value);
    }
    var foundActivity := GetActivity(stub.state, args[0]);
    if foundActivity.Failure? {
      return Error(foundActivity.error);
    }
    var foundMilestone := GetMilestone(stub.state, foundActivity.value.milestoneId);
    if foundMilestone.Failure? {
      return Error(foundMilestone.error);
    }
    var foundProject := GetProject(stub.state, foundActivity.value.projectId);
    if foundProject.Failure? {
      return Error(foundProject.error);
    }
    var activity := ActivityDetails(foundActivity.value, args);
    var milestone := foundMilestone.value.(status := args[13]);
    var project := Flagged(foundProject.value, args[14], args[15]);
    stub.PutState(project.projectId, ProjectDoc(project));
    stub.PutState(milestone.milestoneId, MilestoneDoc(milestone));
    stub.PutState(activity.activityId, ActivityDoc(activity));
    return Done;
  }

  /**
   * updateActivityStatus: the activity's Status/IsApproved/Remarks (args[1..3]), its
   * milestone's Status (args[4]) and its project's Status/Flag (args[5..6]).
   */
  function UpdateActivityStatusOutcome(st: Store, identity: Option<string>, args: seq<string>): (o: Outcome)
    ensures o.response == Done <==>
      Refusal(identity, args, 7).None? && GetActivity(st, args[0]).Success? &&
      GetMilestone(st, GetActivity(st, args[0]).value.milestoneId).Success? &&
      GetProject(st, GetActivity(st, args[0]).value.projectId).Success?
    ensures o.response != Done ==> o.state == st
    ensures o.response == Done ==>
      var a := GetActivity(st, args[0]).value;
      o.state == ActivityWrites(st, GetProject(st, a.projectId).value, GetMilestone(st, a.milestoneId).value,
                                ActivityStatus(a, args), args[5], args[6], args[4])
    ensures o.response == Done ==>
      var a := GetActivity(st, args[0]).value;
      a.activityId in o.state && o.state[a.activityId].ActivityDoc? &&
      var b := o.state[a.activityId].activity;
      b.(status := a.status, isApproved := a.isApproved, remarks := a.remarks) == a &&
      b.status == args[1] && b.isApproved == ParseBool(args[2]) && b.remarks == args[3]
    ensures WellKeyed(st) ==> WellKeyed(o.state)
  {
    match Refusal(identity, args, 7)
    case Some(e) => Outcome(Error(e), st)
    case None =>
      match GetActivity(st, args[0])
      case Failure(e) => Outcome(Error(e), st)
      case Success(a) =>
        match GetMilestone(st, a.milestoneId)
        case Failure(e) => Outcome(Error(e), st)
        case Success(m) =>
          match GetProject(st, a.projectId)
          case Failure(e) => Outcome(Error(e), st)
          case Success(p) =>
            Outcome(Done, ActivityWrites(st, p, m, ActivityStatus(a, args), args[5], args[6], args[4]))
  }

  method UpdateActivityStatus(stub: Stub, args: seq<string>) returns (resp: Response)
    modifies stub
    ensures Outcome(resp, stub.state) == UpdateActivityStatusOutcome(old(stub.state), stub.identity, args)
  {
    var refusal := Admit(stub, args, 7);
    if refusal.Some? {
      return Error(refusal.value);
    }
    var foundActivity := GetActivity(stub.state, args[0]);
    if foundActivity.Failure? {
      return Error(foundActivity.error);
    }
    var foundMilestone := GetMilestone(stub.state, foundActivity.value.milestoneId);
    if foundMilestone.Failure? {
      return Error(foundMilestone.error);
    }
    var foundProject := GetProject(stub.state, foundActivity.value.projectId);
    if foundProject.Failure? {
      return Error(foundProject.error);
    }
    var activity := ActivityStatus(foundActivity.value, args);
    var milestone := foundMilestone.value.(status := args[4]);
    var project := Flagged(foundProject.value, args[5], args[6]);
    stub.PutState(project.projectId, ProjectDoc(project));
    stub.PutState(milestone.milestoneId, MilestoneDoc(milestone));
    stub.PutState(activity.activityId, ActivityDoc(activity));
    return Done;
  }

  /**
   * deleteActivity: all three lookups must succeed; then only the key args[0] goes.
   * The statuses it assigns to the milestone and project are never written.
   */
  function DeleteActivityOutcome(st: Store, identity: Option<string>, args: seq<string>): (o: Outcome)
    ensures o.response == Done <==>
      Refusal(identity, args, 4).None? && GetActivity(st, args[0]).Success? &&
      GetMilestone(st, GetActivity(st, args[0]).value.milestoneId).Success? &&
      GetProject(st, GetActivity(st, args[0]).value.projectId).Success?
    ensures o.response != Done ==> o.state == st
    ensures o.response == Done ==> o.state == st - {args[0]} && args[0] in st
    ensures WellKeyed(st) ==> WellKeyed(o.state)
  {
    match Refusal(identity, args, 4)
    case Some(e) => Outcome(Error(e), st)
    case None =>
      match GetActivity(st, args[0])
      case Failure(e) => Outcome(Error(e), st)
      case Success(a) =>
        match GetMilestone(st, a.milestoneId)
        case Failure(e) => Outcome(Error(e), st)
        case Success(_) =>
          match GetProject(st, a.projectId)
          case Failure(e) => Outcome(Error(e), st)
          case Success(_) => Outcome(Done, st - {args[0]})
  }

  method DeleteActivity(stub: Stub, args: seq<string>) returns (resp: Response)
    modifies stub
    ensures Outcome(resp, stub.state) == DeleteActivityOutcome(old(stub.state), stub.identity, args)
  {
    var refusal := Admit(stub, args, 4);
    if refusal.Some? {
      return Error(refusal.value);
    }
    var foundActivity := GetActivity(stub.state, args[0]);
    if foundActivity.Failure? {
      return Error(foundActivity.error);
    }
    var foundMilestone := GetMilestone(stub.state, foundActivity.value.milestoneId);
    if foundMilestone.Failure? {
      return Error(foundMilestone.error);
    }
    var foundProject := GetProject(stub.state, foundActivity.value.projectId);
    if foundProject.Failure? {
      return Error(foundProject.error);
    }
    // The source assigns the parents' new statuses here but never writes them.
    var milestone := foundMilestone.value.(status := args[1]);
    var project := Flagged(foundProject.value, args[2], args[3]);
    stub.DelState(args[0]);
    return Done;
  }

  // ---------------------------------------------------------------- proofs

  /** submitProof: the argument count is checked before the certificate; nothing is read or written. */
  method SubmitProof(stub: Stub, args: seq<string>) returns (resp: Response)
    ensures |args| != 6 ==> resp == Error(ArityError(6))
    ensures |args| == 6 && stub.identity.None? ==> resp == Error(CertError)
    ensures resp == Done <==> |args| == 6 && stub.identity.Some?
  {
    if |args| != 6 {
      return Error(ArityError(6));
    }
    var certname := stub.identity;
    if certname.None? {
      return Error(CertError);
    }
    return Done;
  }
}
