/**
 * project.go, fundProject: a donation is added to the project's unallocated pool;
 * with automatic allocation (FundAllocationType "2") one greedy pass over the
 * project's activities fully funds each one in turn until the running balance
 * cannot cover the next.
 *
 * The pass is a method over the decoded activity array, proved against closed
 * forms: how many activities are funded (FundedCount), what is spent (Spent) and
 * the project that results (AutoAllocated).  The bookkeeping of FundNotAllocated
 * is reproduced as written, including its two odd cases.
 */
module Funding {
  import opened Wrappers
  import opened GoText
  import opened Ledger
  import opened Lib
  import opened Queries
  import opened Projects

  const FundAllocatedStatus := "Fund Allocated"

  /** What an activity still needs: its budget less what it already has. */
  function Remaining(a: Activity): real {
    a.activityBudget - a.fundAllocated
  }

  /** An activity after the pass funds it: fully allocated, with status "Fund Allocated". */
  function Funded(a: Activity): Activity {
    a.(fundAllocated := a.fundAllocated + Remaining(a), status := FundAllocatedStatus)
  }

  /** The total the first n activities still need. */
  function Spent(acts: seq<Activity>, n: nat): real
    requires n <= |acts|
  {
    if n == 0 then 0.0 else Spent(acts, n - 1) + Remaining(acts[n - 1])
  }

  /** The balance left from `pool` once the first j activities are funded. */
  function Balance(acts: seq<Activity>, pool: real, j: nat): real
    requires j <= |acts|
  {
    pool - Spent(acts, j)
  }

  /** The running balance, after the activities before j, covers what activity j needs. */
  predicate Affordable(acts: seq<Activity>, pool: real, j: nat)
    requires j < |acts|
  {
    Balance(acts, pool, j) >= Remaining(acts[j])
  }

  /** The first activity, from `from` on, that the balance cannot cover (or |acts|). */
  function FirstShort(acts: seq<Activity>, pool: real, from: nat): (k: nat)
    requires from <= |acts|
    ensures from <= k <= |acts|
    ensures forall j :: from <= j < k ==> Affordable(acts, pool, j)
    ensures k < |acts| ==> !Affordable(acts, pool, k)
    decreases |acts| - from
  {
    if from == |acts| then from
    else if !Affordable(acts, pool, from) then from
    else FirstShort(acts, pool, from + 1)
  }

  /**
   * How many activities the pass funds: the longest prefix whose every member
   * the running balance covers.
   */
  function FundedCount(acts: seq<Activity>, pool: real): (k: nat)
    ensures k <= |acts|
    ensures forall j :: 0 <= j < k ==> Affordable(acts, pool, j)
    ensures k < |acts| ==> !Affordable(acts, pool, k)
  {
    FirstShort(acts, pool, 0)
  }

  /** The project after the pass has funded the first i activities and not yet stopped. */
  function AfterFunding(project: Project, acts: seq<Activity>, pool: real, i: nat): Project
    requires i <= |acts|
  {
    project.(fundAllocated := project.fundAllocated + Spent(acts, i),
             status := if i > 0 then FundAllocatedStatus else project.status,
             fundNotAllocated :=
               if i == 0 then project.fundNotAllocated
               else if i == |acts| then Balance(acts, pool, i)
               else 0.0)
  }

  /** The project the automatic pass leaves, from the project and the pool it starts with. */
  function AutoAllocated(project: Project, acts: seq<Activity>, pool: real): (r: Project)
    ensures r.(fundAllocated := project.fundAllocated, status := project.status,
               fundNotAllocated := project.fundNotAllocated) == project
    ensures r.fundAllocated == project.fundAllocated + Spent(acts, FundedCount(acts, pool))
  {
    var k := FundedCount(acts, pool);
    var q := AfterFunding(project, acts, pool, k);
    if k < |acts| then q.(fundNotAllocated := q.fundNotAllocated + Balance(acts, pool, k)) else q
  }

  /** The activity writes of the pass: the first n activities, funded, each under its ActivityID, in order. */
  function WriteFunded(st: Store, acts: seq<Activity>, n: nat): Store
    requires n <= |acts|
  {
    if n == 0 then st
    else WriteFunded(st, acts, n - 1)[acts[n - 1].activityId := ActivityDoc(Funded(acts[n - 1]))]
  }

  // ---------------------------------------------------------------- the pass

  /**
   * The loop of fundProject in automatic mode over the decoded activities: funds
   * each activity the balance covers, writes it, and stops at the first it cannot.
   */
  method AllocateAutomatically(stub: Stub, activities: array<Activity>, project: Project, donationAmt: real)
    returns (p: Project)
    modifies stub, activities
    ensures p == AutoAllocated(project, old(activities[..]), donationAmt)
    ensures var k := FundedCount(old(activities[..]), donationAmt);
      stub.state == WriteFunded(old(stub.state), old(activities[..]), k) &&
      (forall j :: 0 <= j < k ==> activities[j] == Funded(old(activities[j]))) &&
      (forall j :: k <= j < activities.Length ==> activities[j] == old(activities[j]))
  {
    ghost var acts := activities[..];
    ghost var k := FundedCount(acts, donationAmt);
    ghost var st0 := stub.state;
    p := project;
    var actBalAmt := donationAmt;
    var i := 0;
    while i < activities.Length
      invariant 0 <= i <= k <= activities.Length == |acts|
      invariant actBalAmt == Balance(acts, donationAmt, i)
      invariant p == AfterFunding(project, acts, donationAmt, i)
      invariant forall j :: 0 <= j < i ==> activities[j] == Funded(acts[j])
      invariant forall j :: i <= j < activities.Length ==> activities[j] == acts[j]
      invariant stub.state == WriteFunded(st0, acts, i)
    {
      var actFundRem := activities[i].activityBudget - activities[i].fundAllocated;
      if actBalAmt >= actFundRem {
        Covered(acts, donationAmt, i);
        FundStep(project, acts, donationAmt, i);
        p, actBalAmt := FundActivity(stub, activities, i, p, actBalAmt);
      } else {
        p := p.(fundNotAllocated := p.fundNotAllocated + actBalAmt);
        Stopped(project, acts, donationAmt, i);
        return;
      }
      i := i + 1;
    }
    Completed(project, acts, donationAmt);
  }

  /** One covered activity: fund it, update the project and the balance, write the activity. */
  method FundActivity(stub: Stub, activities: array<Activity>, i: nat, p: Project, actBalAmt: real)
    returns (q: Project, balance: real)
    requires i < activities.Length && actBalAmt >= Remaining(activities[i])
    modifies stub, activities
    ensures activities[i] == Funded(old(activities[i]))
    ensures forall j :: 0 <= j < activities.Length && j != i ==> activities[j] == old(activities[j])
    ensures balance == actBalAmt - Remaining(old(activities[i]))
    ensures q == p.(fundAllocated := p.fundAllocated + Remaining(old(activities[i])),
                    status := FundAllocatedStatus,
                    fundNotAllocated := if i == activities.Length - 1 then balance else 0.0)
    ensures stub.state == old(stub.state)[old(activities[i]).activityId := ActivityDoc(Funded(old(activities[i])))]
  {
    var actFundRem := activities[i].activityBudget - activities[i].fundAllocated;
    activities[i] := activities[i].(fundAllocated := activities[i].fundAllocated + actFundRem,
                                    status := FundAllocatedStatus);
    q := p.(fundAllocated := p.fundAllocated + actFundRem, status := FundAllocatedStatus,
            fundNotAllocated := p.fundNotAllocated - p.fundNotAllocated);
    balance := actBalAmt;
    if balance >= actFundRem {
      balance := balance - actFundRem;
    }
    if i == activities.Length - 1 {
      q := q.(fundNotAllocated := balance);
    }
    stub.PutState(activities[i].activityId, ActivityDoc(activities[i]));
  }

  /** Funding activity i extends the closed form by one step. */
  lemma FundStep(project: Project, acts: seq<Activity>, pool: real, i: nat)
    requires i < |acts|
    ensures var q := AfterFunding(project, acts, pool, i);
      AfterFunding(project, acts, pool, i + 1) ==
        q.(fundAllocated := q.fundAllocated + Remaining(acts[i]),
           status := FundAllocatedStatus,
           fundNotAllocated := if i == |acts| - 1 then Balance(acts, pool, i) - Remaining(acts[i]) else 0.0)
  {
  }

  /** Where the pass stops, the closed form adds the balance to what is unallocated. */
  lemma Stopped(project: Project, acts: seq<Activity>, pool: real, i: nat)
    requires i < |acts| && (forall j :: 0 <= j < i ==> Affordable(acts, pool, j)) && !Affordable(acts, pool, i)
    ensures FundedCount(acts, pool) == i
    ensures var q := AfterFunding(project, acts, pool, i);
      AutoAllocated(project, acts, pool) == q.(fundNotAllocated := q.fundNotAllocated + Balance(acts, pool, i))
  {
  }

  /** An activity the running balance covers is among those funded, and funding it lowers the balance by what it needed. */
  lemma Covered(acts: seq<Activity>, pool: real, i: nat)
    requires i < |acts| && i <= FundedCount(acts, pool) && Balance(acts, pool, i) >= Remaining(acts[i])
    ensures i < FundedCount(acts, pool)
    ensures Balance(acts, pool, i + 1) == Balance(acts, pool, i) - Remaining(acts[i])
  {
    assert Affordable(acts, pool, i);
  }

  /** When every activity is covered, the closed form is the project after the last one. */
  lemma Completed(project: Project, acts: seq<Activity>, pool: real)
    requires FundedCount(acts, pool) == |acts|
    ensures AutoAllocated(project, acts, pool) == AfterFunding(project, acts, pool, |acts|)
  {
  }

  // ---------------------------------------------------------------- properties of the pass

  /** The pass never overspends: after every funded activity the balance is non-negative. */
  lemma {:induction false} BalanceNeverNegative(acts: seq<Activity>, pool: real, j: nat)
    requires 0 < j <= FundedCount(acts, pool)
    ensures Balance(acts, pool, j) >= 0.0
  {
    assert Affordable(acts, pool, j - 1);
  }

  /** When no activity is over-funded already, the balance only shrinks and stays within the pool. */
  lemma {:induction false} BalanceWithinPool(acts: seq<Activity>, pool: real, j: nat)
    requires j <= |acts| && forall m :: 0 <= m < |acts| ==> Remaining(acts[m]) >= 0.0
    ensures Balance(acts, pool, j) <= pool
    ensures j > 0 ==> Balance(acts, pool, j) <= Balance(acts, pool, j - 1)
  {
    if j > 0 {
      BalanceWithinPool(acts, pool, j - 1);
    }
  }

  /** A larger pool funds at least as many activities. */
  lemma MoreMoneyFundsMore(acts: seq<Activity>, pool1: real, pool2: real)
    requires pool1 <= pool2
    ensures FundedCount(acts, pool1) <= FundedCount(acts, pool2)
  {
    forall j | 0 <= j < FundedCount(acts, pool1)
      ensures Affordable(acts, pool2, j)
    {
      assert Affordable(acts, pool1, j);
    }
  }

  /**
   * What the pass leaves in FundAllocated and FundNotAllocated, case by case:
   * no activities keeps the old unallocated amount; an unaffordable first activity
   * adds the whole pool to it; otherwise the unspent balance replaces it.
   */
  lemma AutoAllocatedTotals(project: Project, acts: seq<Activity>, pool: real)
    ensures var r := AutoAllocated(project, acts, pool);
      var k := FundedCount(acts, pool);
      r.fundAllocated == project.fundAllocated + Spent(acts, k) &&
      r.fundNotAllocated ==
        (if |acts| == 0 then project.fundNotAllocated
         else if k == 0 then project.fundNotAllocated + pool
         else pool - Spent(acts, k)) &&
      r.status == (if k > 0 then FundAllocatedStatus else project.status)
  {
  }

  /**
   * Money is conserved by an automatic donation of `amount` exactly when at least
   * one activity is funded, or when the first is unaffordable and nothing was
   * unallocated before, or when there are no activities and the amount is zero.
   */
  lemma AutoDonationConservation(project: Project, acts: seq<Activity>, amount: real)
    ensures var pool := amount + project.fundNotAllocated;
      var r := AutoAllocated(project, acts, pool);
      var k := FundedCount(acts, pool);
      r.fundAllocated + r.fundNotAllocated == project.fundAllocated + project.fundNotAllocated + amount <==>
        k > 0 || (|acts| > 0 && project.fundNotAllocated == 0.0) || (|acts| == 0 && amount == 0.0)
  {
    AutoAllocatedTotals(project, acts, amount + project.fundNotAllocated);
  }

  /** Two activities of 400 and a pool of 500: the first is funded and 100 stays unallocated. */
  lemma TwoActivitiesExample(project: Project, a: Activity, b: Activity)
    requires a.activityBudget == 400.0 && a.fundAllocated == 0.0
    requires b.activityBudget == 400.0 && b.fundAllocated == 0.0
    ensures FundedCount([a, b], 500.0) == 1
    ensures AutoAllocated(project, [a, b], 500.0).fundAllocated == project.fundAllocated + 400.0
    ensures AutoAllocated(project, [a, b], 500.0).fundNotAllocated == 100.0
  {
    assert Affordable([a, b], 500.0, 0);
    assert !Affordable([a, b], 500.0, 1);
  }

  /** Keys that are not the ActivityID of a funded activity keep their documents. */
  lemma {:induction false} WriteFundedFrame(st: Store, acts: seq<Activity>, n: nat, key: string)
    requires n <= |acts| && forall j :: 0 <= j < n ==> acts[j].activityId != key
    ensures key in WriteFunded(st, acts, n) <==> key in st
    ensures key in st ==> WriteFunded(st, acts, n)[key] == st[key]
  {
    if n > 0 {
      WriteFundedFrame(st, acts, n - 1, key);
    }
  }

  /** A funded activity whose ActivityID no later activity shares is stored funded. */
  lemma {:induction false} WriteFundedStores(st: Store, acts: seq<Activity>, n: nat, j: nat)
    requires j < n <= |acts| && forall m :: j < m < n ==> acts[m].activityId != acts[j].activityId
    ensures acts[j].activityId in WriteFunded(st, acts, n)
    ensures WriteFunded(st, acts, n)[acts[j].activityId] == ActivityDoc(Funded(acts[j]))
  {
    if j < n - 1 {
      WriteFundedStores(st, acts, n - 1, j);
    }
  }

  /** Every funded activity is written under its own ActivityID. */
  lemma {:induction false} WriteFundedKeepsWellKeyed(st: Store, acts: seq<Activity>, n: nat)
    requires n <= |acts| && WellKeyed(st)
    ensures WellKeyed(WriteFunded(st, acts, n))
  {
    if n > 0 {
      WriteFundedKeepsWellKeyed(st, acts, n - 1);
      PutKeepsWellKeyed(WriteFunded(st, acts, n - 1), acts[n - 1].activityId, ActivityDoc(Funded(acts[n - 1])));
    }
  }

  // ---------------------------------------------------------------- fundProject

  /** The rich query for the project's activities. */
  function ActivitySelector(projectId: string): string {
    "{\"selector\":{\"docType\":\"Activity\",\"projectId\":\"" + projectId + "\"}}"
  }

  /**
   * The project after the lines that run in both modes: FundRaised becomes the
   * pool (the donated amount plus FundNotAllocated) and Flag is replaced.
   */
  function Donated(p: Project, amount: real, flag: string): Project {
    p.(fundRaised := amount + p.fundNotAllocated, flag := flag)
  }

  /** Manual allocation: the donated amount is added to FundNotAllocated. */
  function ManualFunded(p: Project, amount: real, flag: string): Project {
    var q := Donated(p, amount, flag);
    q.(fundNotAllocated := q.fundNotAllocated + amount)
  }

  /** The Key/Record array the rich query for the project's activities returns. */
  function ActivityQuery(queryResults: string -> Result<seq<Fetch<Kv>>>, projectId: string): Result<string> {
    QueryArray(queryResults(ActivitySelector(projectId)), KeyRecordEntry)
  }

  /** The writes of automatic mode: the funded activities, then the project. */
  function AutoFundedState(st: Store, q: Project, acts: seq<Activity>, pool: real): Store {
    WriteFunded(st, acts, FundedCount(acts, pool))[q.projectId := ProjectDoc(AutoAllocated(q, acts, pool))]
  }

  /**
   * Automatic mode once the pool is known: a failing activity query is an error;
   * otherwise the funded activities and then the project are written.
   */
  function AutoDonate(st: Store, q: Project, projectId: string,
                      queryResults: string -> Result<seq<Fetch<Kv>>>,
                      decodeActivities: string -> seq<Activity>, pool: real): (o: Outcome)
    ensures o.response == Done <==> ActivityQuery(queryResults, projectId).Success?
    ensures o.response != Done ==> o == Outcome(Error(ActivityQuery(queryResults, projectId).error), st)
  {
    match ActivityQuery(queryResults, projectId)
    case Failure(e) => Outcome(Error(e), st)
    case Success(text) => Outcome(Done, AutoFundedState(st, q, decodeActivities(text), pool))
  }

  /**
   * fundProject once the project is found, with the parsed amount and the flag:
   * the amount joins FundNotAllocated to form the pool; automatic mode
   * distributes it over the activities of the project looked up by `projectId`,
   * manual mode only records it.
   */
  function Donate(st: Store, p: Project, projectId: string, amount: real, flag: string,
                  queryResults: string -> Result<seq<Fetch<Kv>>>,
                  decodeActivities: string -> seq<Activity>): (o: Outcome)
    ensures o.response == Done <==> (p.fundAllocationType == "2" ==> ActivityQuery(queryResults, projectId).Success?)
    ensures o.response != Done ==> o.state == st
  {
    var q := Donated(p, amount, flag);
    if q.fundAllocationType == "2" then
      AutoDonate(st, q, projectId, queryResults, decodeActivities, amount + p.fundNotAllocated)
    else
      Outcome(Done, st[p.projectId := ProjectDoc(ManualFunded(p, amount, flag))])
  }

  /** fundProject: the shared prologue, then the project lookup, then the donation. */
  function FundProjectOutcome(st: Store, identity: Option<string>, args: seq<string>,
                              queryResults: string -> Result<seq<Fetch<Kv>>>,
                              decodeActivities: string -> seq<Activity>): (o: Outcome)
    ensures o.response == Done <==>
      Refusal(identity, args, 3).None? && GetProject(st, args[0]).Success? &&
      (GetProject(st, args[0]).value.fundAllocationType == "2" ==> ActivityQuery(queryResults, args[0]).Success?)
    ensures o.response != Done ==> o.state == st
    ensures Refusal(identity, args, 3).None? && GetProject(st, args[0]).Failure? ==>
      o.response == Error(GetProject(st, args[0]).error)
    ensures Refusal(identity, args, 3).None? && GetProject(st, args[0]).Success? ==>
      o == Donate(st, GetProject(st, args[0]).value, args[0], ParseFloat(args[1]), args[2], queryResults, decodeActivities)
  {
    match Refusal(identity, args, 3)
    case Some(e) => Outcome(Error(e), st)
    case None =>
      match GetProject(st, args[0])
      case Failure(e) => Outcome(Error(e), st)
      case Success(p) => Donate(st, p, args[0], ParseFloat(args[1]), args[2], queryResults, decodeActivities)
  }

  /**
   * What a successful donation writes: in automatic mode the activities the pass
   * funds and then the project; in manual mode only the project.
   */
  lemma DonateWrites(st: Store, p: Project, projectId: string, amount: real, flag: string,
                     queryResults: string -> Result<seq<Fetch<Kv>>>,
                     decodeActivities: string -> seq<Activity>)
    requires Donate(st, p, projectId, amount, flag, queryResults, decodeActivities).response == Done
    ensures var o := Donate(st, p, projectId, amount, flag, queryResults, decodeActivities);
      if p.fundAllocationType == "2" then
        o.state == AutoFundedState(st, Donated(p, amount, flag),
                                   decodeActivities(ActivityQuery(queryResults, projectId).value),
                                   amount + p.fundNotAllocated)
      else o.state == st[p.projectId := ProjectDoc(ManualFunded(p, amount, flag))]
  {
  }

  /**
   * A manual donation rewrites only the project: FundRaised and FundNotAllocated
   * both become the old unallocated amount plus the donation, Flag is replaced,
   * and every other field is kept.
   */
  lemma ManualDonation(st: Store, p: Project, projectId: string, amount: real, flag: string,
                       queryResults: string -> Result<seq<Fetch<Kv>>>,
                       decodeActivities: string -> seq<Activity>)
    requires p.fundAllocationType != "2"
    ensures var o := Donate(st, p, projectId, amount, flag, queryResults, decodeActivities);
      o.response == Done && OnlyChanged(st, o.state, {p.projectId}) &&
      p.projectId in o.state && o.state[p.projectId].ProjectDoc? &&
      var q := o.state[p.projectId].project;
      q.fundRaised == p.fundNotAllocated + amount && q.fundNotAllocated == p.fundNotAllocated + amount &&
      q.flag == flag &&
      q.(fundRaised := p.fundRaised, fundNotAllocated := p.fundNotAllocated, flag := p.flag) == p
  {
  }

  /** 200 donated manually to a project holding 50 unallocated leaves 250 raised and 250 unallocated. */
  lemma ManualDonationExample(st: Store, p: Project, queryResults: string -> Result<seq<Fetch<Kv>>>,
                              decodeActivities: string -> seq<Activity>)
    requires p.fundAllocationType == "1" && p.fundNotAllocated == 50.0
    ensures var q := Donate(st, p, p.projectId, 200.0, "flag2", queryResults, decodeActivities).state[p.projectId].project;
      q.fundRaised == 250.0 && q.fundNotAllocated == 250.0 && q.flag == "flag2"
  {
    ManualDonation(st, p, p.projectId, 200.0, "flag2", queryResults, decodeActivities);
  }

  /**
   * An automatic donation stores the project as the pass leaves it, with FundRaised
   * the whole pool and the new Flag; FundAllocationType, and so the mode, is kept.
   */
  lemma AutoDonation(st: Store, p: Project, projectId: string, amount: real, flag: string,
                     queryResults: string -> Result<seq<Fetch<Kv>>>,
                     decodeActivities: string -> seq<Activity>)
    requires p.fundAllocationType == "2" && ActivityQuery(queryResults, projectId).Success?
    ensures var o := Donate(st, p, projectId, amount, flag, queryResults, decodeActivities);
      var acts := decodeActivities(ActivityQuery(queryResults, projectId).value);
      var pool := amount + p.fundNotAllocated;
      o.response == Done && p.projectId in o.state &&
      o.state[p.projectId] == ProjectDoc(AutoAllocated(Donated(p, amount, flag), acts, pool)) &&
      var q := o.state[p.projectId].project;
      q.fundRaised == pool && q.flag == flag && q.fundAllocationType == "2"
  {
    var acts := decodeActivities(ActivityQuery(queryResults, projectId).value);
    DonateWrites(st, p, projectId, amount, flag, queryResults, decodeActivities);
  }

  /** A donation keeps every entity document under its own identity. */
  lemma DonateKeepsWellKeyed(st: Store, p: Project, projectId: string, amount: real, flag: string,
                             queryResults: string -> Result<seq<Fetch<Kv>>>,
                             decodeActivities: string -> seq<Activity>)
    requires WellKeyed(st)
    ensures WellKeyed(Donate(st, p, projectId, amount, flag, queryResults, decodeActivities).state)
  {
    var o := Donate(st, p, projectId, amount, flag, queryResults, decodeActivities);
    var q := Donated(p, amount, flag);
    var pool := amount + p.fundNotAllocated;
    if q.fundAllocationType == "2" {
      assert o == AutoDonate(st, q, projectId, queryResults, decodeActivities, pool);
      if o.response == Done {
        var acts := decodeActivities(ActivityQuery(queryResults, projectId).value);
        assert o.state == AutoFundedState(st, q, acts, pool);
        AutoFundedKeepsWellKeyed(st, q, acts, pool);
      }
    } else {
      assert o.state == st[p.projectId := ProjectDoc(ManualFunded(p, amount, flag))];
      PutKeepsWellKeyed(st, p.projectId, ProjectDoc(ManualFunded(p, amount, flag)));
    }
  }

  /** The writes of automatic mode keep every entity document under its own identity. */
  lemma AutoFundedKeepsWellKeyed(st: Store, q: Project, acts: seq<Activity>, pool: real)
    requires WellKeyed(st)
    ensures WellKeyed(AutoFundedState(st, q, acts, pool))
  {
    var k := FundedCount(acts, pool);
    WriteFundedKeepsWellKeyed(st, acts, k);
    PutKeepsWellKeyed(WriteFunded(st, acts, k), q.projectId, ProjectDoc(AutoAllocated(q, acts, pool)));
  }

  /** fundProject keeps every entity document under its own identity. */
  lemma FundProjectKeepsWellKeyed(st: Store, identity: Option<string>, args: seq<string>,
                                  queryResults: string -> Result<seq<Fetch<Kv>>>,
                                  decodeActivities: string -> seq<Activity>)
    requires WellKeyed(st)
    ensures WellKeyed(FundProjectOutcome(st, identity, args, queryResults, decodeActivities).state)
  {
    if Refusal(identity, args, 3).None? && GetProject(st, args[0]).Success? {
      DonateKeepsWellKeyed(st, GetProject(st, args[0]).value, args[0], ParseFloat(args[1]), args[2],
                           queryResults, decodeActivities);
    }
  }

  method FundProject(stub: Stub, args: seq<string>, lib: Library) returns (resp: Response)
    modifies stub
    ensures Outcome(resp, stub.state) ==
      FundProjectOutcome(old(stub.state), stub.identity, args, stub.queryResults, lib.decodeActivities)
  {
    var refusal := Admit(stub, args, 3);
    if refusal.Some? {
      return Error(refusal.value);
    }
    var found := GetProject(stub.state, args[0]);
    if found.Failure? {
      return Error(found.error);
    }
    resp := DonateTo(stub, found.value, args[0], ParseFloat(args[1]), args[2], lib);
  }

  /**
   * The body of fundProject after the project is found (lines 912 to 968), with
   * parseFloat(args[1]) evaluated once as `amount`.
   */
  method DonateTo(stub: Stub, found: Project, projectId: string, amount: real, flag: string, lib: Library)
    returns (resp: Response)
    modifies stub
    ensures Outcome(resp, stub.state) ==
      Donate(old(stub.state), found, projectId, amount, flag, stub.queryResults, lib.decodeActivities)
  {
    var project := found;
    var donationAmt := amount;
    donationAmt := donationAmt + project.fundNotAllocated;
    project := project.(fundRaised := donationAmt, flag := flag);
    assert project == Donated(found, amount, flag);
    if project.fundAllocationType == "2" {
      resp := FundAutomatically(stub, project, projectId, lib, donationAmt);
      return;
    } else {
      project := project.(fundNotAllocated := project.fundNotAllocated + amount);
      assert project == ManualFunded(found, amount, flag);
      stub.PutState(project.projectId, ProjectDoc(project));
    }
    return Done;
  }

  /**
   * Automatic mode of fundProject (lines 917 to 956, then the project write):
   * query the project's activities, run the pass over them, write the project.
   */
  method FundAutomatically(stub: Stub, project: Project, projectId: string, lib: Library, donationAmt: real)
    returns (resp: Response)
    modifies stub
    ensures Outcome(resp, stub.state) ==
      AutoDonate(old(stub.state), project, projectId, stub.queryResults, lib.decodeActivities, donationAmt)
  {
    var queryString := ActivitySelector(projectId);
    var act := GetQueryResultInBytesForQueryStringCouch(stub, queryString);
    if act.Failure? {
      return Error(act.error);
    }
    var decoded := lib.decodeActivities(act.value);
    var activities := new Activity[|decoded|](j requires 0 <= j < |decoded| => decoded[j]);
    assert activities[..] == decoded;
    var funded := AllocateAutomatically(stub, activities, project, donationAmt);
    assert funded.projectId == project.projectId;
    stub.PutState(funded.projectId, ProjectDoc(funded));
    return Done;
  }
}
