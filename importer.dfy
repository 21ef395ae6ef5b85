/** The import job (aplicacao/servicos/importar_dados.go): the fail-fast
    fan-out helpers and the per-producer orchestration loop. Every
    collaborator is an oracle: the user list, the authentication reply, the
    results of the seven getters and the replies to the deliveries. The
    goroutines of the fan-out are evaluated one after the other. */
module Importer {
  import opened Wrappers
  import opened Errors
  import opened Dto
  import VestroApi
  import Notifier
  import opened Strconv
  import opened Configuration

  // ---------------------------------------------------------------------
  // Fan-out: fetchData and the draining of the error channel

  /** One goroutine of the fan-out: its name and what its getter returned,
      already tagged with the slot its records go to. */
  datatype Task = Task(name: string, result: Result<Records, Error>)

  predicate AllSucceeded(tasks: seq<Task>) {
    forall i :: 0 <= i < |tasks| ==> tasks[i].result.Success?
  }

  /** The errors the failing tasks put on the channel, each wrapped with
      its task's name. */
  function FailureReports(tasks: seq<Task>): set<Error> {
    set i | 0 <= i < |tasks| && tasks[i].result.Failure? :: TaskFailed(tasks[i].name, tasks[i].result.error)
  }

  /** The payload after every task has run: each succeeding task has written
      its slot, a failing one has written nothing. */
  function StoreAll(base: IntegrationPayload, tasks: seq<Task>): IntegrationPayload {
    if tasks == [] then base
    else
      var before := StoreAll(base, tasks[..|tasks| - 1]);
      var t := tasks[|tasks| - 1];
      if t.result.Success? then Store(before, t.result.value) else before
  }

  /** `fetchData`: a failing task reports its wrapped error and leaves the
      payload as it was; a succeeding one writes its records into their
      slot and reports nothing. */
  method FetchData(payload: IntegrationPayload, task: Task)
    returns (next: IntegrationPayload, report: Option<Error>)
    ensures report.Some? <==> task.result.Failure?
    ensures report.Some? ==> report.value == TaskFailed(task.name, task.result.error) && next == payload
    ensures report.None? ==> Slot(next, KindOf(task.result.value)) == task.result.value
    ensures report.None? ==> forall c :: c != KindOf(task.result.value) ==> Slot(next, c) == Slot(payload, c)
    ensures next.producerId == payload.producerId && next.fetchedAt == payload.fetchedAt
  {
    if task.result.Failure? {
      return payload, Some(TaskFailed(task.name, task.result.error));
    }
    next := Store(payload, task.result.value);
    report := None;
  }

  /** Run every task on a shared payload, collect the reports in a channel,
      then drain it: the first error found is returned, else the payload.
      Which failing task's error comes first depends on the scheduling in
      the source, so only membership in the reports is promised. */
  method Consolidate(base: IntegrationPayload, tasks: seq<Task>) returns (r: Result<IntegrationPayload, Error>)
    ensures r.Success? <==> AllSucceeded(tasks)
    ensures r.Success? ==> r.value == StoreAll(base, tasks)
    ensures r.Failure? ==> r.error in FailureReports(tasks)
  {
    var payload := base;
    var errChan: seq<Error> := [];
    for i := 0 to |tasks|
      invariant payload == StoreAll(base, tasks[..i])
      invariant forall e :: e in errChan ==> e in FailureReports(tasks)
      invariant errChan == [] <==> AllSucceeded(tasks[..i])
    {
      assert tasks[..i + 1][..i] == tasks[..i];
      var next, report := FetchData(payload, tasks[i]);
      if report.None? {
        PayloadExtensionality(next, Store(payload, tasks[i].result.value));
      }
      payload := next;
      if report.Some? {
        errChan := errChan + [report.value];
      }
    }
    assert tasks[..|tasks|] == tasks;
    if errChan != [] {
      return Failure(errChan[0]);
    }
    return Success(payload);
  }

  /** Stores into distinct slots: on success each slot holds its own task's
      records and every slot no task targets keeps the base's contents. */
  lemma {:induction false} StoreAllSlots(base: IntegrationPayload, tasks: seq<Task>)
    requires AllSucceeded(tasks)
    requires forall i, j :: 0 <= i < j < |tasks| ==>
      KindOf(tasks[i].result.value) != KindOf(tasks[j].result.value)
    ensures forall i :: 0 <= i < |tasks| ==>
      Slot(StoreAll(base, tasks), KindOf(tasks[i].result.value)) == tasks[i].result.value
    ensures forall c :: (forall i :: 0 <= i < |tasks| ==> KindOf(tasks[i].result.value) != c) ==>
      Slot(StoreAll(base, tasks), c) == Slot(base, c)
    ensures StoreAll(base, tasks).producerId == base.producerId
    ensures StoreAll(base, tasks).fetchedAt == base.fetchedAt
  {
    if tasks != [] {
      var init := tasks[..|tasks| - 1];
      assert forall i :: 0 <= i < |init| ==> init[i] == tasks[i];
      StoreAllSlots(base, init);
    }
  }

  // ---------------------------------------------------------------------
  // fetchCommonData

  /** What the five reference getters returned. */
  datatype CommonFetch = CommonFetch(
    products: Result<seq<Product>, Error>,
    fuelTypes: Result<seq<FuelType>, Error>,
    vehicles: Result<seq<Vehicle>, Error>,
    drivers: Result<seq<Driver>, Error>,
    employees: Result<seq<Employee>, Error>)

  function CommonTasks(c: CommonFetch): seq<Task> {
    [Task("products", if c.products.Success? then Success(ProductRecords(c.products.value))
                      else Failure(c.products.error)),
     Task("fuelTypes", if c.fuelTypes.Success? then Success(FuelTypeRecords(c.fuelTypes.value))
                       else Failure(c.fuelTypes.error)),
     Task("vehicles", if c.vehicles.Success? then Success(VehicleRecords(c.vehicles.value))
                      else Failure(c.vehicles.error)),
     Task("drivers", if c.drivers.Success? then Success(DriverRecords(c.drivers.value))
                     else Failure(c.drivers.error)),
     Task("employees", if c.employees.Success? then Success(EmployeeRecords(c.employees.value))
                       else Failure(c.employees.error))]
  }

  /** The common payload: present exactly when all five getters succeeded,
      and then an otherwise zero payload holding their five results. */
  function CommonPayload(c: CommonFetch): Option<IntegrationPayload> {
    if c.products.Success? && c.fuelTypes.Success? && c.vehicles.Success?
       && c.drivers.Success? && c.employees.Success?
    then Some(IntegrationPayload(0, 0, [], [], c.products.value, c.fuelTypes.value,
                                 c.vehicles.value, c.drivers.value, c.employees.value))
    else None
  }

  /** The error a failing reference getter reports. */
  predicate CommonReport(c: CommonFetch, e: Error) {
    || (c.products.Failure? && e == TaskFailed("products", c.products.error))
    || (c.fuelTypes.Failure? && e == TaskFailed("fuelTypes", c.fuelTypes.error))
    || (c.vehicles.Failure? && e == TaskFailed("vehicles", c.vehicles.error))
    || (c.drivers.Failure? && e == TaskFailed("drivers", c.drivers.error))
    || (c.employees.Failure? && e == TaskFailed("employees", c.employees.error))
  }

  /** StoreAll one task at a time. */
  lemma StoreAllSnoc(base: IntegrationPayload, tasks: seq<Task>, t: Task)
    ensures StoreAll(base, tasks + [t]) ==
      if t.result.Success? then Store(StoreAll(base, tasks), t.result.value) else StoreAll(base, tasks)
  {
    assert (tasks + [t])[..|tasks|] == tasks;
  }

  /** The five tasks succeed together exactly when the common payload
      exists, and each failure report is the report of a failing getter. */
  lemma CommonTasksSucceed(c: CommonFetch)
    ensures AllSucceeded(CommonTasks(c)) <==> CommonPayload(c).Some?
    ensures forall e :: e in FailureReports(CommonTasks(c)) ==> CommonReport(c, e)
  {
    var ts := CommonTasks(c);
    forall e | e in FailureReports(ts) ensures CommonReport(c, e) {
      var i :| 0 <= i < |ts| && ts[i].result.Failure? && e == TaskFailed(ts[i].name, ts[i].result.error);
      assert i == 0 || i == 1 || i == 2 || i == 3 || i == 4;
    }
    if AllSucceeded(ts) {
      assert ts[0].result.Success? && ts[1].result.Success? && ts[2].result.Success?;
      assert ts[3].result.Success? && ts[4].result.Success?;
    }
  }

  /** The stores of the five tasks build the common payload. */
  lemma CommonTasksStore(c: CommonFetch)
    requires CommonPayload(c).Some?
    ensures StoreAll(EmptyPayload, CommonTasks(c)) == CommonPayload(c).value
  {
    var ts := CommonTasks(c);
    var p := CommonPayload(c).value;
    StoreAllSnoc(EmptyPayload, [], ts[0]);
    assert [] + [ts[0]] == ts[..1];
    assert StoreAll(EmptyPayload, ts[..1]) == EmptyPayload.(products := p.products);
    StoreAllSnoc(EmptyPayload, ts[..1], ts[1]);
    assert ts[..1] + [ts[1]] == ts[..2];
    StoreAllSnoc(EmptyPayload, ts[..2], ts[2]);
    assert ts[..2] + [ts[2]] == ts[..3];
    StoreAllSnoc(EmptyPayload, ts[..3], ts[3]);
    assert ts[..3] + [ts[3]] == ts[..4];
    StoreAllSnoc(EmptyPayload, ts[..4], ts[4]);
    assert ts[..4] + [ts[4]] == ts;
  }

  /** `fetchCommonData`: the common payload when every reference getter
      succeeded, and otherwise the wrapped error of one that failed. */
  method FetchCommonData(c: CommonFetch) returns (r: Result<IntegrationPayload, Error>)
    ensures r.Success? <==> CommonPayload(c).Some?
    ensures r.Success? ==> r.value == CommonPayload(c).value
    ensures r.Failure? ==> CommonReport(c, r.error)
  {
    CommonTasksSucceed(c);
    r := Consolidate(EmptyPayload, CommonTasks(c));
    if r.Success? {
      CommonTasksStore(c);
    }
  }

  // ---------------------------------------------------------------------
  // fetchDataForUser

  /** What the two transactional getters returned for one producer. */
  datatype UserFetch = UserFetch(supplies: Result<seq<Supply>, Error>,
                                 productSales: Result<seq<ProductSale>, Error>)

  function UserTasks(f: UserFetch): seq<Task> {
    [Task("supplies", if f.supplies.Success? then Success(SupplyRecords(f.supplies.value))
                      else Failure(f.supplies.error)),
     Task("productSales", if f.productSales.Success? then Success(ProductSaleRecords(f.productSales.value))
                          else Failure(f.productSales.error))]
  }

  /** A producer's own payload: present exactly when both getters succeeded,
      and then the producer's id, the fetch time and the two results. */
  function UserPayload(user: Subject, now: int, f: UserFetch): Option<IntegrationPayload> {
    if f.supplies.Success? && f.productSales.Success?
    then Some(IntegrationPayload(user.id, now, f.supplies.value, f.productSales.value, [], [], [], [], []))
    else None
  }

  /** `fetchDataForUser`: the producer's payload when both transactional
      getters succeeded, and otherwise the wrapped error of one that failed. */
  method FetchDataForUser(user: Subject, now: int, f: UserFetch) returns (r: Result<IntegrationPayload, Error>)
    ensures r.Success? <==> UserPayload(user, now, f).Some?
    ensures r.Success? ==> r.value == UserPayload(user, now, f).value
    ensures r.Failure? ==>
      || (f.supplies.Failure? && r.error == TaskFailed("supplies", f.supplies.error))
      || (f.productSales.Failure? && r.error == TaskFailed("productSales", f.productSales.error))
  {
    var base := EmptyPayload.(producerId := user.id, fetchedAt := now);
    UserTasksSucceed(f);
    r := Consolidate(base, UserTasks(f));
    if r.Success? {
      UserTasksStore(base, f);
    }
  }

  /** The two tasks succeed together exactly when both getters did, and
      each failure report is that of a failing getter. */
  lemma UserTasksSucceed(f: UserFetch)
    ensures AllSucceeded(UserTasks(f)) <==> f.supplies.Success? && f.productSales.Success?
    ensures forall e :: e in FailureReports(UserTasks(f)) ==>
      || (f.supplies.Failure? && e == TaskFailed("supplies", f.supplies.error))
      || (f.productSales.Failure? && e == TaskFailed("productSales", f.productSales.error))
  {
    var ts := UserTasks(f);
    forall e | e in FailureReports(ts)
      ensures || (f.supplies.Failure? && e == TaskFailed("supplies", f.supplies.error))
              || (f.productSales.Failure? && e == TaskFailed("productSales", f.productSales.error))
    {
      var i :| 0 <= i < |ts| && ts[i].result.Failure? && e == TaskFailed(ts[i].name, ts[i].result.error);
      assert i == 0 || i == 1;
    }
    if AllSucceeded(ts) {
      assert ts[0].result.Success? && ts[1].result.Success?;
    }
  }

  /** The stores of the two tasks fill the two transactional slots of the base. */
  lemma UserTasksStore(base: IntegrationPayload, f: UserFetch)
    requires f.supplies.Success? && f.productSales.Success?
    ensures StoreAll(base, UserTasks(f)) == base.(supplies := f.supplies.value, productSales := f.productSales.value)
  {
    var ts := UserTasks(f);
    StoreAllSnoc(base, [], ts[0]);
    assert [] + [ts[0]] == ts[..1];
    StoreAllSnoc(base, ts[..1], ts[1]);
    assert ts[..1] + [ts[1]] == ts;
  }

  // ---------------------------------------------------------------------
  // RunImport

  /** `time.Since(lastSync)`: Go's `Time.Sub`, which saturates at the
      bounds of a 64-bit duration. */
  function Since(now: int, checkpoint: int): (d: int)
    ensures Int64Min <= d <= Int64Max
    ensures Int64Min <= now - checkpoint <= Int64Max ==> d == now - checkpoint
    ensures now - checkpoint < Int64Min ==> d == Int64Min
    ensures Int64Max < now - checkpoint ==> d == Int64Max
  {
    if now - checkpoint < Int64Min then Int64Min
    else if Int64Max < now - checkpoint then Int64Max
    else now - checkpoint
  }

  /** The start of a producer's fetch window: its checkpoint, moved to
      `time.Now().Add(-fetchSince)` when it is more than fetchSince old.
      The negation is of a 64-bit duration, so it wraps at the minimum one,
      and the fetch then starts 2^63 ns before now. */
  function Clamp(now: int, fetchSince: int, checkpoint: int): (since: int)
    ensures since == checkpoint || since == now + Wrap64(-fetchSince)
    ensures Int64Min < fetchSince < Int64Max ==> since >= now - fetchSince && since >= checkpoint
    ensures fetchSince == Int64Min && checkpoint < now - Int64Min ==> since == now + Int64Min
    ensures fetchSince == Int64Max ==> since == checkpoint
  {
    if Since(now, checkpoint) > fetchSince then now + Wrap64(-fetchSince) else checkpoint
  }

  /** `userPayload.Products = commonPayload.Products` and the four lines
      after it: the reference slots come from the common payload, the rest
      from the producer's payload. */
  function WithReferenceData(p: IntegrationPayload, common: IntegrationPayload): (q: IntegrationPayload)
    ensures forall c :: Slot(q, c) == if IsTransactional(c) then Slot(p, c) else Slot(common, c)
    ensures q.producerId == p.producerId && q.fetchedAt == p.fetchedAt
  {
    p.(products := common.products, fuelTypes := common.fuelTypes, vehicles := common.vehicles,
       drivers := common.drivers, employees := common.employees)
  }

  /** How the loop ends for one producer. NilDereference is the panic of
      reading the nil common payload after a failed fetchCommonData. */
  datatype UserOutcome =
    | FetchFailed
    | NothingNew
    | SendFailed(payload: IntegrationPayload, error: Error)
    | Sent(payload: IntegrationPayload)
    | NilDereference

  /** The calls the job makes on its collaborators, in order. */
  datatype Call =
    | GetUsers
    | Auth
    | GetCommon(token: string)
    | GetUserData(token: string, identity: string, since: int)
    | Deliver(payload: IntegrationPayload)

  /** How a run ends: nil, a returned error, or a panic. */
  datatype RunResult = Finished | Aborted(error: Error) | Crashed

  /** The fetch results of the i-th producer; an oracle without them is a
      failed call. */
  function FetchOf(userFetches: seq<UserFetch>, i: nat): UserFetch {
    if i < |userFetches| then userFetches[i] else UserFetch(Failure(ProviderFailed), Failure(ProviderFailed))
  }

  /** The reply to the i-th producer's delivery; an oracle without it is a
      failed call. */
  function DeliveryOf(deliveries: seq<Notifier.SendResponse>, i: nat): Notifier.SendResponse {
    if i < |deliveries| then deliveries[i] else Notifier.SendNoResponse
  }

  /** The specification of one iteration of the loop. */
  function UserStep(user: Subject, now: int, common: Option<IntegrationPayload>,
                    f: UserFetch, d: Notifier.SendResponse): UserOutcome
  {
    match UserPayload(user, now, f)
    case None => FetchFailed
    case Some(p) =>
      if common.None? then NilDereference
      else
        var q := WithReferenceData(p, common.value);
        if IsEmpty(q) then NothingNew
        else match Notifier.SendOutcome(d)
          case Pass => Sent(q)
          case Fail(e) => SendFailed(q, e)
  }

  /** The calls one iteration makes: the data fetch, then the delivery when
      there is one. */
  function UserCalls(token: string, user: Subject, since: int, outcome: UserOutcome): seq<Call> {
    [GetUserData(token, user.identity, since)] +
      match outcome
      case SendFailed(q, _) => [Deliver(q)]
      case Sent(q) => [Deliver(q)]
      case _ => []
  }

  /** The calls of the first |outcomes| iterations. */
  function VisitTrace(token: string, users: seq<Subject>, now: int, fetchSince: int,
                      outcomes: seq<UserOutcome>): seq<Call>
    requires |outcomes| <= |users|
  {
    if outcomes == [] then []
    else
      var k := |outcomes| - 1;
      VisitTrace(token, users, now, fetchSince, outcomes[..k])
        + UserCalls(token, users[k], Clamp(now, fetchSince, users[k].checkpoint), outcomes[k])
  }

  lemma VisitTraceSnoc(token: string, users: seq<Subject>, now: int, fetchSince: int,
                       outcomes: seq<UserOutcome>, o: UserOutcome)
    requires |outcomes| < |users|
    ensures var k := |outcomes|;
      VisitTrace(token, users, now, fetchSince, outcomes + [o]) ==
        VisitTrace(token, users, now, fetchSince, outcomes)
          + UserCalls(token, users[k], Clamp(now, fetchSince, users[k].checkpoint), o)
  {
    assert (outcomes + [o])[..|outcomes|] == outcomes;
  }

  /** `RunImport`. The producers are visited in order and each ends in the
      outcome UserStep gives it; a failure never ends the loop, only the
      panic does. */
  method RunImport(fetchSince: int, now: int, users: Result<seq<Subject>, Error>,
                   auth: VestroApi.AuthResponse, common: CommonFetch,
                   userFetches: seq<UserFetch>, deliveries: seq<Notifier.SendResponse>)
    returns (run: RunResult, outcomes: seq<UserOutcome>, trace: seq<Call>)
    ensures users.Failure? ==>
      run == Aborted(UsersUnavailable(users.error)) && outcomes == [] && trace == [GetUsers]
    ensures users == Success([]) ==> run == Finished && outcomes == [] && trace == [GetUsers]
    ensures users.Success? && users.value != [] && VestroApi.Authenticate(auth).Failure? ==>
      && run == Aborted(AuthenticationFailed(VestroApi.Authenticate(auth).error))
      && outcomes == [] && trace == [GetUsers, Auth]
    ensures users.Success? && users.value != [] && VestroApi.Authenticate(auth).Success? ==>
      var us := users.value;
      var token := VestroApi.Authenticate(auth).value;
      && 0 < |outcomes| <= |us|
      && outcomes == Outcomes(us, now, CommonPayload(common), userFetches, deliveries, |outcomes|)
      && (forall i :: 0 <= i < |outcomes| - 1 ==> !outcomes[i].NilDereference?)
      && (run == Crashed <==> outcomes[|outcomes| - 1].NilDereference?)
      && (run != Crashed ==> run == Finished && |outcomes| == |us|)
      && trace == [GetUsers, Auth, GetCommon(token)] + VisitTrace(token, us, now, fetchSince, outcomes)
  {
    trace := [GetUsers];
    outcomes := [];
    if users.Failure? {
      return Aborted(UsersUnavailable(users.error)), outcomes, trace;
    }
    var us := users.value;
    if |us| == 0 {
      return Finished, outcomes, trace;
    }
    trace := trace + [Auth];
    var authenticated := VestroApi.Authenticate(auth);
    if authenticated.Failure? {
      return Aborted(AuthenticationFailed(authenticated.error)), outcomes, trace;
    }
    var token := authenticated.value;
    trace := trace + [GetCommon(token)];
    var commonResult := FetchCommonData(common);
    var commonPayload: Option<IntegrationPayload> := if commonResult.Success? then Some(commonResult.value) else None;
    var crashed, calls;
    crashed, outcomes, calls := VisitUsers(token, us, now, fetchSince, commonPayload, userFetches, deliveries);
    trace := trace + calls;
    run := if crashed then Crashed else Finished;
  }

  /** The loop of RunImport over a non-empty user list: every producer is
      visited, whatever its outcome, unless the panic ends the run. */
  method VisitUsers(token: string, us: seq<Subject>, now: int, fetchSince: int,
                    common: Option<IntegrationPayload>,
                    userFetches: seq<UserFetch>, deliveries: seq<Notifier.SendResponse>)
    returns (crashed: bool, outcomes: seq<UserOutcome>, calls: seq<Call>)
    requires us != []
    ensures 0 < |outcomes| <= |us| && outcomes == Outcomes(us, now, common, userFetches, deliveries, |outcomes|)
    ensures forall i :: 0 <= i < |outcomes| - 1 ==> !outcomes[i].NilDereference?
    ensures crashed <==> outcomes[|outcomes| - 1].NilDereference?
    ensures !crashed ==> |outcomes| == |us|
    ensures calls == VisitTrace(token, us, now, fetchSince, outcomes)
  {
    outcomes, calls := [], [];
    for i := 0 to |us|
      invariant |outcomes| == i
      invariant outcomes == Outcomes(us, now, common, userFetches, deliveries, i)
      invariant forall k :: 0 <= k < i ==> !outcomes[k].NilDereference?
      invariant calls == VisitTrace(token, us, now, fetchSince, outcomes)
    {
      var outcome, userCalls := VisitUser(token, us[i], now, fetchSince, common,
                                          FetchOf(userFetches, i), DeliveryOf(deliveries, i));
      VisitTraceSnoc(token, us, now, fetchSince, outcomes, outcome);
      outcomes := outcomes + [outcome];
      calls := calls + userCalls;
      if outcome.NilDereference? {
        return true, outcomes, calls;
      }
    }
    crashed := false;
  }

  /** The outcomes UserStep gives the first n producers, in order. */
  function Outcomes(us: seq<Subject>, now: int, common: Option<IntegrationPayload>,
                    userFetches: seq<UserFetch>, deliveries: seq<Notifier.SendResponse>, n: nat): seq<UserOutcome>
    requires n <= |us|
  {
    if n == 0 then []
    else Outcomes(us, now, common, userFetches, deliveries, n - 1)
           + [UserStep(us[n - 1], now, common, FetchOf(userFetches, n - 1), DeliveryOf(deliveries, n - 1))]
  }

  lemma {:induction false} OutcomesAt(us: seq<Subject>, now: int, common: Option<IntegrationPayload>,
                                      userFetches: seq<UserFetch>, deliveries: seq<Notifier.SendResponse>, n: nat)
    requires n <= |us|
    ensures var os := Outcomes(us, now, common, userFetches, deliveries, n);
      && |os| == n
      && forall i :: 0 <= i < n ==>
           os[i] == UserStep(us[i], now, common, FetchOf(userFetches, i), DeliveryOf(deliveries, i))
  {
    if n != 0 {
      OutcomesAt(us, now, common, userFetches, deliveries, n - 1);
    }
  }

  /** One iteration of the loop: clamp the checkpoint, fetch the producer's
      data, merge in the common data and deliver a non-empty payload. */
  method VisitUser(token: string, user: Subject, now: int, fetchSince: int,
                   common: Option<IntegrationPayload>, f: UserFetch, d: Notifier.SendResponse)
    returns (outcome: UserOutcome, calls: seq<Call>)
    ensures outcome == UserStep(user, now, common, f, d)
    ensures calls == UserCalls(token, user, Clamp(now, fetchSince, user.checkpoint), outcome)
  {
    var lastSync := user.checkpoint;
    if Since(now, lastSync) > fetchSince {
      lastSync := now + Wrap64(-fetchSince);
    }
    calls := [GetUserData(token, user.identity, lastSync)];
    var userPayload := FetchDataForUser(user, now, f);
    if userPayload.Failure? {
      return FetchFailed, calls;
    }
    if common.None? {
      return NilDereference, calls;
    }
    var q := WithReferenceData(userPayload.value, common.value);
    if IsEmpty(q) {
      return NothingNew, calls;
    }
    calls := calls + [Deliver(q)];
    var sent := Notifier.SendOutcome(d);
    outcome := if sent.Fail? then SendFailed(q, sent.error) else Sent(q);
  }

  // ---------------------------------------------------------------------
  // Properties of the orchestration

  /** Inside the duration range the clamp is the later of the checkpoint
      and now - fetchSince; at the minimum duration the negation wraps and
      an older checkpoint moves to 2^63 ns before now; at the maximum one
      the saturated `time.Since` never exceeds it. */
  lemma ClampIsMax(now: int, fetchSince: int, checkpoint: int)
    ensures Int64Min < fetchSince < Int64Max ==>
      Clamp(now, fetchSince, checkpoint) == if checkpoint < now - fetchSince then now - fetchSince else checkpoint
    ensures fetchSince == Int64Min ==>
      Clamp(now, fetchSince, checkpoint) == if checkpoint < now - Int64Min then now + Int64Min else checkpoint
    ensures fetchSince == Int64Max ==> Clamp(now, fetchSince, checkpoint) == checkpoint
  {
  }

  /** A checkpoint 400 hours old with a 24-hour window starts the fetch 24
      hours ago; one 2 hours old is kept. */
  lemma ClampExample(now: int)
    ensures Clamp(now, 24 * 3_600_000_000_000, now - 400 * 3_600_000_000_000) == now - 24 * 3_600_000_000_000
    ensures Clamp(now, 24 * 3_600_000_000_000, now - 2 * 3_600_000_000_000) == now - 2 * 3_600_000_000_000
  {
  }

  /** A delivery is attempted exactly when the producer's fetch succeeded,
      the common data is there and the merged payload is not empty. */
  lemma DeliverExactlyWhen(user: Subject, now: int, common: Option<IntegrationPayload>,
                           f: UserFetch, d: Notifier.SendResponse)
    ensures var o := UserStep(user, now, common, f, d);
      (o.Sent? || o.SendFailed?) <==>
        && f.supplies.Success? && f.productSales.Success? && common.Some?
        && !(|f.supplies.value| == 0 && |f.productSales.value| == 0)
  {
    var o := UserStep(user, now, common, f, d);
    if UserPayload(user, now, f).Some? && common.Some? {
      var q := WithReferenceData(UserPayload(user, now, f).value, common.value);
      assert Slot(q, Supplies) == SupplyRecords(f.supplies.value);
      assert Slot(q, ProductSales) == ProductSaleRecords(f.productSales.value);
    }
  }

  /** A delivered payload carries the producer's id, the fetch time, the
      producer's transactional records and the common reference records. */
  lemma DeliveredPayload(user: Subject, now: int, common: IntegrationPayload,
                         f: UserFetch, d: Notifier.SendResponse)
    requires UserStep(user, now, Some(common), f, d).Sent? || UserStep(user, now, Some(common), f, d).SendFailed?
    ensures var q := UserStep(user, now, Some(common), f, d).payload;
      && q.producerId == user.id && q.fetchedAt == now
      && q.supplies == f.supplies.value && q.productSales == f.productSales.value
      && q.products == common.products && q.fuelTypes == common.fuelTypes
      && q.vehicles == common.vehicles && q.drivers == common.drivers
      && q.employees == common.employees
      && !IsEmpty(q)
  {
    var p := UserPayload(user, now, f).value;
    var q := WithReferenceData(p, common);
    assert Slot(q, Supplies) == Slot(p, Supplies) && Slot(q, ProductSales) == Slot(p, ProductSales);
    assert Slot(q, Products) == Slot(common, Products) && Slot(q, FuelTypes) == Slot(common, FuelTypes);
    assert Slot(q, Vehicles) == Slot(common, Vehicles) && Slot(q, Drivers) == Slot(common, Drivers);
    assert Slot(q, Employees) == Slot(common, Employees);
  }

  /** A successful delivery is a Sent outcome and a failed one a SendFailed;
      a failed fetch never reaches the delivery. */
  lemma SendResultDecides(user: Subject, now: int, common: IntegrationPayload,
                          f: UserFetch, d: Notifier.SendResponse)
    requires UserPayload(user, now, f).Some?
    requires !IsEmpty(WithReferenceData(UserPayload(user, now, f).value, common))
    ensures UserStep(user, now, Some(common), f, d).Sent? <==> Notifier.SendOutcome(d).Pass?
    ensures UserStep(user, now, Some(common), f, d).SendFailed? <==> Notifier.SendOutcome(d).Fail?
  {
  }

  /** With the common data there, no iteration panics. */
  lemma NoCrashWithCommonData(user: Subject, now: int, common: IntegrationPayload,
                              f: UserFetch, d: Notifier.SendResponse)
    ensures !UserStep(user, now, Some(common), f, d).NilDereference?
  {
  }

  /** Without it, the first producer whose fetch succeeds makes the run panic. */
  lemma CrashOnlyAfterSuccessfulFetch(user: Subject, now: int, f: UserFetch, d: Notifier.SendResponse)
    ensures UserStep(user, now, None, f, d).NilDereference? <==> UserPayload(user, now, f).Some?
  {
  }

  /** Each iteration fetches once and delivers at most once, the fetch
      first, with the clamped start. */
  lemma {:induction false} OneFetchPerUser(token: string, users: seq<Subject>, now: int, fetchSince: int,
                                           outcomes: seq<UserOutcome>)
    requires |outcomes| <= |users|
    ensures var t := VisitTrace(token, users, now, fetchSince, outcomes);
      && |outcomes| <= |t| <= 2 * |outcomes|
      && (forall c :: c in t ==> c.GetUserData? || c.Deliver?)
  {
    if outcomes != [] {
      var k := |outcomes| - 1;
      OneFetchPerUser(token, users, now, fetchSince, outcomes[..k]);
    }
  }

  /** The data fetches in the trace are those of the visited producers, in
      list order, each with its identity and clamped start. */
  lemma {:induction false} FetchesInOrder(token: string, users: seq<Subject>, now: int, fetchSince: int,
                                          outcomes: seq<UserOutcome>)
    requires |outcomes| <= |users|
    ensures var fs := Fetches(VisitTrace(token, users, now, fetchSince, outcomes));
      && |fs| == |outcomes|
      && forall k :: 0 <= k < |outcomes| ==>
           fs[k] == GetUserData(token, users[k].identity, Clamp(now, fetchSince, users[k].checkpoint))
  {
    if outcomes != [] {
      var k := |outcomes| - 1;
      var since := Clamp(now, fetchSince, users[k].checkpoint);
      var before := VisitTrace(token, users, now, fetchSince, outcomes[..k]);
      var calls := UserCalls(token, users[k], since, outcomes[k]);
      FetchesInOrder(token, users, now, fetchSince, outcomes[..k]);
      FetchesAppend(before, calls);
      CallsOfOneUser(token, users[k], since, outcomes[k]);
    }
  }

  /** One iteration's calls hold its one data fetch and its delivery. */
  lemma CallsOfOneUser(token: string, user: Subject, since: int, outcome: UserOutcome)
    ensures Fetches(UserCalls(token, user, since, outcome)) == [GetUserData(token, user.identity, since)]
    ensures Deliveries(UserCalls(token, user, since, outcome)) == DeliveredBy(outcome)
  {
    var calls := UserCalls(token, user, since, outcome);
    assert calls[..1] == [calls[0]] && calls[..1][..0] == [];
    assert Fetches(calls[..1]) == [calls[0]] && Deliveries(calls[..1]) == [];
    if |calls| == 2 {
      assert calls[..|calls| - 1] == calls[..1];
      assert calls[1].Deliver?;
    }
  }

  /** The data fetches of a trace, in order. */
  function Fetches(t: seq<Call>): seq<Call> {
    if t == [] then []
    else Fetches(t[..|t| - 1]) + (if t[|t| - 1].GetUserData? then [t[|t| - 1]] else [])
  }

  lemma {:induction false} FetchesAppend(a: seq<Call>, b: seq<Call>)
    ensures Fetches(a + b) == Fetches(a) + Fetches(b)
  {
    if b != [] {
      var k := |b| - 1;
      assert (a + b)[..|a + b| - 1] == a + b[..k];
      FetchesAppend(a, b[..k]);
    } else {
      assert a + b == a;
    }
  }

  /** The deliveries in a trace are the payloads of the Sent and SendFailed
      outcomes, so at most one per producer. */
  lemma {:induction false} DeliveriesMatchOutcomes(token: string, users: seq<Subject>, now: int, fetchSince: int,
                                                   outcomes: seq<UserOutcome>)
    requires |outcomes| <= |users|
    ensures Deliveries(VisitTrace(token, users, now, fetchSince, outcomes)) == SentOrFailed(outcomes)
  {
    if outcomes != [] {
      var k := |outcomes| - 1;
      var before := VisitTrace(token, users, now, fetchSince, outcomes[..k]);
      var calls := UserCalls(token, users[k], Clamp(now, fetchSince, users[k].checkpoint), outcomes[k]);
      DeliveriesMatchOutcomes(token, users, now, fetchSince, outcomes[..k]);
      DeliveriesAppend(before, calls);
      CallsOfOneUser(token, users[k], Clamp(now, fetchSince, users[k].checkpoint), outcomes[k]);
    }
  }

  /** The payloads of the deliveries of a trace, in order. */
  function Deliveries(t: seq<Call>): seq<IntegrationPayload> {
    if t == [] then []
    else Deliveries(t[..|t| - 1]) + (if t[|t| - 1].Deliver? then [t[|t| - 1].payload] else [])
  }

  function DeliveredBy(o: UserOutcome): seq<IntegrationPayload> {
    match o
    case SendFailed(q, _) => [q]
    case Sent(q) => [q]
    case _ => []
  }

  /** The payloads of the outcomes that attempted a delivery, in order. */
  function SentOrFailed(outcomes: seq<UserOutcome>): seq<IntegrationPayload> {
    if outcomes == [] then []
    else SentOrFailed(outcomes[..|outcomes| - 1]) + DeliveredBy(outcomes[|outcomes| - 1])
  }

  lemma {:induction false} DeliveriesAppend(a: seq<Call>, b: seq<Call>)
    ensures Deliveries(a + b) == Deliveries(a) + Deliveries(b)
  {
    if b != [] {
      var k := |b| - 1;
      assert (a + b)[..|a + b| - 1] == a + b[..k];
      DeliveriesAppend(a, b[..k]);
    } else {
      assert a + b == a;
    }
  }
}
