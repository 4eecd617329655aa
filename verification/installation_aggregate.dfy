/**
 * The installation aggregate and its one command, `Create`.
 *
 * The command runs two guards and then raises one `InstallationCreated`
 * event. The first guard rejects an aggregate whose identifier is already
 * set. The second guard tests the aggregate's own identifier again, not the
 * `id` argument, and fires when that identifier is set; it is reached only
 * when the identifier is empty, so it never fires, and no argument is ever
 * validated.
 */
module InstallationAggregate {

  import opened Optional
  import opened Guids
  import opened Results
  import opened InstallationErrors
  import opened InstallationEvents

  /**
   * The aggregate's state. `id` belongs to the event-sourcing base class and
   * is `Empty` until the aggregate is created; the other fields are the
   * aggregate's own properties.
   */
  datatype Installation = Installation(
    id: Guid,
    installationId: string,
    status: string,
    remark: string,
    locationRemark: Option<string>,
    unitAddressId: Guid)

  /** A newly constructed aggregate: every field at its declared default. */
  function Fresh(): (a: Installation)
    ensures !IsInitialized(a.id)
    ensures a.installationId == "" && a.status == "" && a.remark == ""
    ensures a.locationRemark == None && a.unitAddressId == Empty
  {
    Installation(Empty, "", "", "", None, Empty)
  }

  /** An aggregate is initialized once its identifier is not the nil value. */
  predicate IsInitialized(id: Guid)
  {
    id != Empty
  }

  /**
   * A correct validity test for an identifier. `Create` calls it on the
   * aggregate's own `Id` instead of its `id` argument, and without negating it.
   */
  predicate IsIdValid(id: Guid)
  {
    id != Empty
  }

  /** The result `Create` returns, with the events it raised, in order. */
  datatype Decision = Decision(result: Result<InstallationError>, raised: seq<InstallationEvent>)

  function AlreadyCreatedMessage(id: Guid): (msg: string)
  {
    "Cannot create, it has already been created: Id: '" + GuidText(id) + "'"
  }

  function IdInvalidMessage(id: Guid): (msg: string)
  {
    "Id is invalid: '" + GuidText(id) + "'"
  }

  /** The event a successful `Create` raises: the six arguments, unchanged. */
  function CreatedEvent(
    id: Guid, installationId: string, status: string,
    remark: string, locationRemark: string, unitAddressId: Guid): (e: InstallationEvent)
  {
    Created(InstallationCreated(id, installationId, status, Some(remark), Some(locationRemark), unitAddressId))
  }

  /**
   * The `Create` command on the aggregate state `state`, as written: the
   * identifier guard, then the (unreachable) validity guard, then one event.
   */
  function Create(
    state: Installation, id: Guid, installationId: string, status: string,
    remark: string, locationRemark: string, unitAddressId: Guid): (d: Decision)
    ensures |d.result.Errors()| <= 1 && |d.raised| <= 1
    ensures d.result.Fail? <==> IsInitialized(state.id)
    ensures d.result.Fail? ==> d.raised == [] && d.result.error.code == AlreadyCreated
    ensures d.result.Ok? ==>
      d.raised == [CreatedEvent(id, installationId, status, remark, locationRemark, unitAddressId)]
  {
    if IsInitialized(state.id) then
      Decision(Fail(NewError(AlreadyCreated, AlreadyCreatedMessage(state.id))), [])
    else if IsIdValid(state.id) then
      Decision(Fail(NewError(IdInvalid, IdInvalidMessage(state.id))), [])
    else
      Decision(Ok, [CreatedEvent(id, installationId, status, remark, locationRemark, unitAddressId)])
  }

  /** The two private predicates are one and the same test. */
  lemma GuardsCoincide(g: Guid)
    ensures IsInitialized(g) <==> IsIdValid(g)
  {
  }

  /**
   * Once the identifier is set, every argument combination fails with the
   * one error ALREADY_CREATED, whose message names that identifier, and
   * raises nothing. This guard runs first, so its error wins over any other.
   */
  lemma AlreadyCreatedForAllArguments(
    state: Installation, id: Guid, installationId: string, status: string,
    remark: string, locationRemark: string, unitAddressId: Guid)
    requires state.id != Empty
    ensures var d := Create(state, id, installationId, status, remark, locationRemark, unitAddressId);
      && !d.result.IsSuccess()
      && d.result.Errors() == [NewError(AlreadyCreated, AlreadyCreatedMessage(state.id))]
      && d.raised == []
  {
  }

  /** No state and no arguments make `Create` return ID_INVALID. */
  lemma IdInvalidUnreachable(
    state: Installation, id: Guid, installationId: string, status: string,
    remark: string, locationRemark: string, unitAddressId: Guid)
    ensures forall e :: (e in Create(state, id, installationId, status, remark, locationRemark, unitAddressId).result.Errors()
      ==> e.code != IdInvalid)
  {
  }

  /**
   * While the identifier is empty, `Create` succeeds for every argument,
   * the nil `id`, blank `installationId` and nil `unitAddressId` included,
   * and raises exactly one event carrying the arguments verbatim.
   */
  lemma UninitializedAlwaysSucceeds(
    state: Installation, id: Guid, installationId: string, status: string,
    remark: string, locationRemark: string, unitAddressId: Guid)
    requires state.id == Empty
    ensures var d := Create(state, id, installationId, status, remark, locationRemark, unitAddressId);
      && d.result.IsSuccess()
      && d.result.Errors() == []
      && |d.raised| == 1
      && d.raised[0].Created?
      && var e := d.raised[0].created;
      && e.id == id && e.installationId == installationId && e.status == status
      && e.remark == Some(remark) && e.locationRemark == Some(locationRemark)
      && e.unitAddressId == unitAddressId
  {
  }

  /**
   * The repository's test expects `Create` with the nil `id` on a fresh
   * aggregate to fail with ID_INVALID; as written it succeeds.
   */
  lemma EmptyIdAccepted()
    ensures Create(Fresh(), Empty, "F12345", "Opened", "Remark", "Location remark", Guid(1)).result == Ok
  {
  }

  /**
   * `Create` with the validity guard applied to the `id` argument and firing
   * when that argument is NOT valid, which is what the repository's test for
   * the nil identifier expects.
   */
  function CreateAsTested(
    state: Installation, id: Guid, installationId: string, status: string,
    remark: string, locationRemark: string, unitAddressId: Guid): (d: Decision)
    ensures |d.result.Errors()| <= 1 && |d.raised| <= 1
    ensures d.result.Ok? <==> |d.raised| == 1
    ensures d.result.Fail? <==> IsInitialized(state.id) || id == Empty
    ensures d.result.Fail? && IsInitialized(state.id) ==> d.result.error.code == AlreadyCreated
    ensures d.result.Fail? && !IsInitialized(state.id) ==> d.result.error.code == IdInvalid
  {
    if IsInitialized(state.id) then
      Decision(Fail(NewError(AlreadyCreated, AlreadyCreatedMessage(state.id))), [])
    else if !IsIdValid(id) then
      Decision(Fail(NewError(IdInvalid, IdInvalidMessage(id))), [])
    else
      Decision(Ok, [CreatedEvent(id, installationId, status, remark, locationRemark, unitAddressId)])
  }

  /**
   * The corrected command rejects the nil `id` on an uninitialized aggregate
   * with ID_INVALID and otherwise decides exactly as the code as written.
   */
  lemma CreateAsTestedDiffersOnlyOnEmptyId(
    state: Installation, id: Guid, installationId: string, status: string,
    remark: string, locationRemark: string, unitAddressId: Guid)
    ensures var fixed := CreateAsTested(state, id, installationId, status, remark, locationRemark, unitAddressId);
      var written := Create(state, id, installationId, status, remark, locationRemark, unitAddressId);
      && (id != Empty || IsInitialized(state.id) ==> fixed == written)
      && (id == Empty && !IsInitialized(state.id) ==>
            fixed.result.Errors() == [NewError(IdInvalid, IdInvalidMessage(Empty))] && fixed.raised == [])
  {
  }

  /*
   * The aggregate as the event-sourcing base class holds it: the state, plus
   * the events raised and not yet committed to the store. How the base class
   * applies an event to the state is not part of this model: `apply` stands
   * for it, and nothing here depends on what it does.
   */

  datatype Aggregate = Aggregate(state: Installation, uncommitted: seq<InstallationEvent>)

  type Apply = (Installation, InstallationEvent) -> Installation

  /** Raising an event records it after the earlier ones and hands it to `apply`. */
  function RaiseEvent(agg: Aggregate, e: InstallationEvent, apply: Apply): Aggregate
  {
    Aggregate(apply(agg.state, e), agg.uncommitted + [e])
  }

  /** The aggregate after a command, with the result the command returned. */
  datatype Outcome = Outcome(post: Aggregate, result: Result<InstallationError>)

  /**
   * `Create` run on the aggregate: a failure leaves the aggregate exactly as
   * it was (no field changes, no event); a success records one
   * `InstallationCreated` with the six arguments after the earlier events.
   */
  function CreateOn(
    agg: Aggregate, apply: Apply, id: Guid, installationId: string, status: string,
    remark: string, locationRemark: string, unitAddressId: Guid): (o: Outcome)
    ensures o.result.Fail? <==> IsInitialized(agg.state.id)
    ensures o.result.Fail? ==> o.post == agg && o.result.error.code == AlreadyCreated
    ensures o.result.Ok? ==>
      var e := CreatedEvent(id, installationId, status, remark, locationRemark, unitAddressId);
      o.post.uncommitted == agg.uncommitted + [e] && o.post.state == apply(agg.state, e)
  {
    var d := Create(agg.state, id, installationId, status, remark, locationRemark, unitAddressId);
    // `Create` raises at most one event.
    var post := if d.raised == [] then agg else RaiseEvent(agg, d.raised[0], apply);
    Outcome(post, d.result)
  }

  /** The six arguments of one `Create` call. */
  datatype CreateRequest = CreateRequest(
    id: Guid, installationId: string, status: string,
    remark: string, locationRemark: string, unitAddressId: Guid)

  /** The aggregate after a run of commands, with their results in order. */
  datatype Outcomes = Outcomes(post: Aggregate, results: seq<Result<InstallationError>>)

  /** Runs `Create` once per request, in order, collecting the results. */
  function CreateEach(agg: Aggregate, apply: Apply, requests: seq<CreateRequest>): (o: Outcomes)
    ensures |o.results| == |requests|
    decreases |requests|
  {
    if requests == [] then Outcomes(agg, [])
    else
      var q := requests[0];
      var first := CreateOn(agg, apply, q.id, q.installationId, q.status, q.remark, q.locationRemark, q.unitAddressId);
      var rest := CreateEach(first.post, apply, requests[1..]);
      Outcomes(rest.post, [first.result] + rest.results)
  }

  /**
   * However many `Create` calls follow, an aggregate whose identifier is set
   * stays exactly as it is and every call fails with ALREADY_CREATED.
   */
  lemma {:induction false} CreatedAggregateRejectsEveryCreate(
    agg: Aggregate, apply: Apply, requests: seq<CreateRequest>)
    requires IsInitialized(agg.state.id)
    ensures CreateEach(agg, apply, requests).post == agg
    ensures forall i :: 0 <= i < |requests| ==>
      CreateEach(agg, apply, requests).results[i].Fail?
      && CreateEach(agg, apply, requests).results[i].error.code == AlreadyCreated
    decreases |requests|
  {
    if requests != [] {
      CreatedAggregateRejectsEveryCreate(agg, apply, requests[1..]);
    }
  }
}
