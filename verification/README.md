# Installation aggregate: the `Create` command

This project models the core of the OpenFTTH installation service: the
installation aggregate (`InstallationAR`) and its only command, `Create`. It also
models the `InstallationCreated` event that `Create` raises and the
`InstallationError` type it fails with. The model is pure and functional:

- `InstallationAggregate.Create` takes the aggregate's state and the six
  arguments. It returns a `Decision`: the result (`Ok`, or `Fail` with exactly
  one error) and the list of events raised.
- `InstallationAggregate.CreateOn` runs the same decision on an `Aggregate`.
  An `Aggregate` is the state plus the list of events raised but not yet
  committed. `RaiseEvent` appends to that list.

Modules, one per source file or library concept:

| file | module | models |
|---|---|---|
| `guids.dfy` | `Guids` | 128-bit identifiers, the nil value `Empty`, default text form |
| `optional.dfy` | `Optional` | nullable references (`T?`) as `Option<T>` |
| `results.dfy` | `Results` | the result type: `Ok` or `Fail(error)`, with `Errors()` and `IsSuccess()` |
| `installation_error.dfy` | `InstallationErrors` | `InstallationErrorCode` and `InstallationError` |
| `installation_events.dfy` | `InstallationEvents` | `InstallationCreated` and the four declared change records |
| `installation_aggregate.dfy` | `InstallationAggregate` | `InstallationAR`: state, guards, `Create` |

Some facts hold by construction and are not stated as lemmas:

- Event records are Dafny datatypes, so they are immutable. This matches the
  init-only properties in the source.
- `remark` and `locationRemark` in `InstallationCreated` are `Option<string>`.
  `installationId` and `status` are plain `string`.

Sealed-record value equality is stated as a lemma:
`InstallationEvents.CreatedKeepsArguments` proves that two events are equal
exactly when they were built from equal arguments.

`Create` as written never checks its arguments. Its second guard,
`IsIdValid(Id)`, reads the aggregate's own `Id` rather than the `id`
argument. It also fires when that identifier is *valid*. The guard is reached
only when `Id` is empty, so it never fires. As a result, `Create` with the nil
`id` succeeds on a fresh aggregate. The model keeps this behaviour as written
and proves the ID_INVALID branch unreachable. A corrected definition sits
beside it (see Findings).

## Model

| member | source | states |
|---|---|---|
| InstallationAggregate.Fresh | src/OpenFTTH.Installation/InstallationAR.cs:9-13 | a new aggregate is uninitialized: `InstallationId`, `Status` and `Remark` are `""`, `LocationRemark` is null, `UnitAddressId` is the nil identifier |
| InstallationAggregate.Create | src/OpenFTTH.Installation/InstallationAR.cs:15-49 | at most one error and one event; fails exactly when the aggregate's `Id` is set, then with ALREADY_CREATED and no event; on success raises exactly one `InstallationCreated` carrying the six arguments |
| InstallationAggregate.GuardsCoincide | src/OpenFTTH.Installation/InstallationAR.cs:51-59 | `IsInitialized` and `IsIdValid` are the same test (`id != Guid.Empty`) |
| InstallationAggregate.AlreadyCreatedForAllArguments | src/OpenFTTH.Installation/InstallationAR.cs:23-29 | with `Id` set, every argument combination gives a failed result whose single error is ALREADY_CREATED with the message naming `Id`, and no event; this check comes first, so its error wins |
| InstallationAggregate.IdInvalidUnreachable | src/OpenFTTH.Installation/InstallationAR.cs:31-59 | no state and no arguments make `Create` return an ID_INVALID error: the guard re-tests `Id`, which is empty wherever it is reached |
| InstallationAggregate.UninitializedAlwaysSucceeds | src/OpenFTTH.Installation/InstallationAR.cs:31-48 | with `Id` empty, `Create` succeeds with zero errors for every argument, the nil `id`, blank `installationId` and nil `unitAddressId` included, and raises one event whose six fields are the arguments |
| InstallationAggregate.EmptyIdAccepted | test/OpenFTTH.Installation.Tests/InstallationTests.cs:18-43 | the nil-`id` scenario from the repository's test returns `Ok`, not the ID_INVALID failure the test expects |
| InstallationAggregate.CreateAsTested | src/OpenFTTH.Installation/InstallationAR.cs:23-48 | corrected command: fails exactly when `Id` is set or `id` is nil; ALREADY_CREATED first, otherwise ID_INVALID; on success one event |
| InstallationAggregate.CreateAsTestedDiffersOnlyOnEmptyId | src/OpenFTTH.Installation/InstallationAR.cs:31-37 | the corrected command matches the code as written except for a nil `id` on an uninitialized aggregate, where it fails with the one error ID_INVALID and raises nothing |
| InstallationAggregate.CreateOn | src/OpenFTTH.Installation/InstallationAR.cs:23-48 | a failing `Create` leaves the aggregate unchanged: same `Id`, `InstallationId`, `Status`, `Remark`, `LocationRemark`, `UnitAddressId`, and no event; a success appends exactly the one `InstallationCreated` to the uncommitted events |
| InstallationAggregate.CreatedAggregateRejectsEveryCreate | src/OpenFTTH.Installation/InstallationAR.cs:23-29 | any sequence of `Create` calls on an aggregate whose `Id` is set leaves it unchanged, and every call fails with ALREADY_CREATED |
| InstallationEvents.CreatedKeepsArguments | src/OpenFTTH.Installation/Events/InstallationCreated.cs:3-26 | the constructor stores each argument unchanged in the same-named property, with no validation; two events are equal exactly when their arguments are |
| InstallationErrors.ExactlyThreeCodes | src/OpenFTTH.Installation/InstallationError.cs:5-10 | the code enumeration has exactly three members: ALREADY_CREATED, ID_INVALID, INSTALLATION_ID_INVALID |
| InstallationErrors.NewError | src/OpenFTTH.Installation/InstallationError.cs:16-21 | the error's `Code` is the argument; its message starts with the code's name and `": "`, followed by `errorMsg`; its metadata has only the key `"ErrorCode"`, which decodes back to the code |
| InstallationErrors.NameInjective | src/OpenFTTH.Installation/InstallationError.cs:5-10 | distinct codes have distinct names, so the `"ErrorCode"` metadata entry identifies the code |
| InstallationErrors.MessageRoundTrip | src/OpenFTTH.Installation/InstallationError.cs:17 | splitting a constructed error's message at its leading code name and `": "` recovers the code and `errorMsg` |
| InstallationErrors.MessageInjective | src/OpenFTTH.Installation/InstallationError.cs:17 | two constructed errors have the same message exactly when they were built from the same code and text |

## Left out

- `AggregateBase` is not part of this model. It is the event-sourcing base class that owns `Id`, event dispatch and versioning. `InstallationAR.cs` registers no handler for `InstallationCreated`. So the state after a successful `Create` is whatever the base class does; the model takes it as an `apply` parameter and asserts nothing about it.
- The field read-backs after a successful create (test/OpenFTTH.Installation.Tests/InstallationTests.cs:70-75) depend on that unseen base class. They are not modelled.
- The event store and dependency-injection wiring (test/OpenFTTH.Installation.Tests/Startup.cs) are not modelled. Neither are `Aggregates.Store` and `ScanForProjections` in the tests. They are external plumbing.
- The four change records (`InstallationStatusChanged`, `InstallationRemarkChanged`, `InstallationLocationRemarkChanged`, `InstallationUnitAddressChanged`) are declared as event variants only. Nothing in the code raises or applies them.
- Change commands, replay, and the codes `NOT_INITIALIZED`, `NO_CHANGES` and `UNIT_ADDRESS_ID_INVALID` do not exist in the code and are not modelled. Neither is a blank-`installationId` check. `INSTALLATION_ID_INVALID` is declared but never produced.
- InstallationErrors.ExactlyThreeCodes: covers only the three named members. In C# the enum is int-backed, so a cast such as `(InstallationErrorCode)3` is also a value, and `ToString()` gives its number. The model's closed `ErrorCode` leaves such values out; `Create` never produces them.
- InstallationErrors.NewError: the message prefix and metadata are stated only for the three named codes. For an unnamed enum value, the source would use the number as the name (for example the message `"3: x"`); that case is not modelled.
- `Create`'s string parameters are declared non-nullable and are modelled as plain strings. A null passed in spite of the annotation is not modelled.
- The base `Error` class belongs to the results library. Its metadata is assumed to start empty, and its values are modelled as strings.
- Text after the `"CODE: "` prefix is not constrained by any contract. `Guid.ToString` is modelled as the lower-case 8-4-4-4-12 rendering of the 128-bit value. `Guid.NewGuid` randomness is not modelled; tests' fresh identifiers are arbitrary non-nil values.

## Findings

| source | as written | input that shows it | evidently intended | confidence | as-written member | corrected member |
|---|---|---|---|---|---|---|
| src/OpenFTTH.Installation/InstallationAR.cs:31-37 | `if (IsIdValid(Id))` tests the aggregate's `Id`, not the argument, and fails when it is valid; only reached when `Id` is empty, so it never fires | fresh aggregate, `id = Guid.Empty`: `Create` returns `Ok` and raises an event with the nil `Id` (the test at test/OpenFTTH.Installation.Tests/InstallationTests.cs:18-43 expects ID_INVALID) | `if (!IsIdValid(id))`: reject a nil `id` argument with ID_INVALID | high; not executed | InstallationAggregate.EmptyIdAccepted | InstallationAggregate.CreateAsTested |

The rest of the model keeps the as-written `Create`, because it describes what
the repository does. `CreateAsTested` and
`CreateAsTestedDiffersOnlyOnEmptyId` state the intended behaviour and where
it differs.
