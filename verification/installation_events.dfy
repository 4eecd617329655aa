/**
 * The installation's domain events. Each record is immutable once built
 * (its properties are init-only) and compares by value. Only
 * `InstallationCreated` is ever raised; the four change records are declared
 * by the system but nothing raises or applies them.
 */
module InstallationEvents {

  import opened Optional
  import opened Guids

  /**
   * The fact that an installation was created. `installationId` and `status`
   * are non-nullable; `remark` and `locationRemark` may be null. The
   * constructor copies each argument into the same-named property and checks
   * nothing.
   */
  datatype InstallationCreated = InstallationCreated(
    id: Guid,
    installationId: string,
    status: string,
    remark: Option<string>,
    locationRemark: Option<string>,
    unitAddressId: Guid)

  datatype InstallationStatusChanged = InstallationStatusChanged(id: Guid, status: Option<string>)

  datatype InstallationRemarkChanged = InstallationRemarkChanged(id: Guid, remark: Option<string>)

  datatype InstallationLocationRemarkChanged =
    InstallationLocationRemarkChanged(id: Guid, locationRemark: Option<string>)

  datatype InstallationUnitAddressChanged =
    InstallationUnitAddressChanged(id: Guid, unitAddressId: Option<Guid>)

  /** Any event an installation aggregate can record. */
  datatype InstallationEvent =
    | Created(created: InstallationCreated)
    | StatusChanged(statusChanged: InstallationStatusChanged)
    | RemarkChanged(remarkChanged: InstallationRemarkChanged)
    | LocationRemarkChanged(locationRemarkChanged: InstallationLocationRemarkChanged)
    | UnitAddressChanged(unitAddressChanged: InstallationUnitAddressChanged)

  /**
   * Construction stores every argument unchanged, whatever it is (the empty
   * identifier and blank text included), and two events are equal exactly
   * when they were built from equal arguments.
   */
  lemma CreatedKeepsArguments(
    id: Guid, installationId: string, status: string,
    remark: Option<string>, locationRemark: Option<string>, unitAddressId: Guid,
    id': Guid, installationId': string, status': string,
    remark': Option<string>, locationRemark': Option<string>, unitAddressId': Guid)
    ensures var e := InstallationCreated(id, installationId, status, remark, locationRemark, unitAddressId);
      && e.id == id && e.installationId == installationId && e.status == status
      && e.remark == remark && e.locationRemark == locationRemark && e.unitAddressId == unitAddressId
    ensures (InstallationCreated(id, installationId, status, remark, locationRemark, unitAddressId)
             == InstallationCreated(id', installationId', status', remark', locationRemark', unitAddressId'))
        <==> ((id, installationId, status, remark, locationRemark, unitAddressId)
             == (id', installationId', status', remark', locationRemark', unitAddressId'))
  {
  }
}
