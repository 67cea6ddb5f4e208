/** Rules that the create and the update path of the managed disk resource
    share, and the schema's CustomizeDiff predicate. */
module DiskRules {
  import opened DiskApi
  import opened SkuResolution

  /** The storage types that take explicit IOPS / MBps settings, compared
      exactly (as create does, and as update does for PremiumV2_LRS). */
  predicate IsUltraOrPremiumV2(storageAccountType: string) {
    storageAccountType == UltraSSDLRS.Name() || storageAccountType == PremiumV2LRS.Name()
  }

  /** The same test as update writes it: UltraSSD_LRS up to case,
      PremiumV2_LRS exactly. */
  predicate IsUltraOrPremiumV2OnUpdate(storageAccountType: string) {
    EqualFold(storageAccountType, UltraSSDLRS.Name()) || storageAccountType == PremiumV2LRS.Name()
  }

  /** The storage types that take a `tier` and on-demand bursting. */
  predicate IsPremium(storageAccountType: string) {
    storageAccountType == PremiumLRS.Name() || storageAccountType == PremiumZRS.Name()
  }

  /** The create options a trusted-launch or confidential disk may be created with. */
  predicate SupportsSecurityProfile(option: CreateOption) {
    option == FromImage || option == Import || option == ImportSecure
  }

  /** On-demand bursting is allowed on a Premium disk whose size is unset or over 512 GB. */
  predicate BurstingAllowed(storageAccountType: string, diskSizeGB: int) {
    IsPremium(storageAccountType) && (diskSizeGB == 0 || diskSizeGB > 512)
  }

  /** The rule each bursting error (of create and of update) reports as broken. */
  predicate BurstingRejectionJustified(e: DiskError, cfg: Config) {
    match e
    case BurstingRequiresPremium =>
      cfg.onDemandBurstingEnabled && !IsPremium(cfg.storageAccountType)
    case BurstingRequiresLargerDisk =>
      cfg.onDemandBurstingEnabled && cfg.diskSizeGB != 0 && cfg.diskSizeGB <= 512
    case _ => false
  }

  /** The fields whose change update accepts only on UltraSSD_LRS / PremiumV2_LRS. */
  const UpdatePerformanceFields: set<Field> :=
    {DiskIopsReadWriteField, DiskMbpsReadWriteField, DiskIopsReadOnlyField, DiskMbpsReadOnlyField}

  /** Create also refuses a logical sector size on other storage types. */
  const CreatePerformanceFields: set<Field> := UpdatePerformanceFields + {LogicalSectorSizeField}

  /** For any configured storage type the API spells exactly, update's
      case-insensitive test and create's exact test agree, so both paths
      gate the IOPS / MBps fields on the same storage types. */
  lemma UpdateGateAgreesOnApiNames(k: nat)
    requires k < |PossibleStorageTypeNames()|
    ensures IsUltraOrPremiumV2OnUpdate(PossibleStorageTypeNames()[k])
            == IsUltraOrPremiumV2(PossibleStorageTypeNames()[k])
  {
    var names := PossibleStorageTypeNames();
    NamesFoldDistinct();
    assert names[6] == UltraSSDLRS.Name();
    if k != 6 {
      assert !EqualFold(names[k], names[6]);
    }
  }

  /** What happens to `disk_access_id` once the network access policy is
      known: it is sent under AllowPrivate, refused when set under any other
      policy, and left out otherwise. */
  function DiskAccessSwitch(policy: NetworkAccessPolicy, diskAccessId: string): (r: Result<Option<string>>)
    ensures r.Err? <==> policy != AllowPrivate && diskAccessId != ""
    ensures r.Err? ==> r.error == DiskAccessRequiresAllowPrivate
    ensures r.Ok? && r.value.Some? ==> policy == AllowPrivate && r.value.value == diskAccessId
    ensures policy == AllowPrivate ==> r == Ok(Some(diskAccessId))
  {
    if policy == AllowPrivate then Ok(Some(diskAccessId))
    else if diskAccessId != "" then Err(DiskAccessRequiresAllowPrivate)
    else Ok(None)
  }

  /** The result of dereferencing a pointer that may be nil. */
  datatype Deref<+T> = Value(value: T) | NilDereference

  /** The disk-access step of update as written: the policy is read through
      the update payload's NetworkAccessPolicy pointer, which is nil unless
      the policy itself changed. */
  function DiskAccessStepAsWritten(payloadPolicy: Option<NetworkAccessPolicy>, diskAccessId: string)
    : (r: Deref<Result<Option<string>>>)
    ensures r.NilDereference? <==> payloadPolicy.None?
    ensures payloadPolicy.Some? ==> r == Value(DiskAccessSwitch(payloadPolicy.value, diskAccessId))
  {
    match payloadPolicy
    case None => NilDereference
    case Some(policy) => Value(DiskAccessSwitch(policy, diskAccessId))
  }

  /** The CustomizeDiff predicate on `encryption_settings`: the resource is
      replaced when encryption settings that were present are removed, so
      an in-place update never disables them. */
  function EncryptionSettingsForceNew(before: seq<EncryptionSettingsBlock>, after: seq<EncryptionSettingsBlock>)
    : (r: bool)
    ensures r ==> before != after && after == []
    ensures !r && before != [] ==> after != []
    ensures before == [] ==> !r
  {
    |before| > 0 && |after| == 0
  }
}
