/** The values exchanged by the azurerm_managed_disk resource: the flat
    configuration record the resource reads, the names of the fields whose
    change it asks about, the enumerations of the Azure Disks API, and the
    request payloads it builds for that API. */
module DiskApi {

  datatype Option<+T> = None | Some(value: T)

  /** What a call into the cloud returns: a value, or the error it failed with. */
  datatype Lookup<+T> = Found(value: T) | LookupFailed(message: string)

  /** Why the resource refuses a configuration. */
  datatype DiskError =
    | PerformanceSettingsUnsupported          // IOPS/MBps (or sector size) outside UltraSSD_LRS / PremiumV2_LRS
    | IopsReadOnlyRequiresSharedDisk
    | MbpsReadOnlyRequiresSharedDisk
    | SourceUriRequired
    | StorageAccountIdRequired
    | SourceResourceIdRequired
    | ImageReferenceRequired
    | UploadSizeRequired
    | EncryptionSetLookupFailed(message: string)
    | DiskAccessRequiresAllowPrivate
    | TierRequiresPremium
    | TrustedLaunchUnsupportedCreateOption
    | SecurityTypeConflictsWithTrustedLaunch
    | SecurityTypeUnsupportedCreateOption
    | SecureVmEncryptionSetRequired
    | SecureVmEncryptionSetRequiresCustomerKey
    | BurstingRequiresPremium
    | BurstingRequiresLargerDisk
    | ShrinkNotSupported
    | NoDowntimeResizeCheckFailed(message: string)
    | CustomerKeyCannotBeRemoved

  datatype Result<+T> = Ok(value: T) | Err(error: DiskError)

  /** The storage account types (SKU names) of the Disks API. */
  datatype StorageType =
    | PremiumLRS | PremiumV2LRS | PremiumZRS | StandardLRS
    | StandardSSDLRS | StandardSSDZRS | UltraSSDLRS
  {
    function Name(): string {
      match this
      case PremiumLRS => "Premium_LRS"
      case PremiumV2LRS => "PremiumV2_LRS"
      case PremiumZRS => "Premium_ZRS"
      case StandardLRS => "Standard_LRS"
      case StandardSSDLRS => "StandardSSD_LRS"
      case StandardSSDZRS => "StandardSSD_ZRS"
      case UltraSSDLRS => "UltraSSD_LRS"
    }
  }

  datatype CreateOption = Copy | Empty | FromImage | Import | ImportSecure | Restore | Upload

  datatype DiskSecurityType =
    | TrustedLaunch
    | ConfidentialVMVMGuestStateOnlyEncryptedWithPlatformKey
    | ConfidentialVMDiskEncryptedWithPlatformKey
    | ConfidentialVMDiskEncryptedWithCustomerKey

  datatype NetworkAccessPolicy = AllowAll | AllowPrivate | DenyAll

  datatype PublicNetworkAccess = Enabled | Disabled

  datatype EncryptionType =
    | EncryptionAtRestWithPlatformKey
    | EncryptionAtRestWithCustomerKey
    | EncryptionAtRestWithPlatformAndCustomerKeys

  /** One `encryption_settings` block, carried through unexpanded. */
  datatype EncryptionSettingsBlock = EncryptionSettingsBlock(attributes: map<string, string>)

  /** The configuration as the resource reads it with `d.Get`: a string field
      that is not set reads as "", an int as 0, a bool as false. An unset
      `security_type` is None. */
  datatype Config = Config(
    name: string,
    resourceGroupName: string,
    location: string,
    storageAccountType: string,
    createOption: CreateOption,
    edgeZone: string,
    logicalSectorSize: int,
    optimizedFrequentAttachEnabled: bool,
    performancePlusEnabled: bool,
    sourceUri: string,
    sourceResourceId: string,
    storageAccountId: string,
    imageReferenceId: string,
    galleryImageReferenceId: string,
    osType: string,
    diskSizeGB: int,
    uploadSizeBytes: int,
    diskIopsReadWrite: int,
    diskMbpsReadWrite: int,
    diskIopsReadOnly: int,
    diskMbpsReadOnly: int,
    diskEncryptionSetId: string,
    encryptionSettings: seq<EncryptionSettingsBlock>,
    networkAccessPolicy: NetworkAccessPolicy,
    diskAccessId: string,
    publicNetworkAccessEnabled: bool,
    tier: string,
    maxShares: int,
    trustedLaunchEnabled: bool,
    secureVmDiskEncryptionSetId: string,
    securityType: Option<DiskSecurityType>,
    hyperVGeneration: string,
    onDemandBurstingEnabled: bool,
    zone: string,
    tags: map<string, string>)

  /** The fields whose change (`d.HasChange`) the resource asks about. */
  datatype Field =
    | StorageAccountTypeField
    | LogicalSectorSizeField
    | OptimizedFrequentAttachEnabledField
    | OsTypeField
    | DiskSizeGBField
    | DiskIopsReadWriteField
    | DiskMbpsReadWriteField
    | DiskIopsReadOnlyField
    | DiskMbpsReadOnlyField
    | DiskEncryptionSetIdField
    | EncryptionSettingsField
    | NetworkAccessPolicyField
    | DiskAccessIdField
    | PublicNetworkAccessEnabledField
    | TierField
    | MaxSharesField
    | OnDemandBurstingEnabledField
    | TagsField

  datatype ImageDiskReference = ImageDiskReference(id: Option<string>)

  datatype CreationData = CreationData(
    createOption: CreateOption,
    performancePlus: Option<bool>,
    logicalSectorSize: Option<int>,
    storageAccountId: Option<string>,
    sourceUri: Option<string>,
    sourceResourceId: Option<string>,
    imageReference: Option<ImageDiskReference>,
    galleryImageReference: Option<ImageDiskReference>,
    uploadSizeBytes: Option<int>)

  datatype Encryption = Encryption(encryptionType: Option<EncryptionType>, diskEncryptionSetId: Option<string>)

  datatype DiskSecurityProfile = DiskSecurityProfile(
    securityType: Option<DiskSecurityType>,
    secureVmDiskEncryptionSetId: Option<string>)

  /** The properties of a disk as sent on creation (and as returned by a read). */
  datatype DiskProperties = DiskProperties(
    creationData: CreationData,
    optimizedForFrequentAttach: Option<bool>,
    osType: Option<string>,
    encryption: Option<Encryption>,
    diskSizeGB: Option<int>,
    maxShares: Option<int>,
    diskIopsReadWrite: Option<int>,
    diskMbpsReadWrite: Option<int>,
    diskIopsReadOnly: Option<int>,
    diskMbpsReadOnly: Option<int>,
    encryptionSettingsCollection: Option<seq<EncryptionSettingsBlock>>,
    networkAccessPolicy: Option<NetworkAccessPolicy>,
    diskAccessId: Option<string>,
    publicNetworkAccess: Option<PublicNetworkAccess>,
    tier: Option<string>,
    securityProfile: Option<DiskSecurityProfile>,
    burstingEnabled: Option<bool>,
    hyperVGeneration: Option<string>)

  /** The create request. `edgeZone` and `location` are carried as configured. */
  datatype Disk = Disk(
    name: string,
    edgeZone: string,
    location: string,
    properties: DiskProperties,
    skuName: string,
    tags: map<string, string>,
    zones: Option<seq<string>>)

  /** The patch sent on update: every field left None is not changed. */
  datatype DiskUpdateProperties = DiskUpdateProperties(
    maxShares: Option<int>,
    tier: Option<string>,
    diskIopsReadWrite: Option<int>,
    diskMbpsReadWrite: Option<int>,
    diskIopsReadOnly: Option<int>,
    diskMbpsReadOnly: Option<int>,
    optimizedForFrequentAttach: Option<bool>,
    osType: Option<string>,
    diskSizeGB: Option<int>,
    encryptionSettingsCollection: Option<seq<EncryptionSettingsBlock>>,
    encryption: Option<Encryption>,
    networkAccessPolicy: Option<NetworkAccessPolicy>,
    diskAccessId: Option<string>,
    publicNetworkAccess: Option<PublicNetworkAccess>,
    burstingEnabled: Option<bool>)

  datatype DiskUpdate = DiskUpdate(
    properties: DiskUpdateProperties,
    skuName: Option<string>,
    tags: Option<map<string, string>>)

  const EmptyDiskUpdate: DiskUpdate :=
    DiskUpdate(
      DiskUpdateProperties(None, None, None, None, None, None, None, None, None, None, None, None, None, None, None),
      None, None)
}
