/** Creating a managed disk: the configuration is checked field by field and
    the request payload is built up as the checks pass. */
module ManagedDiskCreate {
  import opened DiskApi
  import opened DiskRules

  /** The storage type gates the IOPS / MBps fields and the sector size. */
  predicate PerformanceRulesHold(cfg: Config, changed: set<Field>) {
    if IsUltraOrPremiumV2(cfg.storageAccountType) then
      (cfg.diskIopsReadOnly != 0 ==> cfg.maxShares != 0) && (cfg.diskMbpsReadOnly != 0 ==> cfg.maxShares != 0)
    else
      changed !! CreatePerformanceFields
  }

  /** The create option decides which source fields are required. */
  predicate SourceRulesHold(cfg: Config) {
    && ((cfg.createOption == Import || cfg.createOption == ImportSecure) ==>
          cfg.sourceUri != "" && cfg.storageAccountId != "")
    && ((cfg.createOption == Copy || cfg.createOption == Restore) ==> cfg.sourceResourceId != "")
    && (cfg.createOption == FromImage ==> cfg.imageReferenceId != "" || cfg.galleryImageReferenceId != "")
    && (cfg.createOption == Upload ==> cfg.uploadSizeBytes != 0)
  }

  /** A named disk encryption set must be found; a disk access needs AllowPrivate. */
  predicate AccessRulesHold(cfg: Config, changed: set<Field>, encryptionSetLookup: Lookup<Option<EncryptionType>>) {
    && (cfg.diskEncryptionSetId != "" ==> encryptionSetLookup.Found?)
    && (DiskAccessIdField in changed ==> DiskAccessSwitch(cfg.networkAccessPolicy, cfg.diskAccessId).Ok?)
  }

  /** `tier` needs a Premium SKU; trusted launch and `security_type` exclude
      each other and need a create option that carries an image; the
      customer-key security type goes with a secure VM encryption set and
      only with it. */
  predicate SecurityRulesHold(cfg: Config) {
    && (cfg.tier != "" ==> IsPremium(cfg.storageAccountType))
    && (cfg.trustedLaunchEnabled ==> SupportsSecurityProfile(cfg.createOption))
    && (cfg.securityType.Some? ==> !cfg.trustedLaunchEnabled && SupportsSecurityProfile(cfg.createOption))
    && ((cfg.securityType == Some(ConfidentialVMDiskEncryptedWithCustomerKey)) == (cfg.secureVmDiskEncryptionSetId != ""))
  }

  /** Every rule create enforces, stated together: create succeeds exactly
      when all of them hold. */
  predicate CreateAccepted(cfg: Config, changed: set<Field>, encryptionSetLookup: Lookup<Option<EncryptionType>>) {
    && PerformanceRulesHold(cfg, changed)
    && SourceRulesHold(cfg)
    && AccessRulesHold(cfg, changed, encryptionSetLookup)
    && SecurityRulesHold(cfg)
    && (cfg.onDemandBurstingEnabled ==> BurstingAllowed(cfg.storageAccountType, cfg.diskSizeGB))
  }

  /** The rule each sizing error reports as broken. */
  predicate SizingRejectionJustified(e: DiskError, cfg: Config, changed: set<Field>) {
    match e
    case PerformanceSettingsUnsupported =>
      !IsUltraOrPremiumV2(cfg.storageAccountType) && !(changed !! CreatePerformanceFields)
    case IopsReadOnlyRequiresSharedDisk =>
      IsUltraOrPremiumV2(cfg.storageAccountType) && cfg.diskIopsReadOnly != 0 && cfg.maxShares == 0
    case MbpsReadOnlyRequiresSharedDisk =>
      IsUltraOrPremiumV2(cfg.storageAccountType) && cfg.diskMbpsReadOnly != 0 && cfg.maxShares == 0
    case _ => false
  }

  /** The rule each source error reports as broken. */
  predicate SourceRejectionJustified(e: DiskError, cfg: Config) {
    match e
    case SourceUriRequired =>
      (cfg.createOption == Import || cfg.createOption == ImportSecure) && cfg.sourceUri == ""
    case StorageAccountIdRequired =>
      (cfg.createOption == Import || cfg.createOption == ImportSecure) && cfg.storageAccountId == ""
    case SourceResourceIdRequired =>
      (cfg.createOption == Copy || cfg.createOption == Restore) && cfg.sourceResourceId == ""
    case ImageReferenceRequired =>
      cfg.createOption == FromImage && cfg.imageReferenceId == "" && cfg.galleryImageReferenceId == ""
    case UploadSizeRequired =>
      cfg.createOption == Upload && cfg.uploadSizeBytes == 0
    case _ => false
  }

  /** The rule each encryption or access error reports as broken. */
  predicate EncryptionOrAccessRejectionJustified(e: DiskError, cfg: Config, changed: set<Field>,
                                                 encryptionSetLookup: Lookup<Option<EncryptionType>>) {
    match e
    case EncryptionSetLookupFailed(message) =>
      cfg.diskEncryptionSetId != "" && encryptionSetLookup == LookupFailed(message)
    case DiskAccessRequiresAllowPrivate =>
      DiskAccessIdField in changed && cfg.networkAccessPolicy != AllowPrivate && cfg.diskAccessId != ""
    case _ => false
  }

  /** The rule each tier or security error reports as broken. */
  predicate SecurityRejectionJustified(e: DiskError, cfg: Config) {
    match e
    case TierRequiresPremium =>
      cfg.tier != "" && !IsPremium(cfg.storageAccountType)
    case TrustedLaunchUnsupportedCreateOption =>
      cfg.trustedLaunchEnabled && !SupportsSecurityProfile(cfg.createOption)
    case SecurityTypeConflictsWithTrustedLaunch =>
      cfg.securityType.Some? && cfg.trustedLaunchEnabled
    case SecurityTypeUnsupportedCreateOption =>
      cfg.securityType.Some? && !SupportsSecurityProfile(cfg.createOption)
    case SecureVmEncryptionSetRequired =>
      cfg.securityType == Some(ConfidentialVMDiskEncryptedWithCustomerKey) && cfg.secureVmDiskEncryptionSetId == ""
    case SecureVmEncryptionSetRequiresCustomerKey =>
      cfg.secureVmDiskEncryptionSetId != "" && cfg.securityType != Some(ConfidentialVMDiskEncryptedWithCustomerKey)
    case _ => false
  }

  /** The rule each error of create reports as broken. */
  predicate CreateRejectionJustified(e: DiskError, cfg: Config, changed: set<Field>,
                                     encryptionSetLookup: Lookup<Option<EncryptionType>>) {
    || SizingRejectionJustified(e, cfg, changed)
    || SourceRejectionJustified(e, cfg)
    || EncryptionOrAccessRejectionJustified(e, cfg, changed, encryptionSetLookup)
    || SecurityRejectionJustified(e, cfg)
    || BurstingRejectionJustified(e, cfg)
  }

  /** The image reference create sends: `image_reference_id` wins when both are given. */
  function ImageReferenceFor(cfg: Config): Option<ImageDiskReference> {
    if cfg.createOption == FromImage && cfg.imageReferenceId != ""
    then Some(ImageDiskReference(Some(cfg.imageReferenceId)))
    else None
  }

  /** The gallery image reference create sends: only when no image reference is given. */
  function GalleryImageReferenceFor(cfg: Config): Option<ImageDiskReference> {
    if cfg.createOption == FromImage && cfg.imageReferenceId == "" && cfg.galleryImageReferenceId != ""
    then Some(ImageDiskReference(Some(cfg.galleryImageReferenceId)))
    else None
  }

  /** The security profile create sends. */
  function SecurityProfileFor(cfg: Config): Option<DiskSecurityProfile> {
    if cfg.trustedLaunchEnabled then
      Some(DiskSecurityProfile(Some(TrustedLaunch), None))
    else if cfg.securityType.Some? then
      Some(DiskSecurityProfile(cfg.securityType,
        if cfg.secureVmDiskEncryptionSetId != "" then Some(cfg.secureVmDiskEncryptionSetId) else None))
    else None
  }

  /** The encryption create sends: the platform key, unless a disk
      encryption set is named. */
  function EncryptionFor(cfg: Config, encryptionSetLookup: Lookup<Option<EncryptionType>>): Encryption
    requires cfg.diskEncryptionSetId != "" ==> encryptionSetLookup.Found?
  {
    if cfg.diskEncryptionSetId != ""
    then Encryption(encryptionSetLookup.value, Some(cfg.diskEncryptionSetId))
    else Encryption(Some(EncryptionAtRestWithPlatformKey), None)
  }

  function SomeIfNonZero(n: int): Option<int> {
    if n != 0 then Some(n) else None
  }

  function SomeIfNonEmpty(s: string): Option<string> {
    if s != "" then Some(s) else None
  }

  function InitialProperties(cfg: Config): DiskProperties {
    DiskProperties(
      CreationData(cfg.createOption, Some(cfg.performancePlusEnabled), None, None, None, None, None, None, None),
      Some(cfg.optimizedFrequentAttachEnabled),
      Some(cfg.osType),
      Some(Encryption(Some(EncryptionAtRestWithPlatformKey), None)),
      None, None, None, None, None, None, None, None, None, None, None, None, None, None)
  }

  /** Sizes, shares and the performance settings. */
  method ApplySizing(cfg: Config, changed: set<Field>, props: DiskProperties) returns (r: Result<DiskProperties>)
    ensures r.Ok? <==> PerformanceRulesHold(cfg, changed)
    ensures r.Err? ==> SizingRejectionJustified(r.error, cfg, changed)
    ensures r.Ok? ==> r.value == props.(
      diskSizeGB := if cfg.diskSizeGB != 0 then Some(cfg.diskSizeGB) else props.diskSizeGB,
      maxShares := if cfg.maxShares != 0 then Some(cfg.maxShares) else props.maxShares,
      diskIopsReadWrite := if DiskIopsReadWriteField in changed then Some(cfg.diskIopsReadWrite) else props.diskIopsReadWrite,
      diskMbpsReadWrite := if DiskMbpsReadWriteField in changed then Some(cfg.diskMbpsReadWrite) else props.diskMbpsReadWrite,
      diskIopsReadOnly :=
        if IsUltraOrPremiumV2(cfg.storageAccountType) && cfg.diskIopsReadOnly != 0
        then Some(cfg.diskIopsReadOnly) else props.diskIopsReadOnly,
      diskMbpsReadOnly :=
        if IsUltraOrPremiumV2(cfg.storageAccountType) && cfg.diskMbpsReadOnly != 0
        then Some(cfg.diskMbpsReadOnly) else props.diskMbpsReadOnly,
      creationData := props.creationData.(logicalSectorSize :=
        if IsUltraOrPremiumV2(cfg.storageAccountType) && cfg.logicalSectorSize != 0
        then Some(cfg.logicalSectorSize) else props.creationData.logicalSectorSize))
  {
    var storageAccountType := cfg.storageAccountType;
    var maxShares := cfg.maxShares;
    var props := props;
    var diskSizeGB := cfg.diskSizeGB;
    if diskSizeGB != 0 {
      props := props.(diskSizeGB := Some(diskSizeGB));
    }
    if maxShares != 0 {
      props := props.(maxShares := Some(maxShares));
    }

    if storageAccountType == UltraSSDLRS.Name() || storageAccountType == PremiumV2LRS.Name() {
      if DiskIopsReadWriteField in changed {
        props := props.(diskIopsReadWrite := Some(cfg.diskIopsReadWrite));
      }
      if DiskMbpsReadWriteField in changed {
        props := props.(diskMbpsReadWrite := Some(cfg.diskMbpsReadWrite));
      }
      if cfg.diskIopsReadOnly != 0 {
        if maxShares == 0 {
          return Err(IopsReadOnlyRequiresSharedDisk);
        }
        props := props.(diskIopsReadOnly := Some(cfg.diskIopsReadOnly));
      }
      if cfg.diskMbpsReadOnly != 0 {
        if maxShares == 0 {
          return Err(MbpsReadOnlyRequiresSharedDisk);
        }
        props := props.(diskMbpsReadOnly := Some(cfg.diskMbpsReadOnly));
      }
      if cfg.logicalSectorSize != 0 {
        props := props.(creationData := props.creationData.(logicalSectorSize := Some(cfg.logicalSectorSize)));
      }
    } else if DiskIopsReadWriteField in changed || DiskMbpsReadWriteField in changed
           || DiskIopsReadOnlyField in changed || DiskMbpsReadOnlyField in changed
           || LogicalSectorSizeField in changed {
      return Err(PerformanceSettingsUnsupported);
    }
    return Ok(props);
  }

  /** The source of the disk's content, as the create option asks for it. */
  method ApplySource(cfg: Config, props: DiskProperties) returns (r: Result<DiskProperties>)
    ensures r.Ok? <==> SourceRulesHold(cfg)
    ensures r.Err? ==> SourceRejectionJustified(r.error, cfg)
    ensures r.Ok? ==> r.value == props.(creationData := props.creationData.(
      storageAccountId := if cfg.createOption in {Import, ImportSecure} then Some(cfg.storageAccountId)
                          else props.creationData.storageAccountId,
      sourceUri := if cfg.createOption in {Import, ImportSecure} then Some(cfg.sourceUri)
                   else props.creationData.sourceUri,
      sourceResourceId := if cfg.createOption in {Copy, Restore} then Some(cfg.sourceResourceId)
                          else props.creationData.sourceResourceId,
      imageReference := if ImageReferenceFor(cfg).Some? then ImageReferenceFor(cfg)
                        else props.creationData.imageReference,
      galleryImageReference := if GalleryImageReferenceFor(cfg).Some? then GalleryImageReferenceFor(cfg)
                               else props.creationData.galleryImageReference,
      uploadSizeBytes := if cfg.createOption == Upload then Some(cfg.uploadSizeBytes)
                         else props.creationData.uploadSizeBytes))
  {
    var createOption := cfg.createOption;
    var props := props;
    if createOption == Import || createOption == ImportSecure {
      if cfg.sourceUri == "" {
        return Err(SourceUriRequired);
      }
      if cfg.storageAccountId == "" {
        return Err(StorageAccountIdRequired);
      }
      props := props.(creationData := props.creationData.(
        storageAccountId := Some(cfg.storageAccountId), sourceUri := Some(cfg.sourceUri)));
    }
    if createOption == Copy || createOption == Restore {
      if cfg.sourceResourceId == "" {
        return Err(SourceResourceIdRequired);
      }
      props := props.(creationData := props.creationData.(sourceResourceId := Some(cfg.sourceResourceId)));
    }
    if createOption == FromImage {
      if cfg.imageReferenceId != "" {
        props := props.(creationData := props.creationData.(
          imageReference := Some(ImageDiskReference(Some(cfg.imageReferenceId)))));
      } else if cfg.galleryImageReferenceId != "" {
        props := props.(creationData := props.creationData.(
          galleryImageReference := Some(ImageDiskReference(Some(cfg.galleryImageReferenceId)))));
      } else {
        return Err(ImageReferenceRequired);
      }
    }
    if createOption == Upload {
      if cfg.uploadSizeBytes != 0 {
        props := props.(creationData := props.creationData.(uploadSizeBytes := Some(cfg.uploadSizeBytes)));
      } else {
        return Err(UploadSizeRequired);
      }
    }
    return Ok(props);
  }

  /** Encryption settings, the disk encryption set and network access. */
  method ApplyEncryptionAndAccess(cfg: Config, changed: set<Field>,
                                  encryptionSetLookup: Lookup<Option<EncryptionType>>, props: DiskProperties)
    returns (r: Result<DiskProperties>)
    ensures r.Ok? <==> AccessRulesHold(cfg, changed, encryptionSetLookup)
    ensures r.Err? ==> EncryptionOrAccessRejectionJustified(r.error, cfg, changed, encryptionSetLookup)
    ensures r.Ok? ==> r.value == props.(
      encryptionSettingsCollection :=
        if cfg.encryptionSettings != [] then Some(cfg.encryptionSettings) else props.encryptionSettingsCollection,
      encryption := if cfg.diskEncryptionSetId != "" then Some(EncryptionFor(cfg, encryptionSetLookup))
                    else props.encryption,
      networkAccessPolicy := Some(cfg.networkAccessPolicy),
      diskAccessId := if DiskAccessIdField in changed then DiskAccessSwitch(cfg.networkAccessPolicy, cfg.diskAccessId).value
                      else props.diskAccessId,
      publicNetworkAccess := Some(if cfg.publicNetworkAccessEnabled then Enabled else Disabled))
  {
    var props := props;
    if |cfg.encryptionSettings| > 0 {
      props := props.(encryptionSettingsCollection := Some(cfg.encryptionSettings));
    }

    if cfg.diskEncryptionSetId != "" {
      match encryptionSetLookup
      case LookupFailed(message) =>
        return Err(EncryptionSetLookupFailed(message));
      case Found(encryptionType) =>
        props := props.(encryption := Some(Encryption(encryptionType, Some(cfg.diskEncryptionSetId))));
    }

    props := props.(networkAccessPolicy := Some(cfg.networkAccessPolicy));

    if DiskAccessIdField in changed {
      match DiskAccessSwitch(props.networkAccessPolicy.value, cfg.diskAccessId)
      case Err(e) =>
        return Err(e);
      case Ok(diskAccessId) =>
        props := props.(diskAccessId := diskAccessId);
    }

    if cfg.publicNetworkAccessEnabled {
      props := props.(publicNetworkAccess := Some(Enabled));
    } else {
      props := props.(publicNetworkAccess := Some(Disabled));
    }
    return Ok(props);
  }

  /** Tier, trusted launch and the confidential-VM security type. */
  method ApplyTierAndSecurity(cfg: Config, props: DiskProperties) returns (r: Result<DiskProperties>)
    requires props.securityProfile.None?
    ensures r.Ok? <==> SecurityRulesHold(cfg)
    ensures r.Err? ==> SecurityRejectionJustified(r.error, cfg)
    ensures r.Ok? ==> r.value == props.(
      tier := if cfg.tier != "" then Some(cfg.tier) else props.tier,
      securityProfile := SecurityProfileFor(cfg))
  {
    var createOption := cfg.createOption;
    var storageAccountType := cfg.storageAccountType;
    var props := props;
    if cfg.tier != "" {
      if storageAccountType != PremiumZRS.Name() && storageAccountType != PremiumLRS.Name() {
        return Err(TierRequiresPremium);
      }
      props := props.(tier := Some(cfg.tier));
    }

    if cfg.trustedLaunchEnabled {
      props := props.(securityProfile := Some(DiskSecurityProfile(Some(TrustedLaunch), None)));
      if !(createOption == FromImage || createOption == Import || createOption == ImportSecure) {
        return Err(TrustedLaunchUnsupportedCreateOption);
      }
    }

    var securityType := cfg.securityType;
    var secureVmDiskEncryptionSetId := cfg.secureVmDiskEncryptionSetId;
    if securityType.Some? {
      if cfg.trustedLaunchEnabled {
        return Err(SecurityTypeConflictsWithTrustedLaunch);
      }
      if !(createOption == FromImage || createOption == Import || createOption == ImportSecure) {
        return Err(SecurityTypeUnsupportedCreateOption);
      }
      if securityType == Some(ConfidentialVMDiskEncryptedWithCustomerKey) && secureVmDiskEncryptionSetId == "" {
        return Err(SecureVmEncryptionSetRequired);
      }
      props := props.(securityProfile := Some(DiskSecurityProfile(securityType, None)));
    }

    if secureVmDiskEncryptionSetId != "" {
      if securityType != Some(ConfidentialVMDiskEncryptedWithCustomerKey) {
        return Err(SecureVmEncryptionSetRequiresCustomerKey);
      }
      props := props.(securityProfile := Some(props.securityProfile.value.(
        secureVmDiskEncryptionSetId := Some(secureVmDiskEncryptionSetId))));
    }
    return Ok(props);
  }

  /** On-demand bursting and the Hyper-V generation. */
  method ApplyBursting(cfg: Config, props: DiskProperties) returns (r: Result<DiskProperties>)
    ensures r.Ok? <==> (cfg.onDemandBurstingEnabled ==> BurstingAllowed(cfg.storageAccountType, cfg.diskSizeGB))
    ensures r.Err? ==> BurstingRejectionJustified(r.error, cfg)
    ensures r.Ok? ==> r.value == props.(
      burstingEnabled := if cfg.onDemandBurstingEnabled then Some(true) else props.burstingEnabled,
      hyperVGeneration := if cfg.hyperVGeneration != "" then Some(cfg.hyperVGeneration) else props.hyperVGeneration)
  {
    var storageAccountType := cfg.storageAccountType;
    var diskSizeGB := cfg.diskSizeGB;
    var props := props;
    if cfg.onDemandBurstingEnabled {
      if !(storageAccountType == PremiumLRS.Name() || storageAccountType == PremiumZRS.Name()) {
        return Err(BurstingRequiresPremium);
      }
      if diskSizeGB != 0 && diskSizeGB <= 512 {
        return Err(BurstingRequiresLargerDisk);
      }
      props := props.(burstingEnabled := Some(true));
    }

    if cfg.hyperVGeneration != "" {
      props := props.(hyperVGeneration := Some(cfg.hyperVGeneration));
    }
    return Ok(props);
  }

  /** The properties create sends for an accepted configuration, stated
      field by field. */
  function CreatedProperties(cfg: Config, changed: set<Field>, encryptionSetLookup: Lookup<Option<EncryptionType>>)
    : DiskProperties
    requires cfg.diskEncryptionSetId != "" ==> encryptionSetLookup.Found?
  {
    var performance := IsUltraOrPremiumV2(cfg.storageAccountType);
    var imports := cfg.createOption == Import || cfg.createOption == ImportSecure;
    var copies := cfg.createOption == Copy || cfg.createOption == Restore;
    DiskProperties(
      creationData := CreationData(
        createOption := cfg.createOption,
        performancePlus := Some(cfg.performancePlusEnabled),
        logicalSectorSize := if performance then SomeIfNonZero(cfg.logicalSectorSize) else None,
        storageAccountId := if imports then Some(cfg.storageAccountId) else None,
        sourceUri := if imports then Some(cfg.sourceUri) else None,
        sourceResourceId := if copies then Some(cfg.sourceResourceId) else None,
        imageReference := ImageReferenceFor(cfg),
        galleryImageReference := GalleryImageReferenceFor(cfg),
        uploadSizeBytes := if cfg.createOption == Upload then Some(cfg.uploadSizeBytes) else None),
      optimizedForFrequentAttach := Some(cfg.optimizedFrequentAttachEnabled),
      osType := Some(cfg.osType),
      encryption := Some(EncryptionFor(cfg, encryptionSetLookup)),
      diskSizeGB := SomeIfNonZero(cfg.diskSizeGB),
      maxShares := SomeIfNonZero(cfg.maxShares),
      diskIopsReadWrite := if performance && DiskIopsReadWriteField in changed then Some(cfg.diskIopsReadWrite) else None,
      diskMbpsReadWrite := if performance && DiskMbpsReadWriteField in changed then Some(cfg.diskMbpsReadWrite) else None,
      diskIopsReadOnly := if performance then SomeIfNonZero(cfg.diskIopsReadOnly) else None,
      diskMbpsReadOnly := if performance then SomeIfNonZero(cfg.diskMbpsReadOnly) else None,
      encryptionSettingsCollection := if cfg.encryptionSettings != [] then Some(cfg.encryptionSettings) else None,
      networkAccessPolicy := Some(cfg.networkAccessPolicy),
      diskAccessId :=
        if DiskAccessIdField in changed && cfg.networkAccessPolicy == AllowPrivate then Some(cfg.diskAccessId) else None,
      publicNetworkAccess := Some(if cfg.publicNetworkAccessEnabled then Enabled else Disabled),
      tier := SomeIfNonEmpty(cfg.tier),
      securityProfile := SecurityProfileFor(cfg),
      burstingEnabled := if cfg.onDemandBurstingEnabled then Some(true) else None,
      hyperVGeneration := SomeIfNonEmpty(cfg.hyperVGeneration))
  }

  /** Create: `changed` is the set of fields for which `d.HasChange` holds;
      `encryptionSetLookup` is what looking up the named disk encryption set
      returns. The result is the request sent to the Disks API, or why none
      is sent. */
  method Create(cfg: Config, changed: set<Field>, encryptionSetLookup: Lookup<Option<EncryptionType>>)
    returns (r: Result<Disk>)
    ensures r.Ok? <==> CreateAccepted(cfg, changed, encryptionSetLookup)
    ensures r.Err? ==> CreateRejectionJustified(r.error, cfg, changed, encryptionSetLookup)
    ensures r.Ok? ==> r.value == Disk(cfg.name, cfg.edgeZone, cfg.location,
                                      CreatedProperties(cfg, changed, encryptionSetLookup),
                                      cfg.storageAccountType, cfg.tags,
                                      if cfg.zone != "" then Some([cfg.zone]) else None)
  {
    var props := InitialProperties(cfg);

    var sized := ApplySizing(cfg, changed, props);
    if sized.Err? {
      return Err(sized.error);
    }
    props := sized.value;

    var sourced := ApplySource(cfg, props);
    if sourced.Err? {
      return Err(sourced.error);
    }
    props := sourced.value;

    var accessed := ApplyEncryptionAndAccess(cfg, changed, encryptionSetLookup, props);
    if accessed.Err? {
      return Err(accessed.error);
    }
    props := accessed.value;

    var secured := ApplyTierAndSecurity(cfg, props);
    if secured.Err? {
      return Err(secured.error);
    }
    props := secured.value;

    var burst := ApplyBursting(cfg, props);
    if burst.Err? {
      return Err(burst.error);
    }
    props := burst.value;

    var zones := if cfg.zone != "" then Some([cfg.zone]) else None;
    r := Ok(Disk(cfg.name, cfg.edgeZone, cfg.location, props, cfg.storageAccountType, cfg.tags, zones));
  }

  /** Outside UltraSSD_LRS / PremiumV2_LRS an accepted disk names none of the
      performance fields, and the request carries none of them. */
  lemma PerformanceFieldsNeedUltraOrPremiumV2(cfg: Config, changed: set<Field>,
                                              encryptionSetLookup: Lookup<Option<EncryptionType>>)
    requires CreateAccepted(cfg, changed, encryptionSetLookup)
    requires !IsUltraOrPremiumV2(cfg.storageAccountType)
    ensures changed !! CreatePerformanceFields
    ensures var p := CreatedProperties(cfg, changed, encryptionSetLookup);
            p.diskIopsReadWrite.None? && p.diskMbpsReadWrite.None? &&
            p.diskIopsReadOnly.None? && p.diskMbpsReadOnly.None? &&
            p.creationData.logicalSectorSize.None?
  {
  }

  /** The read-only IOPS / MBps limits are sent only for a shared disk, and
      then with exactly the configured value; on UltraSSD_LRS / PremiumV2_LRS
      a configured limit is always sent. */
  lemma ReadOnlyLimitsNeedSharedDisk(cfg: Config, changed: set<Field>,
                                     encryptionSetLookup: Lookup<Option<EncryptionType>>)
    requires CreateAccepted(cfg, changed, encryptionSetLookup)
    ensures var p := CreatedProperties(cfg, changed, encryptionSetLookup);
            && (p.diskIopsReadOnly.Some? ==> p.maxShares == Some(cfg.maxShares) && cfg.maxShares != 0
                                             && p.diskIopsReadOnly.value == cfg.diskIopsReadOnly)
            && (p.diskMbpsReadOnly.Some? ==> p.maxShares == Some(cfg.maxShares) && cfg.maxShares != 0
                                             && p.diskMbpsReadOnly.value == cfg.diskMbpsReadOnly)
            && (IsUltraOrPremiumV2(cfg.storageAccountType) && cfg.diskIopsReadOnly != 0 ==>
                  p.diskIopsReadOnly == Some(cfg.diskIopsReadOnly))
            && (IsUltraOrPremiumV2(cfg.storageAccountType) && cfg.diskMbpsReadOnly != 0 ==>
                  p.diskMbpsReadOnly == Some(cfg.diskMbpsReadOnly))
  {
  }

  /** An imported disk carries its (non-empty) source URI and storage
      account; a copied or restored disk its source resource; an uploaded
      disk its (non-zero) upload size. No source field is sent for another
      create option. */
  lemma SourceFieldsFollowCreateOption(cfg: Config, changed: set<Field>,
                                       encryptionSetLookup: Lookup<Option<EncryptionType>>)
    requires CreateAccepted(cfg, changed, encryptionSetLookup)
    ensures var c := CreatedProperties(cfg, changed, encryptionSetLookup).creationData;
            && c.createOption == cfg.createOption
            && ((cfg.createOption == Import || cfg.createOption == ImportSecure) <==>
                  c.sourceUri == Some(cfg.sourceUri) && cfg.sourceUri != "")
            && ((cfg.createOption == Import || cfg.createOption == ImportSecure) <==>
                  c.storageAccountId == Some(cfg.storageAccountId) && cfg.storageAccountId != "")
            && (c.sourceUri.Some? <==> c.storageAccountId.Some?)
            && ((cfg.createOption == Copy || cfg.createOption == Restore) <==>
                  c.sourceResourceId == Some(cfg.sourceResourceId) && cfg.sourceResourceId != "")
            && (cfg.createOption == Upload <==> c.uploadSizeBytes == Some(cfg.uploadSizeBytes) && cfg.uploadSizeBytes != 0)
  {
  }

  /** A disk created from an image carries exactly one image reference:
      `image_reference_id` when it is given, otherwise the gallery image. */
  lemma ImageReferenceWins(cfg: Config, changed: set<Field>, encryptionSetLookup: Lookup<Option<EncryptionType>>)
    requires CreateAccepted(cfg, changed, encryptionSetLookup)
    ensures var c := CreatedProperties(cfg, changed, encryptionSetLookup).creationData;
            && (c.imageReference.Some? || c.galleryImageReference.Some? <==> cfg.createOption == FromImage)
            && !(c.imageReference.Some? && c.galleryImageReference.Some?)
            && (cfg.createOption == FromImage && cfg.imageReferenceId != "" ==>
                  c.imageReference == Some(ImageDiskReference(Some(cfg.imageReferenceId))))
            && (cfg.createOption == FromImage && cfg.imageReferenceId == "" ==>
                  c.galleryImageReference == Some(ImageDiskReference(Some(cfg.galleryImageReferenceId))))
  {
  }

  /** A tier is sent only on a Premium disk, and then as configured. */
  lemma TierOnlyOnPremium(cfg: Config, changed: set<Field>, encryptionSetLookup: Lookup<Option<EncryptionType>>)
    requires CreateAccepted(cfg, changed, encryptionSetLookup)
    ensures var p := CreatedProperties(cfg, changed, encryptionSetLookup);
            p.tier.Some? ==> IsPremium(cfg.storageAccountType) && p.tier.value == cfg.tier
  {
  }

  /** Trusted launch and `security_type` never reach the request together;
      a security profile is sent only for an image-carrying create option;
      the secure VM disk encryption set is sent exactly for the
      customer-key confidential type. */
  lemma SecurityProfileRules(cfg: Config, changed: set<Field>, encryptionSetLookup: Lookup<Option<EncryptionType>>)
    requires CreateAccepted(cfg, changed, encryptionSetLookup)
    ensures var sp := CreatedProperties(cfg, changed, encryptionSetLookup).securityProfile;
            && (sp.Some? <==> cfg.trustedLaunchEnabled || cfg.securityType.Some?)
            && (sp.Some? ==> SupportsSecurityProfile(cfg.createOption))
            && (cfg.trustedLaunchEnabled ==> sp == Some(DiskSecurityProfile(Some(TrustedLaunch), None)))
            && (cfg.securityType.Some? ==> sp.value.securityType == cfg.securityType)
            && ((sp.Some? && sp.value.secureVmDiskEncryptionSetId.Some?) <==>
                  cfg.securityType == Some(ConfidentialVMDiskEncryptedWithCustomerKey))
            && (sp.Some? && sp.value.secureVmDiskEncryptionSetId.Some? ==>
                  sp.value.secureVmDiskEncryptionSetId.value == cfg.secureVmDiskEncryptionSetId)
  {
  }

  /** Trusted launch together with `security_type` is refused, whatever else
      is configured. */
  lemma TrustedLaunchExcludesSecurityType(cfg: Config, changed: set<Field>,
                                          encryptionSetLookup: Lookup<Option<EncryptionType>>)
    requires cfg.trustedLaunchEnabled && cfg.securityType.Some?
    ensures !CreateAccepted(cfg, changed, encryptionSetLookup)
    ensures CreateRejectionJustified(SecurityTypeConflictsWithTrustedLaunch, cfg, changed, encryptionSetLookup)
  {
  }

  /** Bursting is sent (as true) exactly when it is enabled, and only on a
      Premium disk that is unsized or larger than 512 GB. */
  lemma BurstingOnlyWhenAllowed(cfg: Config, changed: set<Field>, encryptionSetLookup: Lookup<Option<EncryptionType>>)
    requires CreateAccepted(cfg, changed, encryptionSetLookup)
    ensures var b := CreatedProperties(cfg, changed, encryptionSetLookup).burstingEnabled;
            && (b == Some(true) <==> cfg.onDemandBurstingEnabled)
            && (b.Some? ==> b == Some(true) && BurstingAllowed(cfg.storageAccountType, cfg.diskSizeGB))
  {
  }
}
