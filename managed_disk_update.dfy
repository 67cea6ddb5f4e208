/** Updating a managed disk in place: the fields that changed are checked and
    copied into a patch, and the resource decides whether the virtual machine
    the disk is attached to must be shut down while the patch is applied. */
module ManagedDiskUpdate {
  import opened DiskApi
  import opened SkuResolution
  import opened DiskRules

  /** What the update learns from outside the configuration: the disk's
      current attachment (`ManagedBy`), the provider feature that allows
      resizing without downtime, and the answers of the helpers that ask the
      cloud whether the disk and its virtual machine support that, and which
      encryption type a disk encryption set uses. */
  datatype UpdateContext = UpdateContext(
    managedBy: Option<string>,
    expandWithoutDowntime: bool,
    requiresDetaching: bool,
    diskSupportsNoDowntimeResize: bool,
    vmSupportsNoDowntimeResize: Lookup<bool>,
    encryptionSetLookup: Lookup<Option<EncryptionType>>)

  /** The patch together with the two decisions taken on the way. */
  datatype UpdatePlan = UpdatePlan(update: DiskUpdate, shouldShutDown: bool, shouldDetach: bool)

  /** A growth can be applied while the virtual machine keeps running. */
  predicate ResizableWithoutDowntime(ctx: UpdateContext) {
    ctx.expandWithoutDowntime && ctx.vmSupportsNoDowntimeResize == Found(true) && ctx.diskSupportsNoDowntimeResize
  }

  /** The storage type gates the IOPS / MBps fields. */
  predicate PerformanceChangeAllowed(cfg: Config, changed: set<Field>) {
    if IsUltraOrPremiumV2OnUpdate(cfg.storageAccountType) then
      (DiskIopsReadOnlyField in changed ==> cfg.maxShares != 0) &&
      (DiskMbpsReadOnlyField in changed ==> cfg.maxShares != 0)
    else changed !! UpdatePerformanceFields
  }

  /** A disk only grows, and the no-downtime check must answer when it is asked. */
  predicate ResizeAllowed(prior: Config, cfg: Config, changed: set<Field>, ctx: UpdateContext) {
    DiskSizeGBField in changed ==>
      cfg.diskSizeGB > prior.diskSizeGB &&
      (ctx.expandWithoutDowntime ==> ctx.vmSupportsNoDowntimeResize.Found?)
  }

  /** A disk encryption set may be replaced but not removed. */
  predicate EncryptionChangeAllowed(cfg: Config, changed: set<Field>, ctx: UpdateContext) {
    DiskEncryptionSetIdField in changed ==> cfg.diskEncryptionSetId != "" && ctx.encryptionSetLookup.Found?
  }

  /** Every rule update enforces: update succeeds exactly when all of them hold. */
  predicate UpdateAccepted(prior: Config, cfg: Config, changed: set<Field>, ctx: UpdateContext) {
    && (TierField in changed ==> IsPremium(cfg.storageAccountType))
    && PerformanceChangeAllowed(cfg, changed)
    && ResizeAllowed(prior, cfg, changed, ctx)
    && EncryptionChangeAllowed(cfg, changed, ctx)
    && (DiskAccessIdField in changed ==> DiskAccessSwitch(cfg.networkAccessPolicy, cfg.diskAccessId).Ok?)
    && (cfg.onDemandBurstingEnabled ==> BurstingAllowed(cfg.storageAccountType, cfg.diskSizeGB))
  }

  /** The rule a tier error reports as broken. */
  predicate TierRejectionJustified(e: DiskError, cfg: Config, changed: set<Field>) {
    match e
    case TierRequiresPremium =>
      TierField in changed && !IsPremium(cfg.storageAccountType)
    case _ => false
  }

  /** The rule each performance error reports as broken. */
  predicate PerformanceRejectionJustified(e: DiskError, cfg: Config, changed: set<Field>) {
    match e
    case PerformanceSettingsUnsupported =>
      !IsUltraOrPremiumV2OnUpdate(cfg.storageAccountType) && !(changed !! UpdatePerformanceFields)
    case IopsReadOnlyRequiresSharedDisk =>
      IsUltraOrPremiumV2OnUpdate(cfg.storageAccountType) && DiskIopsReadOnlyField in changed && cfg.maxShares == 0
    case MbpsReadOnlyRequiresSharedDisk =>
      IsUltraOrPremiumV2OnUpdate(cfg.storageAccountType) && DiskMbpsReadOnlyField in changed && cfg.maxShares == 0
    case _ => false
  }

  /** The rule each resize error reports as broken. */
  predicate ResizeRejectionJustified(e: DiskError, prior: Config, cfg: Config, changed: set<Field>, ctx: UpdateContext) {
    match e
    case ShrinkNotSupported =>
      DiskSizeGBField in changed && cfg.diskSizeGB <= prior.diskSizeGB
    case NoDowntimeResizeCheckFailed(message) =>
      DiskSizeGBField in changed && ctx.expandWithoutDowntime && ctx.vmSupportsNoDowntimeResize == LookupFailed(message)
    case _ => false
  }

  /** The rule each encryption error reports as broken. */
  predicate EncryptionRejectionJustified(e: DiskError, cfg: Config, changed: set<Field>, ctx: UpdateContext) {
    match e
    case EncryptionSetLookupFailed(message) =>
      DiskEncryptionSetIdField in changed && ctx.encryptionSetLookup == LookupFailed(message)
    case CustomerKeyCannotBeRemoved =>
      DiskEncryptionSetIdField in changed && cfg.diskEncryptionSetId == ""
    case _ => false
  }

  /** The rule a disk access error reports as broken. */
  predicate DiskAccessRejectionJustified(e: DiskError, cfg: Config, changed: set<Field>) {
    match e
    case DiskAccessRequiresAllowPrivate =>
      DiskAccessIdField in changed && cfg.networkAccessPolicy != AllowPrivate && cfg.diskAccessId != ""
    case _ => false
  }

  /** The rule each error of update reports as broken. */
  predicate UpdateRejectionJustified(e: DiskError, prior: Config, cfg: Config, changed: set<Field>, ctx: UpdateContext) {
    || TierRejectionJustified(e, cfg, changed)
    || PerformanceRejectionJustified(e, cfg, changed)
    || ResizeRejectionJustified(e, prior, cfg, changed, ctx)
    || EncryptionRejectionJustified(e, cfg, changed, ctx)
    || DiskAccessRejectionJustified(e, cfg, changed)
    || BurstingRejectionJustified(e, cfg)
  }

  /** The changes for which the virtual machine must be shut down, were the
      disk attached to one. */
  predicate ShutdownRequired(cfg: Config, changed: set<Field>, ctx: UpdateContext) {
    || TierField in changed
    || StorageAccountTypeField in changed
    || (DiskSizeGBField in changed && !ResizableWithoutDowntime(ctx))
    || DiskEncryptionSetIdField in changed
    || OnDemandBurstingEnabledField in changed
  }

  /** The network access policy the patch carries: only a changed one. */
  function PlannedNetworkAccessPolicy(cfg: Config, changed: set<Field>): Option<NetworkAccessPolicy> {
    if NetworkAccessPolicyField in changed then Some(cfg.networkAccessPolicy) else None
  }

  /** The patch update sends for an accepted change, stated field by field:
      a field is in the patch only if it changed. */
  function PlannedUpdate(cfg: Config, changed: set<Field>, ctx: UpdateContext): DiskUpdate
    requires DiskEncryptionSetIdField in changed ==> ctx.encryptionSetLookup.Found?
  {
    var performance := IsUltraOrPremiumV2OnUpdate(cfg.storageAccountType);
    DiskUpdate(
      properties := DiskUpdateProperties(
        maxShares := if MaxSharesField in changed then Some(cfg.maxShares) else None,
        tier := if TierField in changed then Some(cfg.tier) else None,
        diskIopsReadWrite :=
          if performance && DiskIopsReadWriteField in changed then Some(cfg.diskIopsReadWrite) else None,
        diskMbpsReadWrite :=
          if performance && DiskMbpsReadWriteField in changed then Some(cfg.diskMbpsReadWrite) else None,
        diskIopsReadOnly :=
          if performance && DiskIopsReadOnlyField in changed then Some(cfg.diskIopsReadOnly) else None,
        diskMbpsReadOnly :=
          if performance && DiskMbpsReadOnlyField in changed then Some(cfg.diskMbpsReadOnly) else None,
        optimizedForFrequentAttach :=
          if OptimizedFrequentAttachEnabledField in changed then Some(cfg.optimizedFrequentAttachEnabled) else None,
        osType := if OsTypeField in changed then Some(cfg.osType) else None,
        diskSizeGB := if DiskSizeGBField in changed then Some(cfg.diskSizeGB) else None,
        encryptionSettingsCollection :=
          if EncryptionSettingsField in changed then Some(cfg.encryptionSettings) else None,
        encryption :=
          if DiskEncryptionSetIdField in changed
          then Some(Encryption(ctx.encryptionSetLookup.value, Some(cfg.diskEncryptionSetId)))
          else None,
        networkAccessPolicy := PlannedNetworkAccessPolicy(cfg, changed),
        diskAccessId :=
          if DiskAccessIdField in changed && cfg.networkAccessPolicy == AllowPrivate
          then Some(cfg.diskAccessId) else None,
        publicNetworkAccess :=
          if PublicNetworkAccessEnabledField in changed
          then Some(if cfg.publicNetworkAccessEnabled then Enabled else Disabled)
          else None,
        burstingEnabled :=
          if OnDemandBurstingEnabledField in changed then Some(cfg.onDemandBurstingEnabled) else None),
      skuName :=
        if MaxSharesField in changed || StorageAccountTypeField in changed
        then Some(LastFoldMatch(cfg.storageAccountType, PossibleStorageTypeNames()))
        else None,
      tags := if TagsField in changed then Some(cfg.tags) else None)
  }

  function SetProperties(plan: UpdatePlan, properties: DiskUpdateProperties): UpdatePlan {
    plan.(update := plan.update.(properties := properties))
  }

  function AfterSkuAndTier(cfg: Config, changed: set<Field>, plan: UpdatePlan): UpdatePlan
  {
    UpdatePlan(
      plan.update.(
        properties := plan.update.properties.(
          maxShares := if MaxSharesField in changed then Some(cfg.maxShares) else plan.update.properties.maxShares,
          tier := if TierField in changed then Some(cfg.tier) else plan.update.properties.tier),
        skuName :=
          if MaxSharesField in changed || StorageAccountTypeField in changed
          then Some(LastFoldMatch(cfg.storageAccountType, PossibleStorageTypeNames()))
          else plan.update.skuName,
        tags := if TagsField in changed then Some(cfg.tags) else plan.update.tags),
      plan.shouldShutDown || TierField in changed || StorageAccountTypeField in changed,
      plan.shouldDetach)
  }

  function AfterPerformance(cfg: Config, changed: set<Field>, plan: UpdatePlan): UpdatePlan
  {
    SetProperties(plan, plan.update.properties.(
      diskIopsReadWrite := if DiskIopsReadWriteField in changed then Some(cfg.diskIopsReadWrite)
                           else plan.update.properties.diskIopsReadWrite,
      diskMbpsReadWrite := if DiskMbpsReadWriteField in changed then Some(cfg.diskMbpsReadWrite)
                           else plan.update.properties.diskMbpsReadWrite,
      diskIopsReadOnly := if DiskIopsReadOnlyField in changed then Some(cfg.diskIopsReadOnly)
                          else plan.update.properties.diskIopsReadOnly,
      diskMbpsReadOnly := if DiskMbpsReadOnlyField in changed then Some(cfg.diskMbpsReadOnly)
                          else plan.update.properties.diskMbpsReadOnly,
      optimizedForFrequentAttach :=
        if OptimizedFrequentAttachEnabledField in changed then Some(cfg.optimizedFrequentAttachEnabled)
        else plan.update.properties.optimizedForFrequentAttach,
      osType := if OsTypeField in changed then Some(cfg.osType) else plan.update.properties.osType))
  }

  function AfterResize(cfg: Config, changed: set<Field>, ctx: UpdateContext, plan: UpdatePlan): UpdatePlan
  {
    UpdatePlan(
      plan.update.(properties := plan.update.properties.(
        diskSizeGB := if DiskSizeGBField in changed then Some(cfg.diskSizeGB) else plan.update.properties.diskSizeGB)),
      plan.shouldShutDown || (DiskSizeGBField in changed && !ResizableWithoutDowntime(ctx)),
      if DiskSizeGBField in changed && ctx.expandWithoutDowntime then ctx.requiresDetaching else plan.shouldDetach)
  }

  function AfterEncryption(cfg: Config, changed: set<Field>, ctx: UpdateContext, plan: UpdatePlan): UpdatePlan
    requires DiskEncryptionSetIdField in changed ==> ctx.encryptionSetLookup.Found?
  {
    UpdatePlan(
      plan.update.(properties := plan.update.properties.(
        encryptionSettingsCollection := if EncryptionSettingsField in changed then Some(cfg.encryptionSettings)
                                        else plan.update.properties.encryptionSettingsCollection,
        encryption := if DiskEncryptionSetIdField in changed
                      then Some(Encryption(ctx.encryptionSetLookup.value, Some(cfg.diskEncryptionSetId)))
                      else plan.update.properties.encryption)),
      plan.shouldShutDown || DiskEncryptionSetIdField in changed,
      plan.shouldDetach)
  }

  function AfterNetworkAccess(cfg: Config, changed: set<Field>, plan: UpdatePlan): UpdatePlan
  {
    SetProperties(plan, plan.update.properties.(
      networkAccessPolicy := if NetworkAccessPolicyField in changed then Some(cfg.networkAccessPolicy)
                             else plan.update.properties.networkAccessPolicy,
      diskAccessId := if DiskAccessIdField in changed
                      then (if cfg.networkAccessPolicy == AllowPrivate then Some(cfg.diskAccessId) else None)
                      else plan.update.properties.diskAccessId,
      publicNetworkAccess :=
        if PublicNetworkAccessEnabledField in changed
        then Some(if cfg.publicNetworkAccessEnabled then Enabled else Disabled)
        else plan.update.properties.publicNetworkAccess))
  }

  function AfterBursting(cfg: Config, changed: set<Field>, plan: UpdatePlan): UpdatePlan
  {
    UpdatePlan(
      plan.update.(properties := plan.update.properties.(
        burstingEnabled := if OnDemandBurstingEnabledField in changed then Some(cfg.onDemandBurstingEnabled)
                           else plan.update.properties.burstingEnabled)),
      plan.shouldShutDown || OnDemandBurstingEnabledField in changed,
      plan.shouldDetach)
  }

  /** The plan the six steps of update build, one after the other, from an
      empty patch. */
  function PhasedPlan(cfg: Config, changed: set<Field>, ctx: UpdateContext): UpdatePlan
    requires DiskEncryptionSetIdField in changed ==> ctx.encryptionSetLookup.Found?
  {
    var afterSku := AfterSkuAndTier(cfg, changed, UpdatePlan(EmptyDiskUpdate, false, false));
    var afterResize := AfterResize(cfg, changed, ctx, AfterPerformance(cfg, changed, afterSku));
    AfterBursting(cfg, changed, AfterNetworkAccess(cfg, changed, AfterEncryption(cfg, changed, ctx, afterResize)))
  }

  /** For an accepted change the steps build exactly the planned patch, ask
      for a shutdown exactly on the changes that need one, and ask for a
      detach only around a resize without downtime. */
  lemma PhasedPlanIsPlanned(prior: Config, cfg: Config, changed: set<Field>, ctx: UpdateContext)
    requires UpdateAccepted(prior, cfg, changed, ctx)
    ensures PhasedPlan(cfg, changed, ctx).update == PlannedUpdate(cfg, changed, ctx)
    ensures PhasedPlan(cfg, changed, ctx).shouldShutDown == ShutdownRequired(cfg, changed, ctx)
    ensures PhasedPlan(cfg, changed, ctx).shouldDetach <==>
              DiskSizeGBField in changed && ctx.expandWithoutDowntime && ctx.requiresDetaching
  {
  }

  /** Shares, tier, tags and the SKU; a tier or SKU change asks for a shutdown. */
  method PlanSkuAndTier(cfg: Config, changed: set<Field>, plan: UpdatePlan) returns (r: Result<UpdatePlan>)
    ensures r.Ok? <==> (TierField in changed ==> IsPremium(cfg.storageAccountType))
    ensures r.Err? ==> TierRejectionJustified(r.error, cfg, changed)
    ensures r.Ok? ==> r.value == AfterSkuAndTier(cfg, changed, plan)
  {
    var storageAccountType := cfg.storageAccountType;
    var update := plan.update;
    var shouldShutDown := plan.shouldShutDown;

    if MaxSharesField in changed {
      update := update.(properties := update.properties.(maxShares := Some(cfg.maxShares)));
      var skuName := ResolveSkuName(storageAccountType);
      update := update.(skuName := Some(skuName));
    }

    if TierField in changed {
      if storageAccountType != PremiumZRS.Name() && storageAccountType != PremiumLRS.Name() {
        return Err(TierRequiresPremium);
      }
      shouldShutDown := true;
      update := update.(properties := update.properties.(tier := Some(cfg.tier)));
    }

    if TagsField in changed {
      update := update.(tags := Some(cfg.tags));
    }

    if StorageAccountTypeField in changed {
      shouldShutDown := true;
      var skuName := ResolveSkuName(storageAccountType);
      update := update.(skuName := Some(skuName));
    }
    return Ok(UpdatePlan(update, shouldShutDown, plan.shouldDetach));
  }

  /** The IOPS / MBps fields, then the attach optimisation and the OS type. */
  method PlanPerformance(cfg: Config, changed: set<Field>, plan: UpdatePlan) returns (r: Result<UpdatePlan>)
    ensures r.Ok? <==> PerformanceChangeAllowed(cfg, changed)
    ensures r.Err? ==> PerformanceRejectionJustified(r.error, cfg, changed)
    ensures r.Ok? ==> r.value == AfterPerformance(cfg, changed, plan)
  {
    var storageAccountType := cfg.storageAccountType;
    var maxShares := cfg.maxShares;
    var props := plan.update.properties;
    if EqualFold(storageAccountType, UltraSSDLRS.Name()) || storageAccountType == PremiumV2LRS.Name() {
      if DiskIopsReadWriteField in changed {
        props := props.(diskIopsReadWrite := Some(cfg.diskIopsReadWrite));
      }
      if DiskMbpsReadWriteField in changed {
        props := props.(diskMbpsReadWrite := Some(cfg.diskMbpsReadWrite));
      }
      if DiskIopsReadOnlyField in changed {
        if maxShares == 0 {
          return Err(IopsReadOnlyRequiresSharedDisk);
        }
        props := props.(diskIopsReadOnly := Some(cfg.diskIopsReadOnly));
      }
      if DiskMbpsReadOnlyField in changed {
        if maxShares == 0 {
          return Err(MbpsReadOnlyRequiresSharedDisk);
        }
        props := props.(diskMbpsReadOnly := Some(cfg.diskMbpsReadOnly));
      }
    } else if DiskIopsReadWriteField in changed || DiskMbpsReadWriteField in changed
           || DiskIopsReadOnlyField in changed || DiskMbpsReadOnlyField in changed {
      return Err(PerformanceSettingsUnsupported);
    }

    if OptimizedFrequentAttachEnabledField in changed {
      props := props.(optimizedForFrequentAttach := Some(cfg.optimizedFrequentAttachEnabled));
    }

    if OsTypeField in changed {
      props := props.(osType := Some(cfg.osType));
    }
    return Ok(SetProperties(plan, props));
  }

  /** A size change: growth only, with a shutdown unless the disk and its
      virtual machine can be resized while running. */
  method PlanResize(prior: Config, cfg: Config, changed: set<Field>, ctx: UpdateContext, plan: UpdatePlan)
    returns (r: Result<UpdatePlan>)
    ensures r.Ok? <==> ResizeAllowed(prior, cfg, changed, ctx)
    ensures r.Err? ==> ResizeRejectionJustified(r.error, prior, cfg, changed, ctx)
    ensures r.Ok? ==> r.value == AfterResize(cfg, changed, ctx, plan)
  {
    var shouldShutDown := plan.shouldShutDown;
    var shouldDetach := plan.shouldDetach;
    var update := plan.update;
    if DiskSizeGBField in changed {
      var oldSize, newSize := prior.diskSizeGB, cfg.diskSizeGB;
      if newSize > oldSize {
        var canBeResizedWithoutDowntime := false;
        if ctx.expandWithoutDowntime {
          shouldDetach := ctx.requiresDetaching;
          var diskSupportsNoDowntimeResize := ctx.diskSupportsNoDowntimeResize;
          match ctx.vmSupportsNoDowntimeResize
          case LookupFailed(message) =>
            return Err(NoDowntimeResizeCheckFailed(message));
          case Found(vmSupportsNoDowntimeResize) =>
            canBeResizedWithoutDowntime := vmSupportsNoDowntimeResize && diskSupportsNoDowntimeResize;
        }
        if !canBeResizedWithoutDowntime {
          shouldShutDown := true;
        }
        update := update.(properties := update.properties.(diskSizeGB := Some(newSize)));
      } else {
        return Err(ShrinkNotSupported);
      }
    }
    return Ok(UpdatePlan(update, shouldShutDown, shouldDetach));
  }

  /** Encryption settings and the disk encryption set; changing the set asks
      for a shutdown. */
  method PlanEncryption(cfg: Config, changed: set<Field>, ctx: UpdateContext, plan: UpdatePlan)
    returns (r: Result<UpdatePlan>)
    ensures r.Ok? <==> EncryptionChangeAllowed(cfg, changed, ctx)
    ensures r.Err? ==> EncryptionRejectionJustified(r.error, cfg, changed, ctx)
    ensures r.Ok? ==> r.value == AfterEncryption(cfg, changed, ctx, plan)
  {
    var shouldShutDown := plan.shouldShutDown;
    var props := plan.update.properties;
    if EncryptionSettingsField in changed {
      props := props.(encryptionSettingsCollection := Some(cfg.encryptionSettings));
    }

    if DiskEncryptionSetIdField in changed {
      shouldShutDown := true;
      if cfg.diskEncryptionSetId != "" {
        match ctx.encryptionSetLookup
        case LookupFailed(message) =>
          return Err(EncryptionSetLookupFailed(message));
        case Found(encryptionType) =>
          props := props.(encryption := Some(Encryption(encryptionType, Some(cfg.diskEncryptionSetId))));
      } else {
        return Err(CustomerKeyCannotBeRemoved);
      }
    }
    return Ok(UpdatePlan(plan.update.(properties := props), shouldShutDown, plan.shouldDetach));
  }

  /** Network access policy, disk access and public network access. */
  method PlanNetworkAccess(cfg: Config, changed: set<Field>, plan: UpdatePlan) returns (r: Result<UpdatePlan>)
    ensures r.Ok? <==> (DiskAccessIdField in changed ==> DiskAccessSwitch(cfg.networkAccessPolicy, cfg.diskAccessId).Ok?)
    ensures r.Err? ==> DiskAccessRejectionJustified(r.error, cfg, changed)
    ensures r.Ok? ==> r.value == AfterNetworkAccess(cfg, changed, plan)
  {
    var props := plan.update.properties;
    if NetworkAccessPolicyField in changed {
      props := props.(networkAccessPolicy := Some(cfg.networkAccessPolicy));
    }

    if DiskAccessIdField in changed {
      match DiskAccessSwitch(cfg.networkAccessPolicy, cfg.diskAccessId)
      case Err(e) =>
        return Err(e);
      case Ok(diskAccessId) =>
        props := props.(diskAccessId := diskAccessId);
    }

    if PublicNetworkAccessEnabledField in changed {
      if cfg.publicNetworkAccessEnabled {
        props := props.(publicNetworkAccess := Some(Enabled));
      } else {
        props := props.(publicNetworkAccess := Some(Disabled));
      }
    }
    return Ok(SetProperties(plan, props));
  }

  /** On-demand bursting: checked whenever it is on, sent (with a shutdown)
      when it changed. */
  method PlanBursting(cfg: Config, changed: set<Field>, plan: UpdatePlan) returns (r: Result<UpdatePlan>)
    ensures r.Ok? <==> (cfg.onDemandBurstingEnabled ==> BurstingAllowed(cfg.storageAccountType, cfg.diskSizeGB))
    ensures r.Err? ==> BurstingRejectionJustified(r.error, cfg)
    ensures r.Ok? ==> r.value == AfterBursting(cfg, changed, plan)
  {
    var storageAccountType := cfg.storageAccountType;
    var diskSizeGB := cfg.diskSizeGB;
    var onDemandBurstingEnabled := cfg.onDemandBurstingEnabled;
    var shouldShutDown := plan.shouldShutDown;
    var update := plan.update;
    if onDemandBurstingEnabled {
      if !(storageAccountType == PremiumLRS.Name() || storageAccountType == PremiumZRS.Name()) {
        return Err(BurstingRequiresPremium);
      }
      if diskSizeGB != 0 && diskSizeGB <= 512 {
        return Err(BurstingRequiresLargerDisk);
      }
    }

    if OnDemandBurstingEnabledField in changed {
      shouldShutDown := true;
      update := update.(properties := update.properties.(burstingEnabled := Some(onDemandBurstingEnabled)));
    }
    return Ok(UpdatePlan(update, shouldShutDown, plan.shouldDetach));
  }

  /** Update: `prior` is the configuration before the change (only its
      `disk_size_gb` is read, as the old side of the size change), `cfg` the
      configuration after it, and `changed` the set of fields for which
      `d.HasChange` holds. The result is the patch and whether to apply it
      with the virtual machine shut down (and the disk detached), or why the
      change is refused. The disk-access step reads the configured network
      access policy; see DiskRules.DiskAccessStepAsWritten for the step as
      the source writes it. */
  method Update(prior: Config, cfg: Config, changed: set<Field>, ctx: UpdateContext) returns (r: Result<UpdatePlan>)
    ensures r.Ok? <==> UpdateAccepted(prior, cfg, changed, ctx)
    ensures r.Err? ==> UpdateRejectionJustified(r.error, prior, cfg, changed, ctx)
    ensures r.Ok? ==> r.value.update == PlannedUpdate(cfg, changed, ctx)
    ensures r.Ok? ==> (r.value.shouldShutDown <==> ctx.managedBy.Some? && ShutdownRequired(cfg, changed, ctx))
    ensures r.Ok? ==> (r.value.shouldDetach <==>
                        DiskSizeGBField in changed && ctx.expandWithoutDowntime && ctx.requiresDetaching)
  {
    var plan := UpdatePlan(EmptyDiskUpdate, false, false);

    var step := PlanSkuAndTier(cfg, changed, plan);
    if step.Err? {
      return Err(step.error);
    }
    step := PlanPerformance(cfg, changed, step.value);
    if step.Err? {
      return Err(step.error);
    }
    step := PlanResize(prior, cfg, changed, ctx, step.value);
    if step.Err? {
      return Err(step.error);
    }
    step := PlanEncryption(cfg, changed, ctx, step.value);
    if step.Err? {
      return Err(step.error);
    }
    step := PlanNetworkAccess(cfg, changed, step.value);
    if step.Err? {
      return Err(step.error);
    }
    step := PlanBursting(cfg, changed, step.value);
    if step.Err? {
      return Err(step.error);
    }
    plan := step.value;
    assert plan == PhasedPlan(cfg, changed, ctx);
    PhasedPlanIsPlanned(prior, cfg, changed, ctx);

    // an unattached disk is updated directly
    if plan.shouldShutDown && ctx.managedBy.None? {
      plan := plan.(shouldShutDown := false);
    }
    r := Ok(plan);
  }

  /** Whether a patch touches a field; the SKU name is the storage account type's. */
  predicate Patches(u: DiskUpdate, f: Field) {
    var q := u.properties;
    match f
    case StorageAccountTypeField => u.skuName.Some?
    case LogicalSectorSizeField => false
    case OptimizedFrequentAttachEnabledField => q.optimizedForFrequentAttach.Some?
    case OsTypeField => q.osType.Some?
    case DiskSizeGBField => q.diskSizeGB.Some?
    case DiskIopsReadWriteField => q.diskIopsReadWrite.Some?
    case DiskMbpsReadWriteField => q.diskMbpsReadWrite.Some?
    case DiskIopsReadOnlyField => q.diskIopsReadOnly.Some?
    case DiskMbpsReadOnlyField => q.diskMbpsReadOnly.Some?
    case DiskEncryptionSetIdField => q.encryption.Some?
    case EncryptionSettingsField => q.encryptionSettingsCollection.Some?
    case NetworkAccessPolicyField => q.networkAccessPolicy.Some?
    case DiskAccessIdField => q.diskAccessId.Some?
    case PublicNetworkAccessEnabledField => q.publicNetworkAccess.Some?
    case TierField => q.tier.Some?
    case MaxSharesField => q.maxShares.Some?
    case OnDemandBurstingEnabledField => q.burstingEnabled.Some?
    case TagsField => u.tags.Some?
  }

  /** The patch touches nothing that did not change (a change of
      `max_shares` also re-sends the SKU), and for an accepted change it
      touches every changed field it handles; `disk_access_id` is sent only
      under AllowPrivate, and `logical_sector_size` is never updated in place. */
  lemma PatchCarriesExactlyTheChanges(prior: Config, cfg: Config, changed: set<Field>, ctx: UpdateContext, f: Field)
    requires DiskEncryptionSetIdField in changed ==> ctx.encryptionSetLookup.Found?
    ensures Patches(PlannedUpdate(cfg, changed, ctx), f) ==>
              f in changed || (f == StorageAccountTypeField && MaxSharesField in changed)
    ensures (UpdateAccepted(prior, cfg, changed, ctx) && f in changed &&
             f != DiskAccessIdField && f != LogicalSectorSizeField)
            ==> Patches(PlannedUpdate(cfg, changed, ctx), f)
  {
  }

  /** With nothing changed, update sends an empty patch and never asks for a
      shutdown. */
  lemma NoChangeSendsEmptyPatch(cfg: Config, ctx: UpdateContext)
    ensures PlannedUpdate(cfg, {}, ctx) == EmptyDiskUpdate
    ensures !ShutdownRequired(cfg, {}, ctx)
  {
  }

  /** A disk cannot shrink, or keep its size through a change of
      `disk_size_gb`: such an update is refused. */
  lemma ShrinkIsRejected(prior: Config, cfg: Config, changed: set<Field>, ctx: UpdateContext)
    requires DiskSizeGBField in changed && cfg.diskSizeGB <= prior.diskSizeGB
    ensures !UpdateAccepted(prior, cfg, changed, ctx)
    ensures UpdateRejectionJustified(ShrinkNotSupported, prior, cfg, changed, ctx)
  {
  }

  /** Removing the disk encryption set is refused. */
  lemma RemovingEncryptionSetIsRejected(prior: Config, cfg: Config, changed: set<Field>, ctx: UpdateContext)
    requires DiskEncryptionSetIdField in changed && cfg.diskEncryptionSetId == ""
    ensures !UpdateAccepted(prior, cfg, changed, ctx)
    ensures UpdateRejectionJustified(CustomerKeyCannotBeRemoved, prior, cfg, changed, ctx)
  {
  }

  /** A growth needs a shutdown unless the no-downtime feature is on and both
      the virtual machine and the disk support it; a growth that can be done
      without downtime, with nothing else that needs one, does not shut down. */
  lemma GrowthShutdownRule(cfg: Config, changed: set<Field>, ctx: UpdateContext)
    requires DiskSizeGBField in changed
    ensures !ResizableWithoutDowntime(ctx) ==> ShutdownRequired(cfg, changed, ctx)
    ensures (ResizableWithoutDowntime(ctx) &&
             changed !! {TierField, StorageAccountTypeField, DiskEncryptionSetIdField, OnDemandBurstingEnabledField})
            ==> !ShutdownRequired(cfg, changed, ctx)
  {
  }

  /** As written, the disk-access step dereferences the patch's network
      access policy, which is nil when only `disk_access_id` changed: that
      update panics instead of applying or refusing the change. */
  lemma DiskAccessAloneDereferencesNil(cfg: Config, changed: set<Field>)
    requires DiskAccessIdField in changed && NetworkAccessPolicyField !in changed
    ensures DiskAccessStepAsWritten(PlannedNetworkAccessPolicy(cfg, changed), cfg.diskAccessId) == NilDereference
  {
  }

  /** When the policy changed too, the step as written and the corrected
      step (which reads the configured policy) agree. */
  lemma DiskAccessStepAgreesWhenPolicyChanged(cfg: Config, changed: set<Field>)
    requires NetworkAccessPolicyField in changed
    ensures DiskAccessStepAsWritten(PlannedNetworkAccessPolicy(cfg, changed), cfg.diskAccessId)
            == Value(DiskAccessSwitch(cfg.networkAccessPolicy, cfg.diskAccessId))
  {
  }

  /** The force-new rule on `encryption_settings` and update together: when
      settings were present and the change does not replace the disk, the
      in-place patch never empties them; it leaves them alone or sends the
      new, non-empty settings. */
  lemma InPlaceUpdateKeepsEncryptionSettings(prior: Config, cfg: Config, changed: set<Field>, ctx: UpdateContext)
    requires DiskEncryptionSetIdField in changed ==> ctx.encryptionSetLookup.Found?
    requires prior.encryptionSettings != []
    requires !EncryptionSettingsForceNew(prior.encryptionSettings, cfg.encryptionSettings)
    ensures PlannedUpdate(cfg, changed, ctx).properties.encryptionSettingsCollection != Some([])
    ensures PlannedUpdate(cfg, changed, ctx).properties.encryptionSettingsCollection
            in {None, Some(cfg.encryptionSettings)}
  {
  }
}
