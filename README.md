# azurerm_managed_disk: create, update and read-back rules

This project models the core of the `azurerm_managed_disk` resource of the
Terraform AzureRM provider:

- how create checks a configuration and builds the Disks API create
  request;
- how update turns the set of changed fields into a patch, and decides
  whether the virtual machine the disk is attached to must be shut down
  (and the disk detached) while the patch is applied;
- the `encryption_settings` force-new rule;
- how read flattens the image references and the security profile back
  into configuration fields.

The configuration is a flat record (`DiskApi.Config`) holding what
`d.Get` returns: "" for an unset string, 0 for an unset int, false for an
unset bool. `d.HasChange` becomes a set of changed fields, on create as on
update. Each `d.GetOk` test becomes the field being non-zero or non-empty.
Calls into the cloud are parameters. These are the disk encryption
set lookup, the attached virtual machine's no-downtime resize check, the
`determine…` helpers and the disk's `ManagedBy`. Each lookup is either a
value or a failure message.

Create and update are methods written step by step, as the source is:

- Create is split into five phases: `Apply…` in `ManagedDiskCreate`.
- Update is split into six phases: `Plan…` in `ManagedDiskUpdate`.

Each method is proved against a declarative specification:

- an acceptance predicate (`CreateAccepted`, `UpdateAccepted`), which holds
  exactly when the method succeeds;
- a justification predicate that each returned error satisfies;
- a function that states the whole payload (`CreatedProperties`,
  `PlannedUpdate`).

The properties of the resource are then lemmas about those specifications.
The SKU name on update comes from a loop over the API's storage type
names, keeping the last one equal up to case. That loop is
`SkuResolution.ResolveSkuName`, proved against `LastFoldMatch`.

The read-only IOPS/MBps rules are modelled as the code writes them,
`max_shares != 0`, rather than as "more than zero". The schema keeps
`max_shares` between 2 and 10, so both readings agree on valid
configurations.

Where the update path reads the network access policy for
`disk_access_id`, the model departs from the code; see "Findings".

## Model

| member | source | states |
|---|---|---|
| ManagedDiskCreate.Create | internal/services/compute/managed_disk_resource.go:344-581 | Create succeeds exactly when every create rule holds. Every error it returns names a rule the configuration breaks. On success the request carries the name, edge zone, location, SKU name (the configured storage type), tags, the zone when one is set, and the properties `CreatedProperties` states field by field. |
| ManagedDiskCreate.ApplySizing | internal/services/compute/managed_disk_resource.go:365-404 | Sizes and shares are sent when non-zero. The IOPS/MBps fields and the sector size are sent only on UltraSSD_LRS / PremiumV2_LRS and are refused on other types. The read-only limits need `max_shares != 0`. |
| ManagedDiskCreate.ApplySource | internal/services/compute/managed_disk_resource.go:406-453 | Import/ImportSecure need and copy the source URI and storage account. Copy/Restore need the source resource. FromImage needs an image or gallery image id, and the image id wins. Upload needs a non-zero size. |
| ManagedDiskCreate.ApplyEncryptionAndAccess | internal/services/compute/managed_disk_resource.go:455-490 | Encryption settings are sent when present. A named disk encryption set must be found, and its type and id are sent. When `disk_access_id` changed, it is sent under AllowPrivate, refused when set under another policy, and left out otherwise. |
| ManagedDiskCreate.ApplyTierAndSecurity | internal/services/compute/managed_disk_resource.go:492-544 | A tier needs Premium_LRS/Premium_ZRS. Trusted launch and `security_type` exclude each other, and each needs FromImage, Import or ImportSecure. The customer-key type and the secure VM disk encryption set go together. |
| ManagedDiskCreate.ApplyBursting | internal/services/compute/managed_disk_resource.go:546-564 | Bursting needs Premium and a size of 0 or more than 512 GB, and is then sent as true. The Hyper-V generation is sent when set. |
| ManagedDiskCreate.PerformanceFieldsNeedUltraOrPremiumV2 | internal/services/compute/managed_disk_resource.go:374-404 | Outside UltraSSD_LRS / PremiumV2_LRS an accepted disk names no performance field, and the request carries none. |
| ManagedDiskCreate.ReadOnlyLimitsNeedSharedDisk | internal/services/compute/managed_disk_resource.go:387-401 | A read-only IOPS/MBps limit is sent only with non-zero shares, and then with exactly the configured value. On the two performance types a configured limit is always sent. |
| ManagedDiskCreate.SourceFieldsFollowCreateOption | internal/services/compute/managed_disk_resource.go:406-453 | Each source field is sent, non-empty (or non-zero) and as configured, exactly for its create options. |
| ManagedDiskCreate.ImageReferenceWins | internal/services/compute/managed_disk_resource.go:433-445 | A FromImage disk carries exactly one image reference: the image id if given, else the gallery image id. Other create options carry none. |
| ManagedDiskCreate.TierOnlyOnPremium | internal/services/compute/managed_disk_resource.go:492-497 | A tier is sent only on a Premium disk, as configured. |
| ManagedDiskCreate.SecurityProfileRules | internal/services/compute/managed_disk_resource.go:499-544 | A profile is sent exactly when trusted launch or a security type is set, only for the image-carrying create options. It has the configured type. It has a secure VM disk encryption set exactly for the customer-key type. |
| ManagedDiskCreate.TrustedLaunchExcludesSecurityType | internal/services/compute/managed_disk_resource.go:516-519 | Trusted launch together with `security_type` is always refused, with that rule as the reason. |
| ManagedDiskCreate.BurstingOnlyWhenAllowed | internal/services/compute/managed_disk_resource.go:546-559 | Bursting is sent (as true) exactly when enabled, and then the disk is Premium and unsized or over 512 GB. |
| ManagedDiskUpdate.Update | internal/services/compute/managed_disk_resource.go:612-811 | Update succeeds exactly when every update rule holds, and every error names a broken rule. The patch is `PlannedUpdate`. It shuts down exactly when the disk is attached and a change needs a shutdown. It detaches exactly around a growth under the no-downtime feature when the disk requires detaching. |
| ManagedDiskUpdate.PlanSkuAndTier | internal/services/compute/managed_disk_resource.go:637-675 | `max_shares`, `tier` and tags are sent when changed. A tier needs Premium. A shares or storage type change re-sends the resolved SKU. A tier or storage type change asks for a shutdown. |
| ManagedDiskUpdate.PlanPerformance | internal/services/compute/managed_disk_resource.go:677-718 | Changed IOPS/MBps fields are sent only on UltraSSD_LRS (up to case) / PremiumV2_LRS and refused elsewhere. The read-only limits need shares. The attach optimisation and OS type are sent when changed. |
| ManagedDiskUpdate.PlanResize | internal/services/compute/managed_disk_resource.go:720-742 | A size change must grow the disk. A growth is sent and asks for a shutdown unless the feature is on and both the VM and the disk support resizing without downtime. The detach decision is taken under the feature. |
| ManagedDiskUpdate.PlanEncryption | internal/services/compute/managed_disk_resource.go:744-763 | Changed encryption settings are sent. A changed disk encryption set asks for a shutdown and must be found. Removing it is refused. |
| ManagedDiskUpdate.PlanNetworkAccess | internal/services/compute/managed_disk_resource.go:765-788 | The policy and public access are sent when changed. A changed `disk_access_id` follows the AllowPrivate rule, read from the configured policy. |
| ManagedDiskUpdate.PlanBursting | internal/services/compute/managed_disk_resource.go:790-806 | Enabled bursting needs Premium and a size of 0 or more than 512 GB. A bursting change is sent and asks for a shutdown. |
| ManagedDiskUpdate.PhasedPlanIsPlanned | internal/services/compute/managed_disk_resource.go:633-811 | For an accepted change, the six steps build exactly the planned patch. They ask for a shutdown exactly when one is required. |
| ManagedDiskUpdate.PatchCarriesExactlyTheChanges | internal/services/compute/managed_disk_resource.go:637-806 | The patch touches no unchanged field, except the SKU re-sent with `max_shares`. An accepted change touches every changed field except two: `disk_access_id`, sent only under AllowPrivate, and `logical_sector_size`, which update never sends (it is ForceNew, :108). |
| ManagedDiskUpdate.NoChangeSendsEmptyPatch | internal/services/compute/managed_disk_resource.go:633-806 | With nothing changed, the patch is empty and no shutdown is required. |
| ManagedDiskUpdate.ShrinkIsRejected | internal/services/compute/managed_disk_resource.go:720-741 | A size change to a size not larger than the old one is refused. |
| ManagedDiskUpdate.RemovingEncryptionSetIsRejected | internal/services/compute/managed_disk_resource.go:748-762 | Changing the disk encryption set id to empty is refused. |
| ManagedDiskUpdate.GrowthShutdownRule | internal/services/compute/managed_disk_resource.go:720-737 | A growth needs a shutdown unless it can be done without downtime. One that can, with no other shutdown change, needs none. |
| ManagedDiskUpdate.DiskAccessAloneDereferencesNil | internal/services/compute/managed_disk_resource.go:765-778 | As written, a change of `disk_access_id` alone dereferences the patch's nil network access policy. |
| ManagedDiskUpdate.DiskAccessStepAgreesWhenPolicyChanged | internal/services/compute/managed_disk_resource.go:765-778 | When the policy changed too, the step as written and the corrected step agree. |
| DiskRules.DiskAccessSwitch | internal/services/compute/managed_disk_resource.go:473-482 | `disk_access_id` is refused exactly when it is set under a policy other than AllowPrivate. It is sent as configured under AllowPrivate and never otherwise. |
| DiskRules.DiskAccessStepAsWritten | internal/services/compute/managed_disk_resource.go:769-778 | The step as written is a nil dereference exactly when the patch carries no policy. Otherwise it is the AllowPrivate switch on that policy. |
| DiskRules.UpdateGateAgreesOnApiNames | internal/services/compute/managed_disk_resource.go:677 | For every storage type spelled as the API spells it, update's case-insensitive UltraSSD test and create's exact test agree. |
| DiskRules.EncryptionSettingsForceNew | internal/services/compute/managed_disk_resource.go:310-315 | The disk is replaced exactly when encryption settings that were present are removed: a replacement always empties them, and settings that were present and are not removed stay non-empty. |
| ManagedDiskUpdate.InPlaceUpdateKeepsEncryptionSettings | internal/services/compute/managed_disk_resource.go:310-315 | When encryption settings were present and the change does not force a replacement, the update patch never sends empty settings: it leaves them out or sends the configured, non-empty ones (line 744-746). |
| SkuResolution.LastFoldMatch | internal/services/compute/managed_disk_resource.go:639-644 | The resolved name is empty or one of the names that equals the configured type up to case. It is empty exactly when no name matches. |
| SkuResolution.ResolveSkuName | internal/services/compute/managed_disk_resource.go:639-644 | The loop over the storage type names yields `LastFoldMatch` of the configured type. |
| SkuResolution.ResolvesToFoldEqualName | internal/services/compute/managed_disk_resource.go:666-671 | A configured type equal up to case to a storage type name resolves to exactly that name, because no two names are equal up to case. |
| SkuResolution.UnknownTypeResolvesToEmpty | internal/services/compute/managed_disk_resource.go:666-674 | A type that matches no name resolves to the empty SKU name. |
| SkuResolution.NamesFoldDistinct | internal/services/compute/managed_disk_resource.go:640-643 | No two storage type names are equal up to case. |
| ManagedDiskRead.FlattenImageReferences | internal/services/compute/managed_disk_resource.go:883-892 | A gallery reference with an id is read into `gallery_image_reference_id`, and then the image id is left empty even if an image reference came back too. Otherwise an image reference with an id is read into `image_reference_id`. With neither, both are empty. At most one is ever set. |
| ManagedDiskRead.FlattenSecurityProfile | internal/services/compute/managed_disk_resource.go:924-940 | A TrustedLaunch profile sets `trusted_launch_enabled`; any other type is read into `security_type`, so the two are never both set and `security_type` is never TrustedLaunch. A present secure VM disk encryption set id is read, an absent one reads as empty. No profile reads as all unset. A profile without a type is a nil dereference. |
| ManagedDiskRead.ImageReferencesRoundTrip | internal/services/compute/managed_disk_resource.go:433-445 | For FromImage, reading back an accepted create's image references gives the configured ids (the schema lets at most one be set). For any other create option both read back empty, even when configured. |
| ManagedDiskRead.SecurityProfileRoundTrip | internal/services/compute/managed_disk_resource.go:499-544 | Reading back an accepted create's security profile gives the configured trusted launch, security type and secure VM disk encryption set. |

## Left out

- Existing-resource check, ID parsing, the update path's initial read of the disk, the final create/update API calls and the read call: remote I/O. The disk's `ManagedBy` and the helper answers are inputs (`UpdateContext`).
- The lock taken around update, the shutdown/detach/reattach helper, and timeouts: only the two decisions (`shouldShutDown`, `shouldDetach`) are modelled.
- `determineIfDataDiskRequiresDetaching`, `determineIfDataDiskSupportsNoDowntimeResize`, `determineIfVirtualMachineSupportsNoDowntimeResize` and the disk encryption set lookup are not part of this model. They are boolean or lookup inputs.
- Expansion of tags, encryption settings and the edge zone, and location normalisation: values are carried through unchanged.
- Delete, the schema's metadata and validation functions, and the rest of read (plain copies of API fields).
- The schema's validation is assumed only where a lemma says so: `ConflictsWith` on the image ids, and the `security_type` list without TrustedLaunch.
- SkuResolution.EqualFold: folds ASCII letters only, where Go's `strings.EqualFold` uses Unicode simple folding. The storage type names are ASCII.
- SkuResolution.PossibleStorageTypeNames: the order of the SDK's list is taken to be alphabetical. The SDK file is not part of this model. `ResolvesToFoldEqualName` shows the resolved name does not depend on that order.
- The error messages' text: each error is a `DiskError` variant that names the broken rule.
- Integers are unbounded. The source's `int` to `int64` conversions do not wrap for schema-valid sizes.
- ManagedDiskRead.FlattenSecurityProfile models only the security fields, and FlattenImageReferences only the image ids, of the read.

## Findings

| source | as written | input that shows it | evidently intended | confidence | as-written member | corrected member |
|---|---|---|---|---|---|---|
| internal/services/compute/managed_disk_resource.go:769-777 | The update's `disk_access_id` switch dereferences `diskUpdate.Properties.NetworkAccessPolicy`. The patch sets that pointer only when `network_access_policy` changed. | An update where `disk_access_id` changed and `network_access_policy` did not: the pointer is nil and the dereference panics. | Read the configured `network_access_policy`, as create does at lines 471-481. | not executed | ManagedDiskUpdate.DiskAccessAloneDereferencesNil | ManagedDiskUpdate.PlanNetworkAccess |
