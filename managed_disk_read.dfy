/** Reading a managed disk back into the configuration: how the image
    references and the security profile the Disks API returns become the
    flat `image_reference_id`, `gallery_image_reference_id`,
    `trusted_launch_enabled`, `security_type` and
    `secure_vm_disk_encryption_set_id` fields. */
module ManagedDiskRead {
  import opened DiskApi
  import opened DiskRules
  import opened ManagedDiskCreate

  /** The two image reference fields as the read sets them. */
  datatype ImageReferenceFields = ImageReferenceFields(imageReferenceId: string, galleryImageReferenceId: string)

  /** The three security fields as the read sets them; an empty
      `security_type` is None. */
  datatype SecurityFields = SecurityFields(
    trustedLaunchEnabled: bool,
    securityType: Option<DiskSecurityType>,
    secureVmDiskEncryptionSetId: string)

  /** The API returns the image reference alongside a gallery image
      reference, so the gallery reference is read first and the image
      reference only when no gallery id came back. */
  function FlattenImageReferences(c: CreationData): (r: ImageReferenceFields)
    ensures r.imageReferenceId == "" || r.galleryImageReferenceId == ""
    ensures r.galleryImageReferenceId != "" ==>
              c.galleryImageReference == Some(ImageDiskReference(Some(r.galleryImageReferenceId)))
    ensures r.imageReferenceId != "" ==>
              c.imageReference == Some(ImageDiskReference(Some(r.imageReferenceId))) &&
              !(c.galleryImageReference.Some? && c.galleryImageReference.value.id.Some?)
    ensures (!(c.galleryImageReference.Some? && c.galleryImageReference.value.id.Some?) &&
             !(c.imageReference.Some? && c.imageReference.value.id.Some?))
            ==> r == ImageReferenceFields("", "")
    ensures c.galleryImageReference.Some? && c.galleryImageReference.value.id.Some? ==>
              r == ImageReferenceFields("", c.galleryImageReference.value.id.value)
    ensures (!(c.galleryImageReference.Some? && c.galleryImageReference.value.id.Some?) &&
             c.imageReference.Some? && c.imageReference.value.id.Some?)
            ==> r == ImageReferenceFields(c.imageReference.value.id.value, "")
  {
    if c.galleryImageReference.Some? && c.galleryImageReference.value.id.Some? then
      ImageReferenceFields("", c.galleryImageReference.value.id.value)
    else if c.imageReference.Some? && c.imageReference.value.id.Some? then
      ImageReferenceFields(c.imageReference.value.id.value, "")
    else
      ImageReferenceFields("", "")
  }

  /** The security profile read back: a TrustedLaunch profile sets
      `trusted_launch_enabled`, any other type sets `security_type`. The
      profile's type is dereferenced unchecked, so a profile without one is
      a nil dereference. */
  function FlattenSecurityProfile(p: Option<DiskSecurityProfile>): (r: Deref<SecurityFields>)
    ensures r.NilDereference? <==> p.Some? && p.value.securityType.None?
    ensures r.Value? ==> !(r.value.trustedLaunchEnabled && r.value.securityType.Some?)
    ensures r.Value? ==> r.value.securityType != Some(TrustedLaunch)
    ensures r.Value? ==> (r.value.trustedLaunchEnabled <==> p.Some? && p.value.securityType == Some(TrustedLaunch))
    ensures r.Value? && r.value.securityType.Some? ==> p.Some? && p.value.securityType == r.value.securityType
    ensures r.Value? && r.value.secureVmDiskEncryptionSetId != "" ==>
              p.Some? && p.value.secureVmDiskEncryptionSetId == Some(r.value.secureVmDiskEncryptionSetId)
    ensures p.None? ==> r == Value(SecurityFields(false, None, ""))
    ensures p.Some? && p.value.securityType.Some? && p.value.securityType != Some(TrustedLaunch) ==>
              r.Value? && r.value.securityType == p.value.securityType && !r.value.trustedLaunchEnabled
    ensures r.Value? && p.Some? && p.value.secureVmDiskEncryptionSetId.Some? ==>
              r.value.secureVmDiskEncryptionSetId == p.value.secureVmDiskEncryptionSetId.value
    ensures r.Value? && (p.None? || p.value.secureVmDiskEncryptionSetId.None?) ==>
              r.value.secureVmDiskEncryptionSetId == ""
  {
    match p
    case None => Value(SecurityFields(false, None, ""))
    case Some(profile) =>
      match profile.securityType
      case None => NilDereference
      case Some(securityType) =>
        var secureId :=
          if profile.secureVmDiskEncryptionSetId.Some? then profile.secureVmDiskEncryptionSetId.value else "";
        if securityType == TrustedLaunch then Value(SecurityFields(true, None, secureId))
        else Value(SecurityFields(false, Some(securityType), secureId))
  }

  /** Reading back the image references of an accepted create gives the
      configured ids (the schema lets at most one of them be set); for a
      create option other than FromImage it gives none. */
  lemma ImageReferencesRoundTrip(cfg: Config, changed: set<Field>, encryptionSetLookup: Lookup<Option<EncryptionType>>)
    requires CreateAccepted(cfg, changed, encryptionSetLookup)
    requires cfg.imageReferenceId == "" || cfg.galleryImageReferenceId == ""
    ensures FlattenImageReferences(CreatedProperties(cfg, changed, encryptionSetLookup).creationData)
            == if cfg.createOption == FromImage
               then ImageReferenceFields(cfg.imageReferenceId, cfg.galleryImageReferenceId)
               else ImageReferenceFields("", "")
  {
  }

  /** Reading back the security profile of an accepted create gives the
      configured security fields; the schema keeps TrustedLaunch out of
      `security_type`, and the profile create sends always has a type. */
  lemma SecurityProfileRoundTrip(cfg: Config, changed: set<Field>, encryptionSetLookup: Lookup<Option<EncryptionType>>)
    requires CreateAccepted(cfg, changed, encryptionSetLookup)
    requires cfg.securityType != Some(TrustedLaunch)
    ensures FlattenSecurityProfile(CreatedProperties(cfg, changed, encryptionSetLookup).securityProfile)
            == Value(SecurityFields(cfg.trustedLaunchEnabled, cfg.securityType, cfg.secureVmDiskEncryptionSetId))
  {
  }
}
