/**
  The status decision of Plugin.php: whether the drop-in at
  WP_CONTENT_DIR/object-cache.php exists, whether it is this plugin's own
  (same "Name" header as the bundled includes/object-cache.php), and the
  status code shown on the settings page and by the CLI.
 */
module Status {
  import opened Wrappers
  import opened Files

  /** The two kill switches: DOCKET_CACHE_DISABLED and DOCKET_CACHE_HALT (an undefined constant is false). */
  datatype Flags = Flags(disabled: bool, halt: bool)

  predicate Halted(flags: Flags)
  {
    flags.disabled || flags.halt
  }

  /** The status codes of Plugin.php. */
  const Disabled := 0
  const Enabled := 1
  const NotAvailable := 2
  const Unknown := -1

  /** has_dropin(): a file exists at the drop-in path. */
  predicate HasDropin(dropin: Option<File>): (present: bool)
    ensures present <==> dropin != None
  {
    dropin.Some?
  }

  /**
    validate_dropin(): false without a drop-in; otherwise the byte-wise
    comparison (strcmp) of the two "Name" headers.
   */
  function ValidateDropin(dropin: Option<File>, bundled: File): (valid: bool)
    ensures !HasDropin(dropin) ==> !valid
    ensures HasDropin(dropin) ==> (valid <==> dropin.value.headerName == bundled.headerName)
  {
    if !HasDropin(dropin) then false
    else if dropin.value.headerName != bundled.headerName then false
    else true
  }

  /** get_status(): the kill switches first, then absence, then validity. */
  function GetStatus(flags: Flags, dropin: Option<File>, bundled: File): (code: int)
    ensures code in {NotAvailable, Disabled, Enabled, Unknown}
    ensures Halted(flags) ==> code == NotAvailable
    ensures !Halted(flags) ==> (code == Disabled <==> !HasDropin(dropin))
    ensures !Halted(flags) ==> (code == Enabled <==> ValidateDropin(dropin, bundled))
    ensures !Halted(flags) ==> (code == Unknown <==> HasDropin(dropin) && !ValidateDropin(dropin, bundled))
  {
    if Halted(flags) then NotAvailable
    else if !HasDropin(dropin) then Disabled
    else if ValidateDropin(dropin, bundled) then Enabled
    else Unknown
  }

  /** The label table built in the constructor (untranslated). */
  function StatusLabel(code: int): (text: Option<string>)
    ensures text.Some? <==> code in {Disabled, Enabled, NotAvailable, Unknown}
  {
    if code == Disabled then Some("Disabled")
    else if code == Enabled then Some("Enable")
    else if code == NotAvailable then Some("Not Available")
    else if code == Unknown then Some("Unknown")
    else None
  }

  /** Every status code get_status() can return has a label, and different codes have different labels. */
  lemma StatusAlwaysLabelled(flags: Flags, dropin: Option<File>, bundled: File, code: int)
    ensures StatusLabel(GetStatus(flags, dropin, bundled)).Some?
    ensures code != GetStatus(flags, dropin, bundled) && StatusLabel(code).Some? ==>
              StatusLabel(code) != StatusLabel(GetStatus(flags, dropin, bundled))
  {
  }

  /** The kill switches override every file-system state. */
  lemma HaltedIgnoresFiles(flags: Flags, d1: Option<File>, b1: File, d2: Option<File>, b2: File)
    requires Halted(flags)
    ensures GetStatus(flags, d1, b1) == GetStatus(flags, d2, b2) == NotAvailable
  {
  }

  /**
    Only the "Name" header decides validity: the Version header, the size and
    the mtime of either file are never consulted.
   */
  lemma ValidateOnlyReadsName(dropin: File, bundled: File, other: File, otherBundled: File)
    requires other.headerName == dropin.headerName && otherBundled.headerName == bundled.headerName
    ensures ValidateDropin(Some(other), otherBundled) == ValidateDropin(Some(dropin), bundled)
  {
  }

  /** A drop-in with a foreign Name is never valid, even if it matches the bundled file in every other respect. */
  lemma ForeignNameInvalid(bundled: File, name: string)
    requires name != bundled.headerName
    ensures !ValidateDropin(Some(bundled.(headerName := name)), bundled)
    ensures GetStatus(Flags(false, false), Some(bundled.(headerName := name)), bundled) == Unknown
  {
  }

  /** The bundled file itself, once copied to the drop-in path, validates. */
  lemma InstalledCopyEnables(flags: Flags, bundled: File)
    ensures ValidateDropin(Some(bundled), bundled)
    ensures GetStatus(flags, Some(bundled), bundled) == if Halted(flags) then NotAvailable else Enabled
    ensures GetStatus(flags, None, bundled) == if Halted(flags) then NotAvailable else Disabled
  {
  }
}
