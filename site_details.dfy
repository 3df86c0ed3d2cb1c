/**
 * The site-details form: three editable text fields, each written through a single-field
 * store merge unless the form is read-only; the certificate number is shown, never edited.
 */
module SiteDetailsForm {
  import opened Wrappers
  import opened Store

  /** The fields the form has inputs for. */
  datatype EditableField = BusinessName | SiteAddress | CustomerName

  /** `{ [field]: value }` as a partial site record. */
  function FieldPatch(field: EditableField, value: string): (p: SiteDetailsPatch)
  {
    match field
    case BusinessName => NoSiteChanges.(businessName := Some(value))
    case SiteAddress => NoSiteChanges.(siteAddress := Some(value))
    case CustomerName => NoSiteChanges.(customerName := Some(value))
  }

  function FieldValue(s: SiteDetails, field: EditableField): string {
    match field
    case BusinessName => s.businessName
    case SiteAddress => s.siteAddress
    case CustomerName => s.customerName
  }

  /**
   * A field edit sets that field to the typed value and leaves every other field,
   * the certificate number included, as it was.
   */
  lemma FieldEditSetsOnlyThatField(s: SiteDetails, field: EditableField, value: string)
    ensures var r := MergeSiteDetails(s, FieldPatch(field, value));
      && FieldValue(r, field) == value
      && (forall g :: g != field ==> FieldValue(r, g) == FieldValue(s, g))
      && r.certNumber == s.certNumber
      && r.customerPhone == s.customerPhone && r.customerEmail == s.customerEmail
      && r.doorCount == s.doorCount && r.engineerInitials == s.engineerInitials
      && r.remedialRequired == s.remedialRequired && r.engineerSignature == s.engineerSignature
  {
  }

  /** `handleChange`: nothing in read-only mode, else the one field is merged into the store's site record. */
  method HandleChange(store: AssessmentStore, readOnly: bool, field: EditableField, value: string)
    modifies store
    ensures readOnly ==> store.siteDetails == old(store.siteDetails)
    ensures !readOnly ==> store.siteDetails == MergeSiteDetails(old(store.siteDetails), FieldPatch(field, value))
    ensures store.siteDetails.certNumber == old(store.siteDetails.certNumber)
    ensures store.doors == old(store.doors) && store.isSidebarCollapsed == old(store.isSidebarCollapsed)
  {
    if readOnly {
      return;
    }
    store.SetSiteDetails(FieldPatch(field, value));
  }
}
