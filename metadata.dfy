/** The records module synchronisation works on: a set instance, one module's
    diff against the set template, and a service template. Only the fields that
    the sync step reads are kept. */
module Metadata {
  import opened Strconv

  /** A set instance: its business, its own id and the set template it follows. */
  datatype SetInst = SetInst(bizID: int64, setID: int64, setTemplateID: int64)

  /** One module's difference from the set template. `diffType` is the raw tag
      string; which of the other fields matter depends on it. */
  datatype SetModuleDiff = SetModuleDiff(
    diffType: string,
    moduleID: int64,
    moduleName: string,
    serviceTemplateID: int64,
    serviceTemplateName: string)

  /** A service template, as far as module creation needs it. */
  datatype ServiceTemplate = ServiceTemplate(serviceCategoryID: int64)

  /** The four diff tags the sync step recognises. */
  const ModuleDiffAdd: string := "add"
  const ModuleDiffRemove: string := "remove"
  const ModuleDiffChanged: string := "changed"
  const ModuleDiffUnchanged: string := "unchanged"

  predicate IsKnownTag(s: string) {
    s == ModuleDiffAdd || s == ModuleDiffRemove || s == ModuleDiffChanged || s == ModuleDiffUnchanged
  }

  /** A diff tag as a closed variant; `Other` keeps any string that is none of the four. */
  datatype DiffType = Remove | Add | Changed | Unchanged | Other(name: string)

  /** The tag string a diff type stands for. */
  function TagName(t: DiffType): string {
    match t
    case Remove => ModuleDiffRemove
    case Add => ModuleDiffAdd
    case Changed => ModuleDiffChanged
    case Unchanged => ModuleDiffUnchanged
    case Other(name) => name
  }

  /** The case a tag string selects, in the order the sync step tests them. */
  function Classify(s: string): (t: DiffType)
    ensures TagName(t) == s
    ensures t.Other? <==> !IsKnownTag(s)
  {
    if s == ModuleDiffRemove then Remove
    else if s == ModuleDiffAdd then Add
    else if s == ModuleDiffChanged then Changed
    else if s == ModuleDiffUnchanged then Unchanged
    else Other(s)
  }

  /** Every diff type that does not disguise a known tag as `Other` is recovered from its name. */
  lemma ClassifyTagName(t: DiffType)
    requires t.Other? ==> !IsKnownTag(t.name)
    ensures Classify(TagName(t)) == t
  {
  }
}
