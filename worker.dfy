/** The per-module step of set-template synchronisation: bring one module of a
    set in line with the set template by issuing the remote call its diff
    implies. The remote topology service is an oracle of replies; the step
    yields the calls it issued, in order, and what it returned. */
module SetTemplate {
  import opened Strconv
  import opened Metadata

  /** The HTTP header of the incoming request; forwarded to every remote call. */
  type Header = map<string, seq<string>>

  /** A field value of a request payload. */
  datatype Value = IntValue(i: int64) | StringValue(s: string)

  type Payload = map<string, Value>

  /** Field names of module records. */
  const BKModuleNameField: string := "bk_module_name"
  const BKServiceCategoryIDField: string := "service_category_id"
  const BKServiceTemplateIDField: string := "service_template_id"
  const BKParentIDField: string := "bk_parent_id"
  const BKSetTemplateIDField: string := "set_template_id"

  /** An error value produced by a remote client; passed through untouched. */
  datatype Fault = Fault(text: string)

  /** What the service-template lookup answers. */
  datatype LookupReply = LookupFailed(err: Fault) | Found(template: ServiceTemplate)

  /** What a create, update or delete answers: either the transport failed, or
      the service sent a response carrying a result flag, a code and a message. */
  datatype Reply = TransportFailed(err: Fault) | Response(result: bool, code: int, errMsg: string)
  {
    /** The service reports success only with a true result flag AND code 0. */
    predicate Succeeded() {
      Response? && result && code == 0
    }
  }

  /** The remote client: for each operation, the reply it gives to given arguments. */
  datatype Remote = Remote(
    getServiceTemplate: (Header, int64) -> LookupReply,
    deleteModule: (Header, string, string, string) -> Reply,
    createModule: (Header, string, string, Payload) -> Reply,
    updateModule: (Header, string, string, string, Payload) -> Reply)

  /** One remote call with its arguments. */
  datatype Call =
    | DeleteModule(header: Header, bizID: string, setID: string, moduleID: string)
    | GetServiceTemplate(header: Header, templateID: int64)
    | CreateModule(header: Header, bizID: string, setID: string, data: Payload)
    | UpdateModule(header: Header, bizID: string, setID: string, moduleID: string, data: Payload)
  {
    predicate IsRead() {
      GetServiceTemplate?
    }

    predicate IsMutation() {
      !GetServiceTemplate?
    }
  }

  /** The error, if any, the sync step returns. `ClientErr` is any error a
      remote client returned, passed on unchanged: a transport failure of a
      create, update or delete, or the error of a failed service-template lookup. */
  datatype Outcome =
    | Ok
    | ClientErr(err: Fault)
    | AppErr(code: int, msg: string)
    | UnexpectedType(diffType: string)

  /** The calls issued, in order, and the outcome. */
  datatype Run = Run(calls: seq<Call>, outcome: Outcome)

  /** The reply the remote client gives to a mutating call. */
  function ReplyTo(remote: Remote, c: Call): Reply
    requires c.IsMutation()
  {
    match c
    case DeleteModule(h, biz, st, m) => remote.deleteModule(h, biz, st, m)
    case CreateModule(h, biz, st, data) => remote.createModule(h, biz, st, data)
    case UpdateModule(h, biz, st, m, data) => remote.updateModule(h, biz, st, m, data)
  }

  /** The check applied after every mutating call: a transport error is
      returned as it is; a response is a success only when both its result
      flag and its code say so, and otherwise becomes an error carrying its
      code and message. */
  function CheckResponse(reply: Reply): (o: Outcome)
    ensures o.Ok? <==> reply.Succeeded()
    ensures reply.TransportFailed? ==> o == ClientErr(reply.err)
    ensures reply.Response? && !reply.Succeeded() ==> o == AppErr(reply.code, reply.errMsg)
  {
    match reply
    case TransportFailed(e) => ClientErr(e)
    case Response(result, code, errMsg) =>
      if result == false || code != 0 then AppErr(code, errMsg) else Ok
  }

  /** The record of a module to be created from a service template under a set. */
  function CreateModuleData(setInst: SetInst, diff: SetModuleDiff, template: ServiceTemplate): (data: Payload)
    ensures data.Keys == {BKModuleNameField, BKServiceCategoryIDField, BKServiceTemplateIDField,
                          BKParentIDField, BKSetTemplateIDField}
    ensures |data| == 5
    ensures data[BKModuleNameField] == StringValue(diff.serviceTemplateName)
    ensures data[BKServiceCategoryIDField] == IntValue(template.serviceCategoryID)
    ensures data[BKServiceTemplateIDField] == IntValue(diff.serviceTemplateID)
    ensures data[BKParentIDField] == IntValue(setInst.setID)
    ensures data[BKSetTemplateIDField] == IntValue(setInst.setTemplateID)
  {
    map[BKModuleNameField := StringValue(diff.serviceTemplateName),
        BKServiceCategoryIDField := IntValue(template.serviceCategoryID),
        BKServiceTemplateIDField := IntValue(diff.serviceTemplateID),
        BKParentIDField := IntValue(setInst.setID),
        BKSetTemplateIDField := IntValue(setInst.setTemplateID)]
  }

  /** The update that renames a module: the new name and nothing else. */
  function RenameModuleData(diff: SetModuleDiff): (data: Payload)
    ensures data.Keys == {BKModuleNameField}
    ensures data[BKModuleNameField] == StringValue(diff.moduleName)
  {
    map[BKModuleNameField := StringValue(diff.moduleName)]
  }

  /** Synchronise one module of `setInst` according to `diff`. */
  function DoModuleSyncTask(remote: Remote, header: Header, setInst: SetInst, diff: SetModuleDiff): (r: Run)
    // the request header goes with every call
    ensures forall i :: 0 <= i < |r.calls| ==> r.calls[i].header == header
    // at most one read, only for Add and first; at most one mutation, and it is the last call
    ensures |r.calls| <= 2
    ensures forall i :: 0 <= i < |r.calls| && r.calls[i].IsRead() ==> i == 0 && Classify(diff.diffType) == Add
    ensures forall i :: 0 <= i < |r.calls| && r.calls[i].IsMutation() ==> i == |r.calls| - 1
    // only Unchanged and unrecognised tags call nothing
    ensures r.calls == [] <==> Classify(diff.diffType) == Unchanged || Classify(diff.diffType).Other?
    // success: a deliberate no-op, or a mutation the service accepted
    ensures r.outcome.Ok? <==>
              Classify(diff.diffType) == Unchanged
              || (r.calls != [] && r.calls[|r.calls| - 1].IsMutation()
                  && ReplyTo(remote, r.calls[|r.calls| - 1]).Succeeded())
    // a mutation decides the outcome
    ensures r.calls != [] && r.calls[|r.calls| - 1].IsMutation() ==>
              r.outcome == CheckResponse(ReplyTo(remote, r.calls[|r.calls| - 1]))
  {
    var bizIDStr := FormatInt(setInst.bizID);
    var setIDStr := FormatInt(setInst.setID);
    var moduleIDStr := FormatInt(diff.moduleID);
    match Classify(diff.diffType)
    case Remove =>
      Run([DeleteModule(header, bizIDStr, setIDStr, moduleIDStr)],
          CheckResponse(remote.deleteModule(header, bizIDStr, setIDStr, moduleIDStr)))
    case Add =>
      var lookup := GetServiceTemplate(header, diff.serviceTemplateID);
      (match remote.getServiceTemplate(header, diff.serviceTemplateID)
       case LookupFailed(e) => Run([lookup], ClientErr(e))
       case Found(template) =>
         var data := CreateModuleData(setInst, diff, template);
         Run([lookup, CreateModule(header, bizIDStr, setIDStr, data)],
             CheckResponse(remote.createModule(header, bizIDStr, setIDStr, data))))
    case Changed =>
      var data := RenameModuleData(diff);
      Run([UpdateModule(header, bizIDStr, setIDStr, moduleIDStr, data)],
          CheckResponse(remote.updateModule(header, bizIDStr, setIDStr, moduleIDStr, data)))
    case Unchanged => Run([], Ok)
    case Other(t) => Run([], UnexpectedType(t))
  }

  /** An Unchanged diff calls nothing and succeeds. */
  lemma UnchangedIsNoOp(remote: Remote, header: Header, setInst: SetInst, diff: SetModuleDiff)
    requires diff.diffType == ModuleDiffUnchanged
    ensures DoModuleSyncTask(remote, header, setInst, diff) == Run([], Ok)
  {
  }

  /** An unrecognised tag calls nothing and is reported, by name, as an error. */
  lemma UnexpectedTypeIsRejected(remote: Remote, header: Header, setInst: SetInst, diff: SetModuleDiff)
    requires !IsKnownTag(diff.diffType)
    ensures DoModuleSyncTask(remote, header, setInst, diff) == Run([], UnexpectedType(diff.diffType))
    ensures !DoModuleSyncTask(remote, header, setInst, diff).outcome.Ok?
  {
  }

  /** A Remove diff deletes exactly the diff's module of the set's business, and nothing else. */
  lemma RemoveDeletesModule(remote: Remote, header: Header, setInst: SetInst, diff: SetModuleDiff)
    requires diff.diffType == ModuleDiffRemove
    ensures var call := DeleteModule(header, FormatInt(setInst.bizID), FormatInt(setInst.setID), FormatInt(diff.moduleID));
            DoModuleSyncTask(remote, header, setInst, diff) == Run([call], CheckResponse(ReplyTo(remote, call)))
  {
  }

  /** An Add diff first looks up the diff's service template; a failed lookup
      is returned unchanged and nothing is created. */
  lemma AddLooksUpTemplateFirst(remote: Remote, header: Header, setInst: SetInst, diff: SetModuleDiff)
    requires diff.diffType == ModuleDiffAdd
    ensures var r := DoModuleSyncTask(remote, header, setInst, diff);
            r.calls != [] && r.calls[0] == GetServiceTemplate(header, diff.serviceTemplateID)
    ensures remote.getServiceTemplate(header, diff.serviceTemplateID).LookupFailed? ==>
              DoModuleSyncTask(remote, header, setInst, diff)
              == Run([GetServiceTemplate(header, diff.serviceTemplateID)],
                     ClientErr(remote.getServiceTemplate(header, diff.serviceTemplateID).err))
  {
  }

  /** After a successful lookup, an Add diff creates one module under the set
      whose record names the template, its category, the set and the set template. */
  lemma AddCreatesModule(remote: Remote, header: Header, setInst: SetInst, diff: SetModuleDiff, template: ServiceTemplate)
    requires diff.diffType == ModuleDiffAdd
    requires remote.getServiceTemplate(header, diff.serviceTemplateID) == Found(template)
    ensures var r := DoModuleSyncTask(remote, header, setInst, diff);
            |r.calls| == 2
            && r.calls[0] == GetServiceTemplate(header, diff.serviceTemplateID)
            && r.calls[1].CreateModule?
            && r.calls[1].header == header
            && r.calls[1].bizID == FormatInt(setInst.bizID)
            && r.calls[1].setID == FormatInt(setInst.setID)
            && r.calls[1].data == CreateModuleData(setInst, diff, template)
            && r.outcome == CheckResponse(ReplyTo(remote, r.calls[1]))
  {
  }

  /** A Changed diff renames the diff's module with one update carrying only the new name. */
  lemma ChangedRenamesModule(remote: Remote, header: Header, setInst: SetInst, diff: SetModuleDiff)
    requires diff.diffType == ModuleDiffChanged
    ensures var call := UpdateModule(header, FormatInt(setInst.bizID), FormatInt(setInst.setID), FormatInt(diff.moduleID),
                                     map[BKModuleNameField := StringValue(diff.moduleName)]);
            DoModuleSyncTask(remote, header, setInst, diff) == Run([call], CheckResponse(ReplyTo(remote, call)))
  {
  }

  /** The id strings of every call decode to the ids of the set and the module. */
  lemma CallIdsDenoteInputs(remote: Remote, header: Header, setInst: SetInst, diff: SetModuleDiff)
    ensures forall c :: c in DoModuleSyncTask(remote, header, setInst, diff).calls && c.IsMutation() ==>
              ParseInt(c.bizID) == Some(setInst.bizID as int) && ParseInt(c.setID) == Some(setInst.setID as int)
    ensures forall c :: c in DoModuleSyncTask(remote, header, setInst, diff).calls && (c.DeleteModule? || c.UpdateModule?) ==>
              ParseInt(c.moduleID) == Some(diff.moduleID as int)
  {
    var r := DoModuleSyncTask(remote, header, setInst, diff);
    forall c | c in r.calls && c.IsMutation()
      ensures c.bizID == FormatInt(setInst.bizID) && c.setID == FormatInt(setInst.setID)
    {
    }
    forall c | c in r.calls && (c.DeleteModule? || c.UpdateModule?)
      ensures c.moduleID == FormatInt(diff.moduleID)
    {
    }
    ParseFormatInt(setInst.bizID);
    ParseFormatInt(setInst.setID);
    ParseFormatInt(diff.moduleID);
  }

  /** Two different modules of a set never receive the same delete. */
  lemma DistinctModulesDistinctDeletes(remote: Remote, header: Header, setInst: SetInst, d1: SetModuleDiff, d2: SetModuleDiff)
    requires d1.diffType == ModuleDiffRemove && d2.diffType == ModuleDiffRemove
    requires d1.moduleID != d2.moduleID
    ensures DoModuleSyncTask(remote, header, setInst, d1).calls != DoModuleSyncTask(remote, header, setInst, d2).calls
  {
    if FormatInt(d1.moduleID) == FormatInt(d2.moduleID) {
      FormatIntInjective(d1.moduleID, d2.moduleID);
    }
  }

  /** Two (set, diff) pairs with the same tag that agree on the fields that tag
      gives meaning to. */
  predicate AgreeOnReadFields(s1: SetInst, d1: SetModuleDiff, s2: SetInst, d2: SetModuleDiff) {
    d1.diffType == d2.diffType
    && match Classify(d1.diffType)
       case Remove =>
         s1.bizID == s2.bizID && s1.setID == s2.setID && d1.moduleID == d2.moduleID
       case Add =>
         s1 == s2 && d1.serviceTemplateID == d2.serviceTemplateID
         && d1.serviceTemplateName == d2.serviceTemplateName
       case Changed =>
         s1.bizID == s2.bizID && s1.setID == s2.setID
         && d1.moduleID == d2.moduleID && d1.moduleName == d2.moduleName
       case _ => true
  }

  /** The step reads only the fields its diff's tag gives meaning to. */
  lemma ReadsOnlyFieldsOfItsTag(remote: Remote, header: Header, s1: SetInst, d1: SetModuleDiff, s2: SetInst, d2: SetModuleDiff)
    requires AgreeOnReadFields(s1, d1, s2, d2)
    ensures DoModuleSyncTask(remote, header, s1, d1) == DoModuleSyncTask(remote, header, s2, d2)
  {
  }
}
