# Set-template module sync, modelled in Dafny

bk-cmdb keeps the modules of a *set* in line with the set's *set template*.
A diff between the template and the set's actual modules is computed elsewhere.
Each entry of that diff (a `SetModuleDiff`: a tag plus module and
service-template fields) goes to `BackendWorker.DoModuleSyncTask`, which issues
the remote topology call that the entry implies:

- `remove` deletes the module;
- `add` looks up the service template, then creates the module from it;
- `changed` renames the module;
- `unchanged` does nothing;
- any other tag is an error.

Every create, update or delete reply is checked. A transport error is returned
as it is. A reply whose result flag is false, or whose code is not 0, becomes an
error carrying that code and message.

The model is a pure function, `SetTemplate.DoModuleSyncTask`. The remote client
is a value, `Remote`, holding one total function per operation; each gives the
reply for given arguments (a scripted oracle). The function returns a `Run`:
the calls issued, in order and with all their arguments, and an `Outcome`
(`Ok`, `ClientErr`, `AppErr(code, msg)` or `UnexpectedType(tag)`).
`ClientErr` carries any error a client returned unchanged: a transport
failure, or the error of a failed service-template lookup.

Files:

- `strconv.dfy` (module `Strconv`): Go's `int64` type and `strconv.FormatInt(_, 10)`, which builds the id strings. A parser, `ParseInt`, is its inverse, and the round trip is proved.
- `metadata.dfy` (module `Metadata`): the set, diff and service-template records; the four tag strings; and `Classify`, which maps a tag string onto the closed variant `DiffType`.
- `worker.dfy` (module `SetTemplate`): payloads, remote replies, calls, outcomes, the reply check, the sync step and the lemmas about it.

Behaviour of the code worth noting:

- Errors come back unannotated. A transport or lookup error is returned unchanged (worker.go lines 33 and 43). An application error carries only the reply's code and message (lines 37, 60 and 73).
- The module id string is computed for every tag (line 27), but only delete and update use it.
- Nothing in the step checks for cancellation itself.

## Model

| member | source | states |
|---|---|---|
| `Strconv.Digits` | src/scene_server/topo_server/core/settemplate/worker.go:25-27 | the base-10 digits of a natural number are a nonempty digit string; it starts with '0' only for zero and has one digit exactly below ten |
| `Strconv.FormatInt` | src/scene_server/topo_server/core/settemplate/worker.go:25-27 | the id text is nonempty and starts with a minus sign exactly for negative ids; its digit shape is stated by `FormatIntIsCanonical` and its value by `ParseFormatInt` |
| `Strconv.FormatIntIsCanonical` | src/scene_server/topo_server/core/settemplate/worker.go:25-27 | the id text is nonempty; it starts with a minus sign exactly for negative ids; after that come digits with no leading zero, except in "0" |
| `Strconv.ParseFormatInt` | src/scene_server/topo_server/core/settemplate/worker.go:25-27 | parsing the rendered id text yields back the id, for every 64-bit id |
| `Strconv.ParseNat` | src/scene_server/topo_server/core/settemplate/worker.go:25-27 | the converse of the round trip: digit text with no leading zero (or "0") is exactly what the renderer produces for the value it parses to |
| `Strconv.FormatIntInjective` | src/scene_server/topo_server/core/settemplate/worker.go:25-27 | two ids with the same text are the same id |
| `Strconv.FormatIntExamples` | src/scene_server/topo_server/core/settemplate/worker.go:25-27 | 0, 10 and -42 are rendered "0", "10" and "-42" |
| `Metadata.Classify` | src/scene_server/topo_server/core/settemplate/worker.go:28-80 | the case a tag string selects names that same string; it lands in the default case exactly when the string is none of the four tags |
| `Metadata.ClassifyTagName` | src/scene_server/topo_server/core/settemplate/worker.go:28-80 | each of the four recognised cases is selected by its own tag string |
| `SetTemplate.CheckResponse` | src/scene_server/topo_server/core/settemplate/worker.go:31-38 | a reply is a success exactly when the transport succeeded, the result flag is true and the code is 0; a transport error is passed on unchanged; any other reply becomes an error with its own code and message (the same check follows create and update at lines 54-61 and 67-74) |
| `SetTemplate.CreateModuleData` | src/scene_server/topo_server/core/settemplate/worker.go:45-51 | the new module's record has exactly five fields: module name, service category, service template, parent set and set template |
| `SetTemplate.RenameModuleData` | src/scene_server/topo_server/core/settemplate/worker.go:63-65 | the update record holds the module name field and no other field |
| `SetTemplate.DoModuleSyncTask` | src/scene_server/topo_server/core/settemplate/worker.go:21-82 | every call carries the request header; there are at most two calls; a read comes only for an add, and only first; a mutation is always the last call, so there is at most one; no call is made exactly for unchanged and unrecognised tags; success means an unchanged tag or a last mutation the service accepted, and that mutation's reply decides the outcome |
| `SetTemplate.UnchangedIsNoOp` | src/scene_server/topo_server/core/settemplate/worker.go:75-76 | an unchanged diff makes no call and succeeds |
| `SetTemplate.UnexpectedTypeIsRejected` | src/scene_server/topo_server/core/settemplate/worker.go:77-79 | an unrecognised tag makes no call and fails with an error naming that tag; it is never treated as a no-op |
| `SetTemplate.RemoveDeletesModule` | src/scene_server/topo_server/core/settemplate/worker.go:29-38 | a remove diff makes one call, a delete of the diff's module with the decimal biz, set and module ids, and returns that delete's checked reply |
| `SetTemplate.AddLooksUpTemplateFirst` | src/scene_server/topo_server/core/settemplate/worker.go:39-44 | an add diff first looks up the diff's service template; when the lookup fails, its error is returned unchanged and no create follows |
| `SetTemplate.AddCreatesModule` | src/scene_server/topo_server/core/settemplate/worker.go:45-61 | after a successful lookup comes exactly one create under the decimal biz and set ids, carrying the five-field record built from the looked-up template; its checked reply is the outcome |
| `SetTemplate.ChangedRenamesModule` | src/scene_server/topo_server/core/settemplate/worker.go:62-74 | a changed diff makes one update of the diff's module whose payload is only the new module name; its checked reply is the outcome |
| `SetTemplate.CallIdsDenoteInputs` | src/scene_server/topo_server/core/settemplate/worker.go:25-27 | in every mutating call, the biz, set and module id strings parse back to the set's and the diff's ids |
| `SetTemplate.DistinctModulesDistinctDeletes` | src/scene_server/topo_server/core/settemplate/worker.go:27-30 | removing two different modules of one set issues different deletes |
| `SetTemplate.ReadsOnlyFieldsOfItsTag` | src/scene_server/topo_server/core/settemplate/worker.go:28-80 | the run depends only on the fields that the diff's tag gives meaning to: module id for remove; template id, template name and the whole set for add; module id and name for changed; nothing for the rest |

## Left out

- The tag strings ("add", "remove", "changed", "unchanged") and the record field names (`bk_module_name`, `service_category_id`, `service_template_id`, `bk_parent_id`, `set_template_id`) come from the `metadata` and `common` packages, which are not part of this model. The values used are bk-cmdb's. The proofs rely only on the strings being distinct.
- Building the context and request id from the header (lines 22-23) is not modelled. The header itself stands for both, and it goes with every call.
- Logging (`blog.Errorf`, `blog.ErrorJSON`) is not modelled. Neither is the error text beyond the code, message or tag it carries. Some log messages at lines 42 and 78 name the wrong operation; that affects only the log.
- Go's nil replies are not modelled. A nil response or nil template returned with a nil error would panic in Go. Remote replies here are always either an error or a value.
- Cancellation and deadlines are not modelled. They belong to the remote client and the context, not to this step.
- The real network clients, `ClientSet.TopoServer()` and `CoreService().Process()`, are replaced by the `Remote` oracle.
- `Strconv.ParseInt`: only base-10 parsing is modelled. Go's 64-bit range error is not reproduced, and a leading '+' sign, which Go accepts, is rejected here; `FormatInt` never emits one. It is needed only as the inverse of `FormatInt`.
- The batch loop that applies many diffs in order and stops at the first error is not part of this model. So is computing the diff itself. Neither appears in `worker.go`.
- Service registration (`src/common/backbone/register.go`) is a separate subsystem wrapping a ZooKeeper client. The UI store actions (`src/ui/src/store/modules/api/set-sync.js`) only post HTTP requests. Neither is modelled.
