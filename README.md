# SugarCRM model events

A Dafny model of the change-event taxonomy that the SugarCRM record models of
the Gmail SugarCRM extension dispatch (`ydn.crm.sugar.model.events`, in
`src/crm/sugar/model/events.js`):

- `event_types.dfy`, module `EventTypes`: the `Type` enumeration (seven members,
  each an exported string), reading a member by its property name, parsing an
  event-type string back to its member, and the two dispatch lists
  `TYPES_SUGAR` and `TYPES_MODULE`.
- `model_events.dfy`, module `ModelEvents`: one `Event` variant for each of
  the nine event classes, including the base class `Event`, which can be
  constructed directly. Each class constructor is a function, except that of
  `ContextGDataChangeEvent`, which is also modelled as a Dafny class. A
  constructor sets the class's type, or the caller's type for the two base
  classes `Event` and `GDataEvent`, and stores its payload unchanged.
  The `contacts` array of a `ContextGDataChangeEvent` is shared with whoever
  built the event. Its `pop`
  scans the array in index order, removes the first entry that carries a
  SugarCRM external id for the event's domain and the given module name, and
  returns it, or returns null (`None`) and leaves the array alone.

The contact array is a `JsArray` object held by a final (`const`) reference,
so removing an entry through `Pop` is visible to every holder of the array, as
with `splice` in JavaScript. Whether an entry has a SugarCRM external id
(`getExternalId(SUGARCRM, domain, name)` being set) is passed to `Pop` as the
function `hasSugarId`. Its implementation lies outside this model.

Two things the model makes explicit, as the code has them:

- `ModuleChangeEvent` is constructed with type `RECORD_CHANGE`, not
  `MODULE_CHANGE`, so no event class fixes `MODULE_CHANGE`. That type is listed
  in `TYPES_MODULE` all the same. A module-change event can come only from a
  base constructor, `Event` or `GDataEvent` (`ModuleChangeHasNoClass`).
- The module body listens for `Type.NEW_GDATA`, which the enumeration does
  not declare. That property reads as undefined (`NewGDataIsUndeclared`).

## Model

| member | source | states |
|---|---|---|
| `EventTypes.MemberName` | src/crm/sugar/model/events.js:15-21 | every member is declared under a non-empty property name of upper-case letters and underscores |
| `EventTypes.Value` | src/crm/sugar/model/events.js:15-21 | each exported string is its member's property name in lower case with `-` for `_`, character by character |
| `EventTypes.MemberNamesDistinct` | src/crm/sugar/model/events.js:14-22 | the seven property names of the enum object are pairwise distinct, so none overwrites another |
| `EventTypes.ValuesDistinct` | src/crm/sugar/model/events.js:14-22 | the seven exported type strings are pairwise distinct |
| `EventTypes.Parse` | src/crm/sugar/model/events.js:14-22 | a string maps to the member whose value it is, and to None exactly when no member has that value |
| `EventTypes.ParseValue` | src/crm/sugar/model/events.js:14-22 | parsing a member's string gives that member back (round trip) |
| `EventTypes.Lookup` | src/crm/sugar/model/events.js:14-22 | reading an own property `Type[name]` gives the member declared under that name, and undefined exactly when no member has that name |
| `EventTypes.NewGDataIsUndeclared` | src/crm/inj/sugar/module/body.js:66-70 | `Type.NEW_GDATA`, which the module body listens for, is not a member of the enumeration |
| `EventTypes.TypesSugar` | src/crm/sugar/model/events.js:25-34 | every entry of `TYPES_SUGAR` is a `Type` value, and none is repeated |
| `EventTypes.TypesModule` | src/crm/sugar/model/events.js:37-46 | every entry of `TYPES_MODULE` is a `Type` value, and none is repeated |
| `EventTypes.ListsShareOnlyRecordChange` | src/crm/sugar/model/events.js:30-46 | a string is in both lists exactly when it is `record-change` |
| `ModelEvents.JsArray.Splice` | src/crm/sugar/model/events.js:130 | `splice(start, deleteCount)` returns the removed run and leaves the elements before and after it, in order |
| `ModelEvents.FirstSugarIndex` | src/crm/sugar/model/events.js:125-133 | the result is an index whose entry matches and before which no entry matches, or None exactly when no entry matches |
| `ModelEvents.FirstSugarIndexIsFirstMatch` | src/crm/sugar/model/events.js:125-131 | `FirstSugarIndex` is i exactly when entry i matches and no earlier entry does |
| `ModelEvents.RemoveAt` | src/crm/sugar/model/events.js:130 | taking out entry i shortens the sequence by one and keeps every other entry in its relative order |
| `ModelEvents.RemoveAtMultiset` | src/crm/sugar/model/events.js:130 | the removed entry plus the rest are exactly the original entries (nothing added or altered) |
| `ModelEvents.FirstSugarIndexNoneIffZero` | src/crm/sugar/model/events.js:125-133 | no first match exists exactly when no entry matches |
| `ModelEvents.SugarCountRemoveAt` | src/crm/sugar/model/events.js:129-130 | removing a matching entry lowers the number of matching entries by one; removing another leaves it unchanged |
| `ModelEvents.TypeOf` | src/crm/sugar/model/events.js:59-115 | the `type` a listener sees is the one the event was constructed with, and for every `ContextGDataChangeEvent` it is `context-gdata-change`, whichever way the object was built |
| `ModelEvents.ContextGDataChangeEvent.constructor` | src/crm/sugar/model/events.js:96-115 | the event keeps `domain`, `context` and the very `contacts` array it was given, unchanged |
| `ModelEvents.ContextGDataChangeEvent.Pop` | src/crm/sugar/model/events.js:124-134 | with no matching entry: returns None and the array is unchanged; otherwise returns the lowest-index matching entry and the array becomes the old one without it; the returned entry plus the new array make up the old array; one fewer entry matches afterwards |
| `ModelEvents.NewEvent` | src/crm/sugar/model/events.js:59-61 | a directly constructed base `Event` has the type its caller chose |
| `ModelEvents.NewContextDataChangeEvent` | src/crm/sugar/model/events.js:74-81 | the event is typed `context-data-change` and carries `contact` unchanged |
| `ModelEvents.NewModuleRecordChangeEvent` | src/crm/sugar/model/events.js:147-156 | the event is typed `record-change` and carries `delta` unchanged |
| `ModelEvents.NewModuleChangeEvent` | src/crm/sugar/model/events.js:171-184 | the event is typed `record-change` (not `module-change`) and carries `module` and `update` unchanged |
| `ModelEvents.NewModuleRecordUpdatedEvent` | src/crm/sugar/model/events.js:198-206 | the event is typed `record-update` and carries `delta` unchanged |
| `ModelEvents.NewGDataEvent` | src/crm/sugar/model/events.js:221-233 | the event has the type the caller chose and carries `old_record` and `new_record` unchanged |
| `ModelEvents.NewGDataChangedEvent` | src/crm/sugar/model/events.js:247-249 | the event is typed `gdata-change` and carries both records unchanged |
| `ModelEvents.NewGDataUpdatedEvent` | src/crm/sugar/model/events.js:263-265 | the event is typed `gdata-updated` and carries both records unchanged |
| `ModelEvents.RecordChangeListenerHears` | src/crm/sugar/model/events.js:147-184 | among classes that fix their type (all but `Event` and `GDataEvent`), an event has type `record-change` exactly when it is a `ModuleRecordChangeEvent` or a `ModuleChangeEvent` |
| `ModelEvents.ModuleChangeHasNoClass` | src/crm/sugar/model/events.js:171-173 | an event of type `module-change` can only come from one of the base constructors `Event` and `GDataEvent` |
| `ModelEvents.DispatchListsCoverClasses` | src/crm/sugar/model/events.js:30-46 | an event from a class with a fixed type (all but `Event` and `GDataEvent`) has a type named in one of the two lists exactly when it is neither a context-gdata-change nor a gdata-updated event |

## Left out

- `getExternalId` and `ydn.gdata.m8.ExternalId` are not part of this model. `Pop` takes the lookup as a pure, total function `hasSugarId`. This rules out an implementation that answers differently on repeated calls, one that throws (which would end `pop` with the array unchanged), and one that changes `this.contacts` while the loop at src/crm/sugar/model/events.js:125-131 runs.
- EventTypes.Lookup: considers only the enum object's own properties. Names it inherits from `Object.prototype` (`constructor`, `toString`, `__proto__`, ...) read as defined values in JavaScript but give None here.
- The event target (`opt_event_target`), the Closure `goog.events.Event` superclass that `ydn.crm.sugar.model.events.Event` (src/crm/sugar/model/events.js:59-62) extends, beyond the `type` it stores, and listener registration and dispatch are framework behaviour, not modelled.
- The foreign objects (`ContactModel`, `NewContactEntry`, `ContactEntry`, `Record` and the untyped `delta`) are abstract types. Nothing is assumed about their contents.
- The Closure type annotations are taken as the types of fields and parameters. JavaScript does not check them at run time, so a call that passes, say, a string that is not a `Type` to `GDataEvent` is not modelled.
- `ModelEvents.JsArray.Splice` models only a non-negative `start` and no inserted items, which is how `pop` calls it.
- The widget renderers (src/crm/inj/sugar/module/body.js, src/crm/inj/sugar/feed-body-redenderer.js, src/crm/inj/sugar/module/group/list-renderer.js) and the bootstrap script (src/crm/ui/sugar/activity/run-activity-panel.js) build and toggle DOM elements and wire listeners. They are UI and I/O, not modelled.
