/** The change events that the SugarCRM record models dispatch
    (`ydn.crm.sugar.model.events`): one value per event class, the functions
    that play the part of the class constructors, and `ContextGDataChangeEvent`,
    the one event whose payload is changed after construction (by `pop`). */
module ModelEvents {
  import opened EventTypes

  /** Objects of the surrounding extension whose code is not part of this model. */
  type ContactModel     // ydn.crm.inj.ContactModel
  type NewContactEntry  // ydn.gdata.m8.NewContactEntry
  type ContactEntry     // ydn.gdata.m8.ContactEntry
  type Record           // ydn.crm.sugar.Record
  type Delta            // an untyped (`*`) change description

  /** A SugarCRM module name such as "Contacts" or "Leads". */
  type ModuleName = string

  // ---------------------------------------------------------------------------
  // A JavaScript array, shared by reference

  /** A JavaScript array: an object whose elements can be removed in place, so
      every holder of a reference to it sees the change. */
  class JsArray<T> {
    var elems: seq<T>

    constructor (init: seq<T>)
      ensures elems == init
    {
      elems := init;
    }

    /** `Array.prototype.splice(start, deleteCount)` without inserted items:
        removes up to `deleteCount` elements from position `start` (clamped to
        the length) and returns them in order. */
    method Splice(start: nat, deleteCount: nat) returns (removed: seq<T>)
      modifies this
      ensures var n := |old(elems)|;
              var s := if start < n then start else n;
              var e := if s + deleteCount < n then s + deleteCount else n;
              removed == old(elems)[s..e] && elems == old(elems)[..s] + old(elems)[e..]
    {
      var n := |elems|;
      var s := if start < n then start else n;
      var e := if s + deleteCount < n then s + deleteCount else n;
      removed := elems[s..e];
      elems := elems[..s] + elems[e..];
    }
  }

  // ---------------------------------------------------------------------------
  // Specification of `pop`

  /** The index of the first entry that carries a SugarCRM external id for
      `(domain, name)`, according to `hasSugarId`, or None if no entry does. */
  function FirstSugarIndex(s: seq<ContactEntry>, hasSugarId: (ContactEntry, string, ModuleName) -> bool,
                           domain: string, name: ModuleName): (r: Option<nat>)
    ensures r.Some? ==> r.value < |s| && hasSugarId(s[r.value], domain, name)
    ensures r.Some? ==> forall j :: 0 <= j < r.value ==> !hasSugarId(s[j], domain, name)
    ensures r.None? <==> forall j :: 0 <= j < |s| ==> !hasSugarId(s[j], domain, name)
  {
    if s == [] then None
    else if hasSugarId(s[0], domain, name) then Some(0)
    else match FirstSugarIndex(s[1..], hasSugarId, domain, name)
      case None => None
      case Some(k) => Some(k + 1)
  }

  /** `FirstSugarIndex` is the one index that matches and has no match before
      it. */
  lemma FirstSugarIndexIsFirstMatch(s: seq<ContactEntry>, hasSugarId: (ContactEntry, string, ModuleName) -> bool,
                                    domain: string, name: ModuleName, i: nat)
    requires i < |s|
    ensures FirstSugarIndex(s, hasSugarId, domain, name) == Some(i)
            <==> hasSugarId(s[i], domain, name) && forall j :: 0 <= j < i ==> !hasSugarId(s[j], domain, name)
  {
  }

  /** The sequence with the entry at index `i` taken out. */
  function RemoveAt<T>(s: seq<T>, i: nat): (r: seq<T>)
    requires i < |s|
    ensures |r| == |s| - 1
    ensures forall j :: 0 <= j < i ==> r[j] == s[j]
    ensures forall j :: i <= j < |r| ==> r[j] == s[j + 1]
  {
    s[..i] + s[i + 1..]
  }

  /** Taking an entry out neither adds nor alters any: the removed entry and
      the rest together are the original entries. */
  lemma RemoveAtMultiset<T>(s: seq<T>, i: nat)
    requires i < |s|
    ensures multiset(RemoveAt(s, i)) + multiset{s[i]} == multiset(s)
  {
    assert s == s[..i] + [s[i]] + s[i + 1..];
  }

  /** How many entries carry a SugarCRM external id for `(domain, name)`. */
  function SugarCount(s: seq<ContactEntry>, hasSugarId: (ContactEntry, string, ModuleName) -> bool,
                      domain: string, name: ModuleName): nat
  {
    if s == [] then 0
    else (if hasSugarId(s[0], domain, name) then 1 else 0) + SugarCount(s[1..], hasSugarId, domain, name)
  }

  /** No entry matches exactly when none is counted. */
  lemma {:induction false} FirstSugarIndexNoneIffZero(s: seq<ContactEntry>, hasSugarId: (ContactEntry, string, ModuleName) -> bool,
                                                      domain: string, name: ModuleName)
    ensures FirstSugarIndex(s, hasSugarId, domain, name).None? <==> SugarCount(s, hasSugarId, domain, name) == 0
  {
    if s != [] {
      FirstSugarIndexNoneIffZero(s[1..], hasSugarId, domain, name);
    }
  }

  /** Taking out a matching entry lowers the number of matching entries by
      exactly one; taking out any other entry leaves it unchanged. */
  lemma {:induction false} SugarCountRemoveAt(s: seq<ContactEntry>, i: nat, hasSugarId: (ContactEntry, string, ModuleName) -> bool,
                                              domain: string, name: ModuleName)
    requires i < |s|
    ensures SugarCount(RemoveAt(s, i), hasSugarId, domain, name)
            == SugarCount(s, hasSugarId, domain, name) - (if hasSugarId(s[i], domain, name) then 1 else 0)
  {
    if i > 0 {
      assert RemoveAt(s, i)[1..] == RemoveAt(s[1..], i - 1);
      SugarCountRemoveAt(s[1..], i - 1, hasSugarId, domain, name);
    } else {
      assert RemoveAt(s, i) == s[1..];
    }
  }

  // ---------------------------------------------------------------------------
  // ContextGDataChangeEvent

  /** Event raised when the Gmail context contact changes, carrying the
      database contact entries that match it. The references are final, but
      `pop` removes entries from the shared `contacts` array. */
  class ContextGDataChangeEvent {
    const eventType: EventType := ContextGDataChange
    const domain: string
    const context: NewContactEntry
    const contacts: JsArray<ContactEntry>

    constructor (domain: string, contact: NewContactEntry, contacts: JsArray<ContactEntry>)
      ensures this.domain == domain && this.context == contact
      ensures this.contacts == contacts && contacts.elems == old(contacts.elems)
    {
      this.domain := domain;
      this.context := contact;
      this.contacts := contacts;
    }

    /** Removes and returns the first contact entry that carries a SugarCRM
        external id for this event's domain and module `name`; `hasSugarId`
        stands for `entry.getExternalId(SUGARCRM, domain, name)` being set. */
    method Pop(name: ModuleName, hasSugarId: (ContactEntry, string, ModuleName) -> bool)
      returns (r: Option<ContactEntry>)
      modifies contacts
      ensures var k := FirstSugarIndex(old(contacts.elems), hasSugarId, domain, name);
              match k
              case None => r == None && contacts.elems == old(contacts.elems)
              case Some(i) => r == Some(old(contacts.elems)[i]) && contacts.elems == RemoveAt(old(contacts.elems), i)
      ensures multiset(contacts.elems) + (if r.Some? then multiset{r.value} else multiset{})
              == multiset(old(contacts.elems))
      ensures r.Some? ==> hasSugarId(r.value, domain, name)
      ensures SugarCount(contacts.elems, hasSugarId, domain, name)
              == SugarCount(old(contacts.elems), hasSugarId, domain, name) - (if r.Some? then 1 else 0)
    {
      var i := 0;
      while i < |contacts.elems|
        invariant 0 <= i <= |contacts.elems|
        invariant contacts.elems == old(contacts.elems)
        invariant forall j :: 0 <= j < i ==> !hasSugarId(contacts.elems[j], domain, name)
      {
        var contact := contacts.elems[i];
        var xp := hasSugarId(contact, domain, name);
        if xp {
          ghost var before := contacts.elems;
          var removed := contacts.Splice(i, 1);
          assert contacts.elems == RemoveAt(before, i);
          RemoveAtMultiset(before, i);
          SugarCountRemoveAt(before, i, hasSugarId, domain, name);
          return Some(removed[0]);
        }
        i := i + 1;
      }
      return None;
    }
  }

  // ---------------------------------------------------------------------------
  // The event classes

  /** One event object. Each variant is one event class; `eventType` is the
      `type` the object was constructed with. */
  datatype Event =
    | BaseEvent(eventType: EventType)
    | ContextDataChangeEvent(eventType: EventType, contact: ContactModel)
    | ContextGData(source: ContextGDataChangeEvent)
    | ModuleRecordChangeEvent(eventType: EventType, delta: Delta)
    | ModuleChangeEvent(eventType: EventType, moduleName: Option<ModuleName>, update: Record)
    | ModuleRecordUpdatedEvent(eventType: EventType, delta: Delta)
    | GDataEvent(eventType: EventType, oldRecord: ContactEntry, newRecord: ContactEntry)
    | GDataChangedEvent(eventType: EventType, oldRecord: ContactEntry, newRecord: ContactEntry)
    | GDataUpdatedEvent(eventType: EventType, oldRecord: ContactEntry, newRecord: ContactEntry)

  /** The `type` of an event, as a listener sees it; every
      `ContextGDataChangeEvent` has type context-gdata-change. */
  function TypeOf(e: Event): (t: EventType)
    ensures e.ContextGData? ==> t == ContextGDataChange
    ensures !e.ContextGData? ==> t == e.eventType
  {
    if e.ContextGData? then e.source.eventType else e.eventType
  }

  /** The type each event class fixes in its constructor; None for the
      `Event` and `GDataEvent` base classes, whose callers choose the type. */
  function ClassType(e: Event): Option<EventType>
  {
    match e
    case BaseEvent(_) => None
    case ContextDataChangeEvent(_, _) => Some(ContextDataChange)
    case ContextGData(_) => Some(ContextGDataChange)
    case ModuleRecordChangeEvent(_, _) => Some(RecordChange)
    case ModuleChangeEvent(_, _, _) => Some(RecordChange)
    case ModuleRecordUpdatedEvent(_, _) => Some(RecordUpdate)
    case GDataEvent(_, _, _) => None
    case GDataChangedEvent(_, _, _) => Some(GDataChange)
    case GDataUpdatedEvent(_, _, _) => Some(GDataUpdated)
  }

  /** An event as its class constructor leaves it: its type is the one its
      class fixes. */
  predicate Constructed(e: Event)
  {
    ClassType(e).Some? ==> TypeOf(e) == ClassType(e).value
  }

  /** `new ydn.crm.sugar.model.events.Event(type)`: the base class, which
      may also be constructed directly. */
  function NewEvent(t: EventType): (e: Event)
    ensures Constructed(e) && TypeOf(e) == t
    ensures e.BaseEvent?
  {
    BaseEvent(t)
  }

  function NewContextDataChangeEvent(contact: ContactModel): (e: Event)
    ensures Constructed(e) && Value(TypeOf(e)) == "context-data-change"
    ensures e.ContextDataChangeEvent? && e.contact == contact
  {
    ContextDataChangeEvent(ContextDataChange, contact)
  }

  function NewModuleRecordChangeEvent(delta: Delta): (e: Event)
    ensures Constructed(e) && Value(TypeOf(e)) == "record-change"
    ensures e.ModuleRecordChangeEvent? && e.delta == delta
  {
    ModuleRecordChangeEvent(RecordChange, delta)
  }

  /** Tagged `RECORD_CHANGE`, not `MODULE_CHANGE`, as the source has it. */
  function NewModuleChangeEvent(moduleName: Option<ModuleName>, update: Record): (e: Event)
    ensures Constructed(e) && Value(TypeOf(e)) == "record-change"
    ensures e.ModuleChangeEvent? && e.moduleName == moduleName && e.update == update
  {
    ModuleChangeEvent(RecordChange, moduleName, update)
  }

  function NewModuleRecordUpdatedEvent(delta: Delta): (e: Event)
    ensures Constructed(e) && Value(TypeOf(e)) == "record-update"
    ensures e.ModuleRecordUpdatedEvent? && e.delta == delta
  {
    ModuleRecordUpdatedEvent(RecordUpdate, delta)
  }

  function NewGDataEvent(t: EventType, oldRecord: ContactEntry, newRecord: ContactEntry): (e: Event)
    ensures Constructed(e) && TypeOf(e) == t
    ensures e.GDataEvent? && e.oldRecord == oldRecord && e.newRecord == newRecord
  {
    GDataEvent(t, oldRecord, newRecord)
  }

  function NewGDataChangedEvent(oldRecord: ContactEntry, newRecord: ContactEntry): (e: Event)
    ensures Constructed(e) && Value(TypeOf(e)) == "gdata-change"
    ensures e.GDataChangedEvent? && e.oldRecord == oldRecord && e.newRecord == newRecord
  {
    var base := NewGDataEvent(GDataChange, oldRecord, newRecord);
    GDataChangedEvent(base.eventType, base.oldRecord, base.newRecord)
  }

  function NewGDataUpdatedEvent(oldRecord: ContactEntry, newRecord: ContactEntry): (e: Event)
    ensures Constructed(e) && Value(TypeOf(e)) == "gdata-updated"
    ensures e.GDataUpdatedEvent? && e.oldRecord == oldRecord && e.newRecord == newRecord
  {
    var base := NewGDataEvent(GDataUpdated, oldRecord, newRecord);
    GDataUpdatedEvent(base.eventType, base.oldRecord, base.newRecord)
  }

  /** A listener for `RECORD_CHANGE` hears, among the classes that fix their
      type, exactly `ModuleRecordChangeEvent` and `ModuleChangeEvent`. */
  lemma RecordChangeListenerHears(e: Event)
    requires Constructed(e) && !e.BaseEvent? && !e.GDataEvent?
    ensures Value(TypeOf(e)) == Value(RecordChange) <==> e.ModuleRecordChangeEvent? || e.ModuleChangeEvent?
  {
  }

  /** No class fixes the type `MODULE_CHANGE`: an event of that type can only
      come from one of the two base constructors, `Event` and `GDataEvent`,
      whose callers choose the type. */
  lemma ModuleChangeHasNoClass(e: Event)
    requires Constructed(e) && Value(TypeOf(e)) == Value(ModuleChange)
    ensures e.BaseEvent? || e.GDataEvent?
  {
  }

  /** Every event a class with a fixed type builds has a type named in
      `TYPES_SUGAR` or `TYPES_MODULE`, except the context-gdata-change and
      gdata-updated events, which neither list names. */
  lemma DispatchListsCoverClasses(e: Event)
    requires Constructed(e) && !e.BaseEvent? && !e.GDataEvent?
    ensures Value(TypeOf(e)) in TypesSugar() + TypesModule()
            <==> !(e.ContextGData? || e.GDataUpdatedEvent?)
  {
  }
}
