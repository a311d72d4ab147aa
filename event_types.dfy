/** The event-type enumeration `ydn.crm.sugar.model.events.Type` of the SugarCRM
    record models, and the two lists of types that the Sugar model and the Module
    model dispatch. */
module EventTypes {

  datatype Option<T> = None | Some(value: T)

  /** The seven members of the enumeration. */
  datatype EventType =
    | ContextDataChange
    | ContextGDataChange
    | ModuleChange   // change in module name
    | RecordChange   // change in record primary key
    | RecordUpdate   // record value changes
    | GDataChange
    | GDataUpdated

  /** The exported string that a member stands for (the event's `type`). Each
      is its member's property name in lower case with `-` for `_`. */
  function Value(t: EventType): (s: string)
    ensures |s| == |MemberName(t)|
    ensures forall i :: 0 <= i < |s| ==> s[i] == KebabChar(MemberName(t)[i])
  {
    match t
    case ContextDataChange => "context-data-change"
    case ContextGDataChange => "context-gdata-change"
    case ModuleChange => "module-change"
    case RecordChange => "record-change"
    case RecordUpdate => "record-update"
    case GDataChange => "gdata-change"
    case GDataUpdated => "gdata-updated"
  }

  /** The property name under which a member is declared on the enum object:
      upper-case letters and underscores. */
  function MemberName(t: EventType): (name: string)
    ensures |name| > 0
    ensures forall i :: 0 <= i < |name| ==> name[i] == '_' || 'A' <= name[i] <= 'Z'
  {
    match t
    case ContextDataChange => "CONTEXT_DATA_CHANGE"
    case ContextGDataChange => "CONTEXT_GDATA_CHANGE"
    case ModuleChange => "MODULE_CHANGE"
    case RecordChange => "RECORD_CHANGE"
    case RecordUpdate => "RECORD_UPDATE"
    case GDataChange => "GDATA_CHANGE"
    case GDataUpdated => "GDATA_UPDATED"
  }

  /** The character of an exported string that stands for a character of a
      property name. */
  function KebabChar(c: char): char
  {
    if c == '_' then '-'
    else if 'A' <= c <= 'Z' then (c as int - 'A' as int + 'a' as int) as char
    else c
  }

  /** The seven exported strings are pairwise distinct, so a listener keyed on a
      string hears exactly one member. */
  lemma ValuesDistinct()
    ensures forall t1: EventType, t2: EventType :: t1 != t2 ==> Value(t1) != Value(t2)
  {
  }

  /** The seven property names are pairwise distinct, so no member of the
      object literal is overwritten by a later one with the same name. */
  lemma MemberNamesDistinct()
    ensures forall t1: EventType, t2: EventType :: t1 != t2 ==> MemberName(t1) != MemberName(t2)
  {
  }

  /** Which member, if any, an event-type string stands for. */
  function Parse(s: string): (r: Option<EventType>)
    ensures r.Some? ==> Value(r.value) == s
    ensures r.None? <==> forall t: EventType :: Value(t) != s
  {
    if s == "context-data-change" then Some(ContextDataChange)
    else if s == "context-gdata-change" then Some(ContextGDataChange)
    else if s == "module-change" then Some(ModuleChange)
    else if s == "record-change" then Some(RecordChange)
    else if s == "record-update" then Some(RecordUpdate)
    else if s == "gdata-change" then Some(GDataChange)
    else if s == "gdata-updated" then Some(GDataUpdated)
    else None
  }

  /** Parsing the string of a member gives that member back. */
  lemma ParseValue(t: EventType)
    ensures Parse(Value(t)) == Some(t)
  {
  }

  /** Reading an own property of the enum object: `Type[name]`, which is
      `undefined` (None) for a name that is not one of the seven members.
      Names inherited from `Object.prototype` are not considered. */
  function Lookup(name: string): (r: Option<EventType>)
    ensures r.Some? ==> MemberName(r.value) == name
    ensures r.None? <==> forall t: EventType :: MemberName(t) != name
  {
    if name == "CONTEXT_DATA_CHANGE" then Some(ContextDataChange)
    else if name == "CONTEXT_GDATA_CHANGE" then Some(ContextGDataChange)
    else if name == "MODULE_CHANGE" then Some(ModuleChange)
    else if name == "RECORD_CHANGE" then Some(RecordChange)
    else if name == "RECORD_UPDATE" then Some(RecordUpdate)
    else if name == "GDATA_CHANGE" then Some(GDataChange)
    else if name == "GDATA_UPDATED" then Some(GDataUpdated)
    else None
  }

  /** The Module body listens for `Type.NEW_GDATA`, which the enumeration does
      not declare: that property reads as undefined. */
  lemma NewGDataIsUndeclared()
    ensures Lookup("NEW_GDATA") == None
  {
  }

  /** `TYPES_SUGAR`: the events dispatched by the Sugar model. Every entry is
      the string of an enumeration member, and none is repeated. */
  function TypesSugar(): (r: seq<string>)
    ensures forall s :: s in r ==> Parse(s).Some?
    ensures forall i, j :: 0 <= i < j < |r| ==> r[i] != r[j]
  {
    [Value(ContextDataChange), Value(RecordChange), Value(GDataChange)]
  }

  /** `TYPES_MODULE`: the events dispatched by the Module model. Every entry is
      the string of an enumeration member, and none is repeated. */
  function TypesModule(): (r: seq<string>)
    ensures forall s :: s in r ==> Parse(s).Some?
    ensures forall i, j :: 0 <= i < j < |r| ==> r[i] != r[j]
  {
    [Value(ModuleChange), Value(RecordChange), Value(RecordUpdate)]
  }

  /** `RECORD_CHANGE` is the one type that both models dispatch. */
  lemma ListsShareOnlyRecordChange()
    ensures forall s :: s in TypesSugar() && s in TypesModule() <==> s == Value(RecordChange)
  {
  }
}
