// JSON values as the services see them after parsing, and the lookups made in them.
module Json {
  import opened Wrappers
  import opened Text

  datatype Value =
    | Null
    | Bool(truth: bool)
    | Num(number: real)
    | Str(text: string)
    | Arr(items: seq<Value>)
    | Obj(fields: map<string, Value>)

  /** `typeof value === 'object' && value !== null`; arrays count. */
  predicate IsRecord(value: Option<Value>) {
    value.Some? && (value.value.Obj? || value.value.Arr?)
  }

  /** `value[key]` of a record; an array has no named properties. */
  function Property(value: Option<Value>, key: string): Option<Value> {
    if IsRecord(value) && value.value.Obj? && key in value.value.fields then Some(value.value.fields[key]) else None
  }

  /** A string property that is not blank, with its white space kept. */
  function StringProperty(value: Option<Value>, key: string): Option<string> {
    match Property(value, key)
    case Some(Str(text)) => if Trim(text) != "" then Some(text) else None
    case _ => None
  }

  function RecordProperty(value: Option<Value>, key: string): Option<Value> {
    if IsRecord(Property(value, key)) then Property(value, key) else None
  }

  /** Which strings and records are found under a key of an object; nothing is found in anything else. */
  lemma Lookups(value: Option<Value>, key: string)
    ensures StringProperty(value, key).Some? <==>
      value.Some? && value.value.Obj? && key in value.value.fields && value.value.fields[key].Str?
      && exists i :: 0 <= i < |value.value.fields[key].text| && !IsSpace(value.value.fields[key].text[i])
    ensures StringProperty(value, key).Some? ==> value.value.fields[key] == Str(StringProperty(value, key).value)
    ensures RecordProperty(value, key).Some? <==>
      value.Some? && value.value.Obj? && key in value.value.fields
      && (value.value.fields[key].Obj? || value.value.fields[key].Arr?)
    ensures RecordProperty(value, key).Some? ==> value.value.fields[key] == RecordProperty(value, key).value
  {
    hide Trim;
    if value.Some? && value.value.Obj? && key in value.value.fields && value.value.fields[key].Str? {
      BlankTrimsToNothing(value.value.fields[key].text);
    }
  }
}
