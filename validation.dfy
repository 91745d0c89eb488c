/**
 * The required-field validators `validateFieldData` and
 * `validateFieldConditions`: each walks a fixed, ordered list of field
 * names and reports the first one that is absent, undefined, null or the
 * empty string.
 */
module Validation {

  datatype Option<T> = None | Some(value: T)

  /** The keys of a field-data record, in declaration order. */
  datatype Field =
    | CropType | Season | Area | SoilPH | Nitrogen
    | Phosphorus | Potassium | Rainfall | Temperature | Humidity

  /** A property value as it can appear in a partially filled record. */
  datatype Value = Undefined | Null | Text(text: string) | Number(number: real)

  /** A partially filled record: a key that is not in the map is absent. */
  type PartialRecord = map<Field, Value>

  /** The `{ error: "Missing field: <name>" }` result, naming the field. */
  datatype ValidationError = MissingField(field: Field)

  /** A field passes when it is neither absent, undefined, null nor "". */
  predicate Present(data: PartialRecord, f: Field)
  {
    f in data && data[f] != Undefined && data[f] != Null && data[f] != Text("")
  }

  const FieldDataFields: seq<Field> :=
    [CropType, Season, Area, SoilPH, Nitrogen, Phosphorus, Potassium, Rainfall, Temperature, Humidity]

  const FieldConditionsFields: seq<Field> :=
    [Season, Area, SoilPH, Nitrogen, Phosphorus, Potassium, Rainfall, Temperature, Humidity]

  /**
   * The field-data list names every field once, crop type first; the
   * field-conditions list is the same list without the crop type.
   */
  lemma RequiredFieldLists()
    ensures forall f: Field :: f in FieldDataFields
    ensures forall i, j :: 0 <= i < j < |FieldDataFields| ==> FieldDataFields[i] != FieldDataFields[j]
    ensures FieldDataFields[0] == CropType
    ensures FieldConditionsFields == FieldDataFields[1..]
  {
    forall f: Field
      ensures f in FieldDataFields
    {
      match f
      case CropType => assert FieldDataFields[0] == f;
      case Season => assert FieldDataFields[1] == f;
      case Area => assert FieldDataFields[2] == f;
      case SoilPH => assert FieldDataFields[3] == f;
      case Nitrogen => assert FieldDataFields[4] == f;
      case Phosphorus => assert FieldDataFields[5] == f;
      case Potassium => assert FieldDataFields[6] == f;
      case Rainfall => assert FieldDataFields[7] == f;
      case Temperature => assert FieldDataFields[8] == f;
      case Humidity => assert FieldDataFields[9] == f;
    }
  }

  /** Field `f` is the first of `required` that is missing from `data`. */
  predicate FirstMissing(required: seq<Field>, data: PartialRecord, f: Field)
  {
    exists i :: 0 <= i < |required| && required[i] == f && !Present(data, f) &&
      forall k :: 0 <= k < i ==> Present(data, required[k])
  }

  /** The loop shared by both validators: scan `required` in order, stop at the first missing field. */
  method FindMissing(required: seq<Field>, data: PartialRecord) returns (missing: Option<Field>)
    ensures missing.None? <==> forall i :: 0 <= i < |required| ==> Present(data, required[i])
    ensures missing.Some? ==> FirstMissing(required, data, missing.value)
  {
    for i := 0 to |required|
      invariant forall k :: 0 <= k < i ==> Present(data, required[k])
    {
      if !Present(data, required[i]) {
        return Some(required[i]);
      }
    }
    return None;
  }

  method ValidateFieldData(data: PartialRecord) returns (err: Option<ValidationError>)
    ensures err.None? <==> forall f :: f in FieldDataFields ==> Present(data, f)
    ensures err.Some? ==> FirstMissing(FieldDataFields, data, err.value.field)
  {
    var missing := FindMissing(FieldDataFields, data);
    err := if missing.Some? then Some(MissingField(missing.value)) else None;
  }

  method ValidateFieldConditions(data: PartialRecord) returns (err: Option<ValidationError>)
    ensures err.None? <==> forall f :: f in FieldConditionsFields ==> Present(data, f)
    ensures err.Some? ==> FirstMissing(FieldConditionsFields, data, err.value.field)
    ensures err.Some? ==> err.value.field != CropType
  {
    var missing := FindMissing(FieldConditionsFields, data);
    err := if missing.Some? then Some(MissingField(missing.value)) else None;
  }

  /** At most one field can be the first missing one: the error is determined by the input. */
  lemma FirstMissingUnique(required: seq<Field>, data: PartialRecord, f: Field, g: Field)
    requires FirstMissing(required, data, f) && FirstMissing(required, data, g)
    ensures f == g
  {
    var i :| 0 <= i < |required| && required[i] == f && !Present(data, f) &&
      forall k :: 0 <= k < i ==> Present(data, required[k]);
    var j :| 0 <= j < |required| && required[j] == g && !Present(data, g) &&
      forall k :: 0 <= k < j ==> Present(data, required[k]);
    assert !(i < j) && !(j < i) by {
      if i < j {
        assert false;
      } else if j < i {
        assert false;
      }
    }
  }

  /** The position of the first occurrence of `f` in `s`. */
  function IndexOf(s: seq<Field>, f: Field): (r: nat)
    requires f in s
    ensures r < |s| && s[r] == f
    ensures forall k :: 0 <= k < r ==> s[k] != f
  {
    if s[0] == f then 0 else 1 + IndexOf(s[1..], f)
  }

  /** When exactly one field is missing, that is the field the error names. */
  lemma OnlyMissingFieldIsReported(required: seq<Field>, data: PartialRecord, f: Field)
    requires f in required && !Present(data, f)
    requires forall g :: g in required && g != f ==> Present(data, g)
    ensures FirstMissing(required, data, f)
  {
    var i := IndexOf(required, f);
    assert forall k :: 0 <= k < i ==> required[k] in required && required[k] != f;
  }
}
