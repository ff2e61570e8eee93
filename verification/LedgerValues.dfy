/** The values found in Canton update facts, and the searches the history verifier makes in them. */
module LedgerValues {
  import opened Outcomes

  datatype LedgerValue =
    | Text(text: string)
    | Party(party: string)
    | ContractId(cid: string)
    | Numeric(number: string)
    | Boolean(flag: bool)
    | Record(fields: seq<Labelled>)
    | List(values: seq<LedgerValue>)
    | Optional(inner: Option<LedgerValue>)
    | Variant(tag: string, payload: Option<LedgerValue>)

  datatype Labelled = Labelled(key: string, value: LedgerValue)

  function OrElse<T>(first: Option<T>, second: Option<T>): Option<T> {
    if first.Some? then first else second
  }

  function Labels(fields: seq<Labelled>, name: string): Option<LedgerValue> {
    if fields == [] then None
    else if fields[0].key == name then Some(fields[0].value)
    else Labels(fields[1..], name)
  }

  /** A field of that name: in the record itself first, else in the first part that has one. */
  function Field(value: LedgerValue, name: string): Option<LedgerValue>
    decreases value, 1
  {
    match value
    case Record(fields) => OrElse(Labels(fields, name), FieldInRecord(fields, name))
    case List(values) => FieldInList(values, name)
    case Optional(Some(inner)) => Field(inner, name)
    case Variant(_, Some(payload)) => Field(payload, name)
    case _ => None
  }

  function FieldInRecord(fields: seq<Labelled>, name: string): Option<LedgerValue>
    decreases fields, 0
  {
    if fields == [] then None else OrElse(Field(fields[0].value, name), FieldInRecord(fields[1..], name))
  }

  function FieldInList(values: seq<LedgerValue>, name: string): Option<LedgerValue>
    decreases values, 0
  {
    if values == [] then None else OrElse(Field(values[0], name), FieldInList(values[1..], name))
  }

  function AsText(value: LedgerValue): Option<string> {
    match value
    case Text(text) => Some(text)
    case Party(party) => Some(party)
    case ContractId(cid) => Some(cid)
    case Optional(Some(inner)) => AsText(inner)
    case _ => None
  }

  predicate LooksNumeric(raw: string) {
    && (forall i :: 0 <= i < |raw| ==> '0' <= raw[i] <= '9' || raw[i] == '.')
    && (exists i :: 0 <= i < |raw| && '0' <= raw[i] <= '9')
  }

  function AsNumeric(value: LedgerValue): Option<string>
    decreases value, 1
  {
    match value
    case Numeric(number) => Some(number)
    case Text(text) => if LooksNumeric(text) then Some(text) else None
    case Record(fields) => NumericInRecord(fields)
    case Optional(Some(inner)) => AsNumeric(inner)
    case Variant(_, Some(payload)) => AsNumeric(payload)
    case _ => None
  }

  function NumericInRecord(fields: seq<Labelled>): Option<string>
    decreases fields, 0
  {
    if fields == [] then None else OrElse(AsNumeric(fields[0].value), NumericInRecord(fields[1..]))
  }

  function FieldText(value: Option<LedgerValue>, name: string): Option<string> {
    match value
    case None => None
    case Some(v) =>
      match Field(v, name)
      case None => None
      case Some(found) => AsText(found)
  }

  function FieldNumeric(value: Option<LedgerValue>, name: string): Option<string> {
    match value
    case None => None
    case Some(v) =>
      match Field(v, name)
      case None => None
      case Some(found) => AsNumeric(found)
  }

  predicate ContainsCid(value: LedgerValue, cid: string)
    decreases value, 1
  {
    match value
    case ContractId(c) => c == cid
    case Text(text) => text == cid
    case Record(fields) => RecordContainsCid(fields, cid)
    case List(values) => ListContainsCid(values, cid)
    case Optional(Some(inner)) => ContainsCid(inner, cid)
    case Variant(_, Some(payload)) => ContainsCid(payload, cid)
    case _ => false
  }

  predicate RecordContainsCid(fields: seq<Labelled>, cid: string)
    decreases fields, 0
  {
    fields != [] && (ContainsCid(fields[0].value, cid) || RecordContainsCid(fields[1..], cid))
  }

  predicate ListContainsCid(values: seq<LedgerValue>, cid: string)
    decreases values, 0
  {
    values != [] && (ContainsCid(values[0], cid) || ListContainsCid(values[1..], cid))
  }

  function CollectCids(value: LedgerValue): seq<string>
    decreases value, 1
  {
    match value
    case ContractId(cid) => if cid == "" then [] else [cid]
    case Text(text) => if text == "" then [] else [text]
    case Record(fields) => CollectInRecord(fields)
    case List(values) => CollectInList(values)
    case Optional(Some(inner)) => CollectCids(inner)
    case Variant(_, Some(payload)) => CollectCids(payload)
    case _ => []
  }

  function CollectInRecord(fields: seq<Labelled>): seq<string>
    decreases fields, 0
  {
    if fields == [] then [] else CollectCids(fields[0].value) + CollectInRecord(fields[1..])
  }

  function CollectInList(values: seq<LedgerValue>): seq<string>
    decreases values, 0
  {
    if values == [] then [] else CollectCids(values[0]) + CollectInList(values[1..])
  }

  /** The allocation that a settlement argument supplies for a leg. */
  function AllocationForLeg(value: LedgerValue, leg: string): Option<string>
    decreases value, 1
  {
    match value
    case Record(fields) =>
      if FieldText(Some(value), "transferLegId") == Some(leg) then
        match FieldText(Some(value), "allocationCid")
        case Some(cid) => if cid == "" then None else Some(cid)
        case None => None
      else
        AllocationInRecord(fields, leg)
    case List(values) => AllocationInList(values, leg)
    case Optional(Some(inner)) => AllocationForLeg(inner, leg)
    case Variant(_, Some(payload)) => AllocationForLeg(payload, leg)
    case _ => None
  }

  function AllocationInRecord(fields: seq<Labelled>, leg: string): Option<string>
    decreases fields, 0
  {
    if fields == [] then None else OrElse(AllocationForLeg(fields[0].value, leg), AllocationInRecord(fields[1..], leg))
  }

  function AllocationInList(values: seq<LedgerValue>, leg: string): Option<string>
    decreases values, 0
  {
    if values == [] then None else OrElse(AllocationForLeg(values[0], leg), AllocationInList(values[1..], leg))
  }

  // What a value mentions ----------------------------------------------------------------------------------

  /** The texts, parties and contract ids that occur anywhere in a value. */
  function Names(value: LedgerValue): set<string>
    decreases value, 1
  {
    match value
    case Text(text) => {text}
    case Party(party) => {party}
    case ContractId(cid) => {cid}
    case Record(fields) => NamesInRecord(fields)
    case List(values) => NamesInList(values)
    case Optional(Some(inner)) => Names(inner)
    case Variant(_, Some(payload)) => Names(payload)
    case _ => {}
  }

  function NamesInRecord(fields: seq<Labelled>): set<string>
    decreases fields, 0
  {
    if fields == [] then {} else Names(fields[0].value) + NamesInRecord(fields[1..])
  }

  function NamesInList(values: seq<LedgerValue>): set<string>
    decreases values, 0
  {
    if values == [] then {} else Names(values[0]) + NamesInList(values[1..])
  }

  function NamesIn(value: Option<LedgerValue>): set<string> {
    match value
    case None => {}
    case Some(v) => Names(v)
  }

  lemma {:induction false} TextIsNamed(value: LedgerValue)
    ensures AsText(value).Some? ==> AsText(value).value in Names(value)
    decreases value
  {
    match value
    case Optional(Some(inner)) => TextIsNamed(inner);
    case _ =>
  }

  lemma {:induction false} LabelledIsNamed(fields: seq<Labelled>, name: string)
    ensures Labels(fields, name).Some? ==> Names(Labels(fields, name).value) <= NamesInRecord(fields)
    decreases |fields|
  {
    if fields != [] && fields[0].key != name {
      LabelledIsNamed(fields[1..], name);
    }
  }

  /** Whatever a search by field name finds mentions nothing that the whole value does not. */
  lemma {:induction false} FieldIsNamed(value: LedgerValue, name: string)
    ensures Field(value, name).Some? ==> Names(Field(value, name).value) <= Names(value)
    decreases value, 1
  {
    match value
    case Record(fields) =>
      LabelledIsNamed(fields, name);
      FieldInRecordIsNamed(fields, name);
    case List(values) => FieldInListIsNamed(values, name);
    case Optional(Some(inner)) => FieldIsNamed(inner, name);
    case Variant(_, Some(payload)) => FieldIsNamed(payload, name);
    case _ =>
  }

  lemma {:induction false} FieldInRecordIsNamed(fields: seq<Labelled>, name: string)
    ensures FieldInRecord(fields, name).Some? ==> Names(FieldInRecord(fields, name).value) <= NamesInRecord(fields)
    decreases fields, 0
  {
    if fields != [] {
      FieldIsNamed(fields[0].value, name);
      FieldInRecordIsNamed(fields[1..], name);
    }
  }

  lemma {:induction false} FieldInListIsNamed(values: seq<LedgerValue>, name: string)
    ensures FieldInList(values, name).Some? ==> Names(FieldInList(values, name).value) <= NamesInList(values)
    decreases values, 0
  {
    if values != [] {
      FieldIsNamed(values[0], name);
      FieldInListIsNamed(values[1..], name);
    }
  }

  /** A field text is one of the names of the value it was found in. */
  lemma FieldTextIsNamed(value: Option<LedgerValue>, name: string)
    ensures FieldText(value, name).Some? ==> FieldText(value, name).value in NamesIn(value)
  {
    if value.Some? {
      FieldIsNamed(value.value, name);
      if Field(value.value, name).Some? {
        TextIsNamed(Field(value.value, name).value);
      }
    }
  }

  lemma {:induction false} ContainedIsNamed(value: LedgerValue, cid: string)
    ensures ContainsCid(value, cid) ==> cid in Names(value)
    decreases value, 1
  {
    match value
    case Record(fields) => ContainedInRecordIsNamed(fields, cid);
    case List(values) => ContainedInListIsNamed(values, cid);
    case Optional(Some(inner)) => ContainedIsNamed(inner, cid);
    case Variant(_, Some(payload)) => ContainedIsNamed(payload, cid);
    case _ =>
  }

  lemma {:induction false} ContainedInRecordIsNamed(fields: seq<Labelled>, cid: string)
    ensures RecordContainsCid(fields, cid) ==> cid in NamesInRecord(fields)
    decreases fields, 0
  {
    if fields != [] {
      ContainedIsNamed(fields[0].value, cid);
      ContainedInRecordIsNamed(fields[1..], cid);
    }
  }

  lemma {:induction false} ContainedInListIsNamed(values: seq<LedgerValue>, cid: string)
    ensures ListContainsCid(values, cid) ==> cid in NamesInList(values)
    decreases values, 0
  {
    if values != [] {
      ContainedIsNamed(values[0], cid);
      ContainedInListIsNamed(values[1..], cid);
    }
  }

  lemma {:induction false} LegAllocationIsNamed(value: LedgerValue, leg: string)
    ensures AllocationForLeg(value, leg).Some? ==> AllocationForLeg(value, leg).value in Names(value)
    decreases value, 1
  {
    match value
    case Record(fields) =>
      FieldTextIsNamed(Some(value), "allocationCid");
      LegAllocationInRecordIsNamed(fields, leg);
    case List(values) => LegAllocationInListIsNamed(values, leg);
    case Optional(Some(inner)) => LegAllocationIsNamed(inner, leg);
    case Variant(_, Some(payload)) => LegAllocationIsNamed(payload, leg);
    case _ =>
  }

  lemma {:induction false} LegAllocationInRecordIsNamed(fields: seq<Labelled>, leg: string)
    ensures AllocationInRecord(fields, leg).Some? ==> AllocationInRecord(fields, leg).value in NamesInRecord(fields)
    decreases fields, 0
  {
    if fields != [] {
      LegAllocationIsNamed(fields[0].value, leg);
      LegAllocationInRecordIsNamed(fields[1..], leg);
    }
  }

  lemma {:induction false} LegAllocationInListIsNamed(values: seq<LedgerValue>, leg: string)
    ensures AllocationInList(values, leg).Some? ==> AllocationInList(values, leg).value in NamesInList(values)
    decreases values, 0
  {
    if values != [] {
      LegAllocationIsNamed(values[0], leg);
      LegAllocationInListIsNamed(values[1..], leg);
    }
  }
  // What the searches find -------------------------------------------------------------------------------------------

  /** All fields of a value: those of a record first, then those of its parts, in order. */
  function AllFields(value: LedgerValue): seq<Labelled>
    decreases value, 1
  {
    match value
    case Record(fields) => fields + FieldsOfRecord(fields)
    case List(values) => FieldsOfList(values)
    case Optional(Some(inner)) => AllFields(inner)
    case Variant(_, Some(payload)) => AllFields(payload)
    case _ => []
  }

  function FieldsOfRecord(fields: seq<Labelled>): seq<Labelled>
    decreases fields, 0
  {
    if fields == [] then [] else AllFields(fields[0].value) + FieldsOfRecord(fields[1..])
  }

  function FieldsOfList(values: seq<LedgerValue>): seq<Labelled>
    decreases values, 0
  {
    if values == [] then [] else AllFields(values[0]) + FieldsOfList(values[1..])
  }

  lemma {:induction false} LabelsOfConcat(a: seq<Labelled>, b: seq<Labelled>, name: string)
    ensures Labels(a + b, name) == OrElse(Labels(a, name), Labels(b, name))
    decreases |a|
  {
    if a == [] {
      assert a + b == b;
    } else {
      LabelsOfConcat(a[1..], b, name);
      assert (a + b)[1..] == a[1..] + b;
    }
  }

  /** The search by name finds the first of all fields that has the name. */
  lemma {:induction false} FieldIsFirstOfAll(value: LedgerValue, name: string)
    ensures Field(value, name) == Labels(AllFields(value), name)
    decreases value, 1
  {
    match value
    case Record(fields) =>
      FieldInRecordIsFirst(fields, name);
      LabelsOfConcat(fields, FieldsOfRecord(fields), name);
    case List(values) => FieldInListIsFirst(values, name);
    case Optional(Some(inner)) => FieldIsFirstOfAll(inner, name);
    case Variant(_, Some(payload)) => FieldIsFirstOfAll(payload, name);
    case _ =>
  }

  lemma {:induction false} FieldInRecordIsFirst(fields: seq<Labelled>, name: string)
    ensures FieldInRecord(fields, name) == Labels(FieldsOfRecord(fields), name)
    decreases fields, 0
  {
    if fields != [] {
      FieldIsFirstOfAll(fields[0].value, name);
      FieldInRecordIsFirst(fields[1..], name);
      LabelsOfConcat(AllFields(fields[0].value), FieldsOfRecord(fields[1..]), name);
    }
  }

  lemma {:induction false} FieldInListIsFirst(values: seq<LedgerValue>, name: string)
    ensures FieldInList(values, name) == Labels(FieldsOfList(values), name)
    decreases values, 0
  {
    if values != [] {
      FieldIsFirstOfAll(values[0], name);
      FieldInListIsFirst(values[1..], name);
      LabelsOfConcat(AllFields(values[0]), FieldsOfList(values[1..]), name);
    }
  }

  /** Testing for a contract id and collecting contract ids see the same ones. */
  lemma {:induction false} ContainedIsCollected(value: LedgerValue, cid: string)
    requires cid != ""
    ensures ContainsCid(value, cid) <==> cid in CollectCids(value)
    decreases value, 1
  {
    match value
    case Record(fields) => ContainedInRecordIsCollected(fields, cid);
    case List(values) => ContainedInListIsCollected(values, cid);
    case Optional(Some(inner)) => ContainedIsCollected(inner, cid);
    case Variant(_, Some(payload)) => ContainedIsCollected(payload, cid);
    case _ =>
  }

  lemma {:induction false} ContainedInRecordIsCollected(fields: seq<Labelled>, cid: string)
    requires cid != ""
    ensures RecordContainsCid(fields, cid) <==> cid in CollectInRecord(fields)
    decreases fields, 0
  {
    if fields != [] {
      ContainedIsCollected(fields[0].value, cid);
      ContainedInRecordIsCollected(fields[1..], cid);
    }
  }

  lemma {:induction false} ContainedInListIsCollected(values: seq<LedgerValue>, cid: string)
    requires cid != ""
    ensures ListContainsCid(values, cid) <==> cid in CollectInList(values)
    decreases values, 0
  {
    if values != [] {
      ContainedIsCollected(values[0], cid);
      ContainedInListIsCollected(values[1..], cid);
    }
  }
}
