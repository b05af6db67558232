/**
 * `CFindSeriesIOD`: the identifier of a series-level C-FIND query. Each property reads
 * or writes one element of the underlying data set: setting a property creates the
 * element if it is missing ("forges" it) and replaces its data; reading a missing
 * element yields null. Integer-string properties hold a list of integers, of which the
 * first is the property's value.
 */
module CFindSeries {
  import opened DicomCore
  import opened Wrappers
  import StringDataParsing

  /** The Query/Retrieve Level values of DICOM PS3.4 Annex C, as the enum names them. */
  datatype QueryLevel = PATIENT | STUDY | SERIES | IMAGE

  /** `ToString()` of a level: its name. */
  function LevelName(l: QueryLevel): string {
    match l
    case PATIENT => "PATIENT"
    case STUDY => "STUDY"
    case SERIES => "SERIES"
    case IMAGE => "IMAGE"
  }

  /** `Enum.Parse` on the level names. */
  function ParseLevel(name: string): (r: Option<QueryLevel>)
    ensures r.Some? ==> LevelName(r.value) == name
    ensures r.None? ==> forall l: QueryLevel :: LevelName(l) != name
  {
    if name == "PATIENT" then Some(PATIENT)
    else if name == "STUDY" then Some(STUDY)
    else if name == "SERIES" then Some(SERIES)
    else if name == "IMAGE" then Some(IMAGE)
    else Option.None
  }

  /** The data of an element, as the typed element that holds it exposes it. */
  datatype ElementData =
    | Text(text: Option<string>)               // string elements: CS, UI, LO; null allowed
    | Integers(ints: seq<int32>)               // IS: the list `Data_`
    | Instant(when: Option<StringDataParsing.DateTime>)  // DA, TM; null allowed

  /** A data set: the elements present, by tag. */
  type DataSet = map<Tag, ElementData>

  // The tags of DICOM PS3.6 that the properties address.
  const QueryRetrieveLevelTag := Tag(0x0008, 0x0052)
  const SeriesDateTag := Tag(0x0008, 0x0021)
  const SeriesTimeTag := Tag(0x0008, 0x0031)
  const ModalityTag := Tag(0x0008, 0x0060)
  const SeriesDescriptionTag := Tag(0x0008, 0x103E)
  const StudyInstanceUIDTag := Tag(0x0020, 0x000D)
  const SeriesInstanceUIDTag := Tag(0x0020, 0x000E)
  const SeriesNumberTag := Tag(0x0020, 0x0011)
  const NumberOfSeriesRelatedInstancesTag := Tag(0x0020, 0x1209)

  /** The nine tags, in the order the properties are declared. */
  const PropertyTags: seq<Tag> := [QueryRetrieveLevelTag, StudyInstanceUIDTag, SeriesNumberTag,
    NumberOfSeriesRelatedInstancesTag, SeriesDescriptionTag, ModalityTag, SeriesDateTag,
    SeriesTimeTag, SeriesInstanceUIDTag]

  /** No two properties share an element, so setting one cannot disturb another. */
  lemma PropertyTagsDistinct()
    ensures forall i, j :: 0 <= i < j < |PropertyTags| ==> PropertyTags[i] != PropertyTags[j]
  {
  }

  /** The failures of the level getter. */
  datatype QueryError =
    | NullReference           // the element is missing
    | ArgumentNull            // the element holds a null string
    | UnknownLevel(name: string)  // the element holds a string that names no level

  /** The text of a string element; null when it is missing or not a string element. */
  function TextAt(ds: DataSet, t: Tag): (r: Option<string>)
    ensures r.Some? ==> t in ds && ds[t] == Text(r)
    ensures t in ds && ds[t].Text? ==> r == ds[t].text
  {
    if t in ds && ds[t].Text? then ds[t].text else Option.None
  }

  /** The first integer of an integer-string element; null when missing or empty. */
  function FirstIntAt(ds: DataSet, t: Tag): (r: Option<int32>)
    ensures r.Some? <==> t in ds && ds[t].Integers? && |ds[t].ints| > 0
    ensures r.Some? ==> r.value == ds[t].ints[0]
  {
    if t in ds && ds[t].Integers? && |ds[t].ints| > 0 then Some(ds[t].ints[0]) else Option.None
  }

  /** The date or time of a date or time element; null when missing. */
  function InstantAt(ds: DataSet, t: Tag): (r: Option<StringDataParsing.DateTime>)
    ensures r.Some? ==> t in ds && ds[t] == Instant(r)
    ensures t in ds && ds[t].Instant? ==> r == ds[t].when
  {
    if t in ds && ds[t].Instant? then ds[t].when else Option.None
  }

  /** The list an integer property stores: the one value, or nothing for null. */
  function IntsOf(v: Option<int32>): (ints: seq<int32>)
    ensures |ints| <= 1 && (|ints| == 1 <==> v.Some?)
    ensures v.Some? ==> ints[0] == v.value
  {
    if v.Some? then [v.value] else []
  }

  /** Whether the selector finds a string element under the level tag; a missing or mistyped element reads as null. */
  predicate HasLevelElement(ds: DataSet) {
    QueryRetrieveLevelTag in ds && ds[QueryRetrieveLevelTag].Text?
  }

  /**
   * The level getter as written: a missing element is dereferenced (the intended
   * default to PATIENT is never reached), a null string is refused by the parse, and
   * any other string must name a level.
   */
  function LevelAt(ds: DataSet): (r: Result<QueryLevel, QueryError>)
    ensures r.Ok? <==> TextAt(ds, QueryRetrieveLevelTag).Some?
                       && ParseLevel(TextAt(ds, QueryRetrieveLevelTag).value).Some?
    ensures r.Ok? ==> LevelName(r.value) == TextAt(ds, QueryRetrieveLevelTag).value
  {
    if !HasLevelElement(ds) then Err(NullReference)
    else
      match TextAt(ds, QueryRetrieveLevelTag)
      case None => Err(ArgumentNull)
      case Some(name) =>
        match ParseLevel(name)
        case Some(l) => Result.Ok(l)
        case None => Err(UnknownLevel(name))
  }

  /** A missing (or mistyped) level element makes the getter fail rather than answer PATIENT. */
  lemma MissingLevelFails(ds: DataSet)
    requires !HasLevelElement(ds)
    ensures LevelAt(ds) == Err(NullReference)
  {
  }

  /** The empty data set shows it: its level is not PATIENT but an error. */
  lemma EmptyQueryLevelFails()
    ensures LevelAt(map[]) != Result.Ok(PATIENT)
  {
    MissingLevelFails(map[]);
  }

  /** The getter as intended: a missing (or mistyped) element stands for PATIENT and is stored as such. */
  function LevelOrPatient(ds: DataSet): (r: (Result<QueryLevel, QueryError>, DataSet))
    ensures !HasLevelElement(ds) ==> r == (Result.Ok(PATIENT), ds[QueryRetrieveLevelTag := Text(Some("PATIENT"))])
    ensures HasLevelElement(ds) ==> r == (LevelAt(ds), ds)
  {
    if !HasLevelElement(ds) then
      var stored := ds[QueryRetrieveLevelTag := Text(Some(LevelName(PATIENT)))];
      (LevelAt(stored), stored)
    else (LevelAt(ds), ds)
  }

  /** The level names parse back to their levels. */
  lemma {:induction false} LevelNameRoundTrip(l: QueryLevel)
    ensures ParseLevel(LevelName(l)) == Some(l)
  {
    match l
    case PATIENT =>
    case STUDY => assert LevelName(l) != "PATIENT";
    case SERIES => assert LevelName(l) != "PATIENT" && LevelName(l) != "STUDY";
    case IMAGE => assert LevelName(l) != "PATIENT" && LevelName(l) != "STUDY" && LevelName(l) != "SERIES";
  }

  /** Setting the level and reading it back gives the level set. */
  lemma QueryLevelRoundTrip(ds: DataSet, l: QueryLevel)
    ensures LevelAt(ds[QueryRetrieveLevelTag := Text(Some(LevelName(l)))]) == Result.Ok(l)
    ensures LevelOrPatient(ds[QueryRetrieveLevelTag := Text(Some(LevelName(l)))]).0 == Result.Ok(l)
  {
    LevelNameRoundTrip(l);
  }

  /** Setting a string property and reading it back gives the string (or the null) set. */
  lemma TextRoundTrip(ds: DataSet, t: Tag, v: Option<string>)
    ensures TextAt(ds[t := Text(v)], t) == v
  {
  }

  /** Setting an integer property and reading it back gives the value (or the null) set. */
  lemma IntegerRoundTrip(ds: DataSet, t: Tag, v: Option<int32>)
    ensures FirstIntAt(ds[t := Integers(IntsOf(v))], t) == v
  {
  }

  /** Setting a date or time property and reading it back gives the value (or the null) set. */
  lemma InstantRoundTrip(ds: DataSet, t: Tag, v: Option<StringDataParsing.DateTime>)
    ensures InstantAt(ds[t := Instant(v)], t) == v
  {
  }

  /** Writing the element of one tag leaves every property read from another tag as it was. */
  lemma OtherPropertiesUnchanged(ds: DataSet, t: Tag, d: ElementData, u: Tag)
    requires u != t
    ensures TextAt(ds[t := d], u) == TextAt(ds, u)
    ensures FirstIntAt(ds[t := d], u) == FirstIntAt(ds, u)
    ensures InstantAt(ds[t := d], u) == InstantAt(ds, u)
    ensures t != QueryRetrieveLevelTag ==> LevelAt(ds[t := d]) == LevelAt(ds)
  {
  }

  /** The data set of a query built with the default constructor. */
  function DefaultQuery(): DataSet {
    map[QueryRetrieveLevelTag := Text(Some(LevelName(SERIES))),
        StudyInstanceUIDTag := Text(Some("")),
        SeriesInstanceUIDTag := Text(Some("")),
        SeriesNumberTag := Integers(IntsOf(Option.None)),
        NumberOfSeriesRelatedInstancesTag := Integers(IntsOf(Option.None)),
        SeriesDescriptionTag := Text(Some("")),
        ModalityTag := Text(Some("")),
        SeriesDateTag := Instant(Option.None),
        SeriesTimeTag := Instant(Option.None)]
  }

  /**
   * A default query asks at series level; its UIDs, description and modality are
   * present but empty; its series number, instance count, date and time are null.
   */
  lemma DefaultQueryValues()
    ensures LevelAt(DefaultQuery()) == Result.Ok(SERIES)
    ensures forall t :: t in {StudyInstanceUIDTag, SeriesInstanceUIDTag, SeriesDescriptionTag, ModalityTag} ==>
              t in DefaultQuery() && TextAt(DefaultQuery(), t) == Some("")
    ensures FirstIntAt(DefaultQuery(), SeriesNumberTag).None?
    ensures FirstIntAt(DefaultQuery(), NumberOfSeriesRelatedInstancesTag).None?
    ensures InstantAt(DefaultQuery(), SeriesDateTag).None? && InstantAt(DefaultQuery(), SeriesTimeTag).None?
  {
    LevelNameRoundTrip(SERIES);
  }

  class CFindSeriesIOD {
    var dataset: DataSet

    /** The default constructor: a series-level query with every other field blank or null. */
    constructor ()
      ensures dataset == DefaultQuery()
    {
      dataset := map[];
      new;
      SetQueryLevel(SERIES);
      SetStudyInstanceUID(Some(""));
      SetSeriesInstanceUID(Some(""));
      SetSeriesNumber(Option.None);
      SetNumberOfSeriesRelatedInstances(Option.None);
      SetSeriesDescription(Some(""));
      SetModality(Some(""));
      SetSeriesDate(Option.None);
      SetSeriesTime(Option.None);
    }

    /** The constructor over an existing object: its elements become the query's. */
    constructor FromObject(dcm: DataSet)
      ensures dataset == dcm
    {
      dataset := dcm;
    }

    /** `Forge(tag).Data = d`: the element of `t`, created if missing, now holds `d`. */
    method Forge(t: Tag, d: ElementData)
      modifies this
      ensures dataset == old(dataset)[t := d]
    {
      dataset := dataset[t := d];
    }

    /**
     * The level getter, as intended: a missing element is first stored as PATIENT.
     * A null or unknown name still fails, as the parse does.
     */
    method QueryLevelValue() returns (r: Result<QueryLevel, QueryError>)
      modifies this
      ensures (r, dataset) == LevelOrPatient(old(dataset))
    {
      if !HasLevelElement(dataset) {
        Forge(QueryRetrieveLevelTag, Text(Some(LevelName(PATIENT))));
      }
      r := LevelAt(dataset);
    }

    method SetQueryLevel(l: QueryLevel)
      modifies this
      ensures dataset == old(dataset)[QueryRetrieveLevelTag := Text(Some(LevelName(l)))]
    {
      Forge(QueryRetrieveLevelTag, Text(Some(LevelName(l))));
    }

    function StudyInstanceUID(): Option<string>
      reads this
    {
      TextAt(dataset, StudyInstanceUIDTag)
    }

    method SetStudyInstanceUID(v: Option<string>)
      modifies this
      ensures dataset == old(dataset)[StudyInstanceUIDTag := Text(v)]
      ensures StudyInstanceUID() == v
    {
      Forge(StudyInstanceUIDTag, Text(v));
    }

    function SeriesNumber(): Option<int32>
      reads this
    {
      FirstIntAt(dataset, SeriesNumberTag)
    }

    method SetSeriesNumber(v: Option<int32>)
      modifies this
      ensures dataset == old(dataset)[SeriesNumberTag := Integers(IntsOf(v))]
      ensures SeriesNumber() == v
    {
      Forge(SeriesNumberTag, Integers(IntsOf(v)));
    }

    function NumberOfSeriesRelatedInstances(): Option<int32>
      reads this
    {
      FirstIntAt(dataset, NumberOfSeriesRelatedInstancesTag)
    }

    method SetNumberOfSeriesRelatedInstances(v: Option<int32>)
      modifies this
      ensures dataset == old(dataset)[NumberOfSeriesRelatedInstancesTag := Integers(IntsOf(v))]
      ensures NumberOfSeriesRelatedInstances() == v
    {
      Forge(NumberOfSeriesRelatedInstancesTag, Integers(IntsOf(v)));
    }

    function SeriesDescription(): Option<string>
      reads this
    {
      TextAt(dataset, SeriesDescriptionTag)
    }

    method SetSeriesDescription(v: Option<string>)
      modifies this
      ensures dataset == old(dataset)[SeriesDescriptionTag := Text(v)]
      ensures SeriesDescription() == v
    {
      Forge(SeriesDescriptionTag, Text(v));
    }

    function Modality(): Option<string>
      reads this
    {
      TextAt(dataset, ModalityTag)
    }

    method SetModality(v: Option<string>)
      modifies this
      ensures dataset == old(dataset)[ModalityTag := Text(v)]
      ensures Modality() == v
    {
      Forge(ModalityTag, Text(v));
    }

    function SeriesDate(): Option<StringDataParsing.DateTime>
      reads this
    {
      InstantAt(dataset, SeriesDateTag)
    }

    method SetSeriesDate(v: Option<StringDataParsing.DateTime>)
      modifies this
      ensures dataset == old(dataset)[SeriesDateTag := Instant(v)]
      ensures SeriesDate() == v
    {
      Forge(SeriesDateTag, Instant(v));
    }

    function SeriesTime(): Option<StringDataParsing.DateTime>
      reads this
    {
      InstantAt(dataset, SeriesTimeTag)
    }

    method SetSeriesTime(v: Option<StringDataParsing.DateTime>)
      modifies this
      ensures dataset == old(dataset)[SeriesTimeTag := Instant(v)]
      ensures SeriesTime() == v
    {
      Forge(SeriesTimeTag, Instant(v));
    }

    function SeriesInstanceUID(): Option<string>
      reads this
    {
      TextAt(dataset, SeriesInstanceUIDTag)
    }

    method SetSeriesInstanceUID(v: Option<string>)
      modifies this
      ensures dataset == old(dataset)[SeriesInstanceUIDTag := Text(v)]
      ensures SeriesInstanceUID() == v
    {
      Forge(SeriesInstanceUIDTag, Text(v));
    }
  }
}
