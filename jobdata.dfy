/**
 * The data record behind every job (molequeue/jobdata.cpp): its default
 * values, its export to a QVariantHash and its import from one.
 *
 * The import reads both ids with QVariant::toUInt, a 32-bit conversion of
 * a 64-bit id; `FromHashAsWritten` keeps that, `FromHash` reads them with
 * the 64-bit conversion, which the rest of the model uses.
 */
module JobDataModel {
  import opened QtVariant
  import opened IdTypes
  import TextOps
  import JobStates

  /** The fields hash() exports and setFromHash() assigns. */
  datatype JobFields = JobFields(
    queue: string,
    program: string,
    jobState: JobStates.JobState,
    description: string,
    inputAsPath: string,
    inputAsString: string,
    outputDirectory: string,
    localWorkingDirectory: string,
    cleanRemoteFiles: bool,
    retrieveOutput: bool,
    cleanLocalWorkingDirectory: bool,
    hideFromGui: bool,
    popupOnStateChange: bool,
    moleQueueId: IdType,
    queueId: IdType)

  /** The constructor's values: state None, output retrieved, a popup on change, both ids invalid. */
  const Defaults: JobFields := JobFields("", "", JobStates.None, "", "", "", "", "",
                                         false, true, false, false, true, InvalidId, InvalidId)

  const HashKeys: set<string> := {
    "queue", "program", "jobState", "description", "inputAsPath", "inputAsString",
    "outputDirectory", "localWorkingDirectory", "cleanRemoteFiles", "retrieveOutput",
    "cleanLocalWorkingDirectory", "hideFromGui", "popupOnStateChange", "moleQueueId", "queueId"}

  const UIntLimit: int := 0x1_0000_0000
  const IntLimit: int := 0x8000_0000

  // ---- the QVariant conversions setFromHash uses ----

  /** QVariantHash::value(key, default). */
  function ValueOr(h: map<string, Variant>, key: string, default: Variant): Variant {
    if key in h then h[key] else default
  }

  /**
   * QVariant::toString: text as it is, integers in decimal, booleans as
   * "true" or "false"; a double and the types with no text reading give
   * the empty text.
   */
  function ToText(v: Variant): string {
    match v
    case VString(s) => s
    case VByteArray(b) => b
    case VBool(b) => if b then "true" else "false"
    case VInt(i) => SignedDecimal(i)
    case VUInt(u) => SignedDecimal(u)
    case VLongLong(ll) => SignedDecimal(ll)
    case VULongLong(ull) => SignedDecimal(ull)
    case _ => ""
  }

  /** QVariant::toBool on text: false only for "", "0" and "false" in any letter case. */
  function TextToBool(s: string): (b: bool)
    ensures !b <==> TextOps.Lower(s) in {"", "0", "false"}
  {
    var t := TextOps.Lower(s);
    !(t == "" || t == "0" || t == "false")
  }

  /** QVariant::toBool: numbers are true when non-zero, text as TextToBool reads it. */
  function ToBool(v: Variant): bool {
    match v
    case VBool(b) => b
    case VInt(i) => i != 0
    case VUInt(u) => u != 0
    case VLongLong(ll) => ll != 0
    case VULongLong(ull) => ull != 0
    case VDouble(d) => d != 0.0
    case VString(s) => TextToBool(s)
    case VByteArray(s) => TextToBool(s)
    case _ => false
  }

  /** Truncation to a signed 32-bit value. */
  function Wrap32(x: int): (r: int)
    ensures -IntLimit <= r < IntLimit
    ensures -IntLimit <= x < IntLimit ==> r == x
  {
    (x + IntLimit) % UIntLimit - IntLimit
  }

  /** QVariant::toULongLong: types with no numeric reading give 0. */
  function ToULongLong(v: Variant): (r: IdType)
    ensures v.VULongLong? && v.ull < IdLimit ==> r == v.ull
  {
    match v
    case VInvalid => 0
    case VList(_) => 0
    case VHash(_) => 0
    case VOther => 0
    case _ => VariantToIdType(v)
  }

  /** QVariant::toUInt: the unsigned 64-bit reading cut to its low 32 bits. */
  function ToUInt(v: Variant): (r: nat)
    ensures r < UIntLimit
    ensures r == ToULongLong(v) % UIntLimit
  {
    ToULongLong(v) % UIntLimit
  }

  /** QVariant::toInt: the integer reading cut to a signed 32-bit value. */
  function ToInt(v: Variant): (r: int)
    ensures v.VInt? ==> r == Wrap32(v.i)
  {
    match v
    case VBool(b) => if b then 1 else 0
    case VInt(i) => Wrap32(i)
    case VUInt(u) => Wrap32(u)
    case VLongLong(ll) => Wrap32(ll)
    case VULongLong(ull) => Wrap32(ull)
    case VDouble(d) => Wrap32(Round64(d))
    case VString(s) => TextToInt(s)
    case VByteArray(s) => TextToInt(s)
    case _ => 0
  }

  /** QVariant::toInt on text: the value toLongLong reads, cut to 32 bits; 0 when it reads none. */
  function TextToInt(s: string): (r: int)
    ensures -IntLimit <= r < IntLimit
    ensures ToLongLong(s).None? ==> r == 0
    ensures ToLongLong(s).Some? ==> r == Wrap32(ToLongLong(s).value)
  {
    match ToLongLong(s)
    case Some(v) => Wrap32(v)
    case None => 0
  }

  lemma TextToIntAlike(s: string, t: string)
    requires ToLongLong(s) == ToLongLong(t)
    ensures TextToInt(s) == TextToInt(t)
  {
  }

  lemma TextVariantToInt(s: string)
    ensures ToInt(VString(s)) == TextToInt(s)
  {
  }

  /** A boolean turned into text reads back as the same boolean. */
  lemma BoolTextReadsBack(b: bool)
    ensures ToBool(VString(ToText(VBool(b)))) == b
  {
    if !b {
      assert TextOps.Lower("false") == "false";
    }
  }

  /** A 64-bit integer turned into text reads back as the same 32-bit value toInt gives it directly. */
  lemma {:induction false} IntTextReadsBack(i: int)
    requires Int64Min <= i < Int64Limit
    ensures ToInt(VString(ToText(VLongLong(i)))) == ToInt(VLongLong(i))
  {
    var s := SignedDecimal(i);
    assert ToText(VLongLong(i)) == s;
    TextVariantToInt(s);
    SignedDecimalRoundTrip(i);
    assert TextToInt(s) == Wrap32(i);
  }

  /** White space around a number does not change what toInt reads: " 5 " is 5. */
  lemma {:induction false} PaddedIntReadsAlike(pre: string, t: string, post: string)
    requires TextOps.AllSpace(pre) && TextOps.AllSpace(post) && Bare(t)
    ensures ToInt(VString(pre + t + post)) == ToInt(VString(t))
  {
    var x := pre + t + post;
    PaddedReadsAlike(pre, t, post);
    TextVariantToInt(x);
    TextVariantToInt(t);
    TextToIntAlike(x, t);
  }

  // ---- export and import ----

  /** hash(): the fields under their own names; the state as its integer, ids as 64-bit values. */
  function Hash(f: JobFields): map<string, Variant> {
    map[
      "queue" := VString(f.queue),
      "program" := VString(f.program),
      "jobState" := VInt(JobStates.Ordinal(f.jobState)),
      "description" := VString(f.description),
      "inputAsPath" := VString(f.inputAsPath),
      "inputAsString" := VString(f.inputAsString),
      "outputDirectory" := VString(f.outputDirectory),
      "localWorkingDirectory" := VString(f.localWorkingDirectory),
      "cleanRemoteFiles" := VBool(f.cleanRemoteFiles),
      "retrieveOutput" := VBool(f.retrieveOutput),
      "cleanLocalWorkingDirectory" := VBool(f.cleanLocalWorkingDirectory),
      "hideFromGui" := VBool(f.hideFromGui),
      "popupOnStateChange" := VBool(f.popupOnStateChange),
      "moleQueueId" := VULongLong(f.moleQueueId),
      "queueId" := VULongLong(f.queueId)]
  }

  /** Every field but the ids, as setFromHash reads them: a missing key gives the stated default. */
  function FromHashWithIds(h: map<string, Variant>, moleQueueId: IdType, queueId: IdType): JobFields {
    JobFields(
      ToText(ValueOr(h, "queue", VString(""))),
      ToText(ValueOr(h, "program", VString(""))),
      JobStates.FromOrdinal(ToInt(ValueOr(h, "jobState", VInt(JobStates.Ordinal(JobStates.None))))),
      ToText(ValueOr(h, "description", VString(""))),
      ToText(ValueOr(h, "inputAsPath", VString(""))),
      ToText(ValueOr(h, "inputAsString", VString(""))),
      ToText(ValueOr(h, "outputDirectory", VString(""))),
      ToText(ValueOr(h, "localWorkingDirectory", VString(""))),
      ToBool(ValueOr(h, "cleanRemoteFiles", VBool(false))),
      ToBool(ValueOr(h, "retrieveOutput", VBool(true))),
      ToBool(ValueOr(h, "cleanLocalWorkingDirectory", VBool(false))),
      ToBool(ValueOr(h, "hideFromGui", VBool(false))),
      ToBool(ValueOr(h, "popupOnStateChange", VBool(true))),
      moleQueueId,
      queueId)
  }

  /** setFromHash AS WRITTEN: both ids go through the 32-bit toUInt. */
  function FromHashAsWritten(h: map<string, Variant>): (f: JobFields)
    ensures f.moleQueueId < UIntLimit && f.queueId < UIntLimit
  {
    FromHashWithIds(h, ToUInt(ValueOr(h, "moleQueueId", VInt(0))), ToUInt(ValueOr(h, "queueId", VInt(0))))
  }

  /** setFromHash with the ids read at their own 64-bit width. */
  function FromHash(h: map<string, Variant>): JobFields {
    FromHashWithIds(h, ToULongLong(ValueOr(h, "moleQueueId", VInt(0))), ToULongLong(ValueOr(h, "queueId", VInt(0))))
  }

  /** hash() holds exactly the fifteen keys. */
  lemma HashKeySet(f: JobFields)
    ensures Hash(f).Keys == HashKeys
  {
  }

  // Each lookup in the fifteen-entry hash, a few keys per lemma.

  lemma QueueLookups(f: JobFields)
    ensures var h := Hash(f); "queue" in h && h["queue"] == VString(f.queue) && "program" in h && h["program"] == VString(f.program)
  {
  }

  lemma DescriptionLookups(f: JobFields)
    ensures var h := Hash(f); "description" in h && h["description"] == VString(f.description) && "inputAsPath" in h && h["inputAsPath"] == VString(f.inputAsPath)
  {
  }

  lemma InputLookups(f: JobFields)
    ensures var h := Hash(f); "inputAsString" in h && h["inputAsString"] == VString(f.inputAsString) && "outputDirectory" in h && h["outputDirectory"] == VString(f.outputDirectory)
  {
  }

  lemma DirectoryLookups(f: JobFields)
    ensures var h := Hash(f); "localWorkingDirectory" in h && h["localWorkingDirectory"] == VString(f.localWorkingDirectory) && "cleanRemoteFiles" in h && h["cleanRemoteFiles"] == VBool(f.cleanRemoteFiles)
  {
  }

  lemma RetrieveLookups(f: JobFields)
    ensures var h := Hash(f); "retrieveOutput" in h && h["retrieveOutput"] == VBool(f.retrieveOutput) && "cleanLocalWorkingDirectory" in h && h["cleanLocalWorkingDirectory"] == VBool(f.cleanLocalWorkingDirectory)
  {
  }

  lemma GuiLookups(f: JobFields)
    ensures var h := Hash(f); "hideFromGui" in h && h["hideFromGui"] == VBool(f.hideFromGui) && "popupOnStateChange" in h && h["popupOnStateChange"] == VBool(f.popupOnStateChange)
  {
  }

  lemma NumberLookups(f: JobFields)
    ensures var h := Hash(f); "jobState" in h && h["jobState"] == VInt(JobStates.Ordinal(f.jobState)) && "moleQueueId" in h && h["moleQueueId"] == VULongLong(f.moleQueueId) && "queueId" in h && h["queueId"] == VULongLong(f.queueId)
  {
  }

  /** Every field but the ids survives an export and import. */
  lemma {:induction false} FieldsRoundTrip(f: JobFields, moleQueueId: IdType, queueId: IdType)
    ensures FromHashWithIds(Hash(f), moleQueueId, queueId) == f.(moleQueueId := moleQueueId, queueId := queueId)
  {
    QueueLookups(f);
    DescriptionLookups(f);
    InputLookups(f);
    DirectoryLookups(f);
    RetrieveLookups(f);
    GuiLookups(f);
    NumberLookups(f);
    JobStates.OrdinalRoundTrip(f.jobState);
  }

  /** Importing an export restores every field. */
  lemma HashRoundTrip(f: JobFields)
    ensures FromHash(Hash(f)) == f
  {
    NumberLookups(f);
    FieldsRoundTrip(f, f.moleQueueId, f.queueId);
  }

  /** As written, an export survives the import exactly when both ids fit 32 bits. */
  lemma AsWrittenRoundTrip(f: JobFields)
    ensures FromHashAsWritten(Hash(f)) == f <==> f.moleQueueId < UIntLimit && f.queueId < UIntLimit
  {
    var h := Hash(f);
    NumberLookups(f);
    var m, q := f.moleQueueId % UIntLimit, f.queueId % UIntLimit;
    assert ToUInt(ValueOr(h, "moleQueueId", VInt(0))) == m;
    assert ToUInt(ValueOr(h, "queueId", VInt(0))) == q;
    FieldsRoundTrip(f, m, q);
    assert FromHashAsWritten(h) == f.(moleQueueId := m, queueId := q);
    LowBitsKeepSmall(f.moleQueueId);
    LowBitsKeepSmall(f.queueId);
  }

  lemma LowBitsKeepSmall(x: nat)
    ensures x % UIntLimit == x <==> x < UIntLimit
  {
  }

  /** As written, a fresh job's InvalidId comes back as 4294967295, a valid-looking id. */
  lemma AsWrittenLosesInvalidId(f: JobFields)
    requires f.moleQueueId == InvalidId
    ensures FromHashAsWritten(Hash(f)).moleQueueId == 0xFFFF_FFFF
    ensures FromHashAsWritten(Hash(f)).moleQueueId != InvalidId
  {
    NumberLookups(f);
    assert ToUInt(VULongLong(InvalidId)) == 0xFFFF_FFFF;
  }

  /** An empty hash gives the stated defaults: output retrieved, popup on, state None, ids 0. */
  lemma EmptyHashDefaults()
    ensures var f := FromHash(map[]);
      && f.retrieveOutput && f.popupOnStateChange && !f.cleanRemoteFiles && !f.hideFromGui
      && f.jobState == JobStates.None && f.moleQueueId == 0 && f.queueId == 0 && f.queue == ""
  {
  }

  class JobData {
    var queue: string
    var program: string
    var jobState: JobStates.JobState
    var description: string
    var inputAsPath: string
    var inputAsString: string
    var outputDirectory: string
    var localWorkingDirectory: string
    var cleanRemoteFiles: bool
    var retrieveOutput: bool
    var cleanLocalWorkingDirectory: bool
    var hideFromGui: bool
    var popupOnStateChange: bool
    var moleQueueId: IdType
    var queueId: IdType

    function Snapshot(): JobFields
      reads this
    {
      JobFields(queue, program, jobState, description, inputAsPath, inputAsString, outputDirectory,
                localWorkingDirectory, cleanRemoteFiles, retrieveOutput, cleanLocalWorkingDirectory,
                hideFromGui, popupOnStateChange, moleQueueId, queueId)
    }

    /** The constructor's defaults. */
    constructor ()
      ensures Snapshot() == Defaults
    {
      queue, program, jobState, description := "", "", JobStates.None, "";
      inputAsPath, inputAsString, outputDirectory, localWorkingDirectory := "", "", "", "";
      cleanRemoteFiles, retrieveOutput, cleanLocalWorkingDirectory := false, true, false;
      hideFromGui, popupOnStateChange := false, true;
      moleQueueId, queueId := InvalidId, InvalidId;
    }

    /** The copy constructor copies every data field. */
    constructor Copy(other: JobData)
      ensures Snapshot() == other.Snapshot()
    {
      queue, program, jobState, description := other.queue, other.program, other.jobState, other.description;
      inputAsPath, inputAsString := other.inputAsPath, other.inputAsString;
      outputDirectory, localWorkingDirectory := other.outputDirectory, other.localWorkingDirectory;
      cleanRemoteFiles, retrieveOutput := other.cleanRemoteFiles, other.retrieveOutput;
      cleanLocalWorkingDirectory, hideFromGui := other.cleanLocalWorkingDirectory, other.hideFromGui;
      popupOnStateChange := other.popupOnStateChange;
      moleQueueId, queueId := other.moleQueueId, other.queueId;
    }

    /** hash(): exactly the fifteen keys, and importing it restores this record. */
    function ToHash(): (h: map<string, Variant>)
      reads this
      ensures h.Keys == HashKeys
      ensures FromHash(h) == Snapshot()
    {
      HashKeySet(Snapshot());
      HashRoundTrip(Snapshot());
      Hash(Snapshot())
    }

    /** setFromHash (ids read at 64 bits): every field is assigned. */
    method SetFromHash(h: map<string, Variant>)
      modifies this
      ensures Snapshot() == FromHash(h)
    {
      Assign(FromHash(h));
    }

    /** Assigns every field: text, then flags, then the state and ids. */
    method Assign(f: JobFields)
      modifies this
      ensures Snapshot() == f
    {
      queue, program, description := f.queue, f.program, f.description;
      inputAsPath, inputAsString := f.inputAsPath, f.inputAsString;
      outputDirectory, localWorkingDirectory := f.outputDirectory, f.localWorkingDirectory;
      AssignFlags(f);
      AssignStateAndIds(f);
    }

    method AssignFlags(f: JobFields)
      modifies this
      ensures Snapshot() == old(Snapshot()).(cleanRemoteFiles := f.cleanRemoteFiles, retrieveOutput := f.retrieveOutput,
        cleanLocalWorkingDirectory := f.cleanLocalWorkingDirectory, hideFromGui := f.hideFromGui,
        popupOnStateChange := f.popupOnStateChange)
    {
      cleanRemoteFiles, retrieveOutput := f.cleanRemoteFiles, f.retrieveOutput;
      cleanLocalWorkingDirectory, hideFromGui := f.cleanLocalWorkingDirectory, f.hideFromGui;
      popupOnStateChange := f.popupOnStateChange;
    }

    method AssignStateAndIds(f: JobFields)
      modifies this
      ensures Snapshot() == old(Snapshot()).(jobState := f.jobState, moleQueueId := f.moleQueueId, queueId := f.queueId)
    {
      jobState, moleQueueId, queueId := f.jobState, f.moleQueueId, f.queueId;
    }
  }
}
