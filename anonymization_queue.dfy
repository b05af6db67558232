/**
 * `AnonymizationQueue`: builds, from the anonymization settings, the list of
 * anonymizers to run in a fixed order, then runs them on a DICOM object one after the
 * other, reporting the progress after each.
 */
module Anonymization {
  import opened DicomCore

  /** A DICOM object as the anonymizers receive it. */
  datatype DicomObject = DicomObject(elements: seq<Element>)

  /** The date settings handed to the date anonymizer (not part of this model). */
  datatype DateSettings = DateSettings(code: nat)

  datatype AnonymizationSettings = AnonymizationSettings(
    doAnonymizeStudyIDs: bool,
    doAnonymizeUIDs: bool,
    doAnonymizeNames: bool,
    doRemovePrivateTags: bool,
    doDICOMProfile: bool,
    firstName: string,
    lastName: string,
    id: string,
    dateSettings: DateSettings
  )

  /**
   * The anonymizers, with what they are built from: the study-ID and UID anonymizers
   * hold the objects registered with them, in order; the study-ID dictionary is finalized.
   */
  datatype Anonymizer =
    | StudyIdAnonymizer(studyObjects: seq<DicomObject>, finalized: bool)
    | UIDAnonymizer(uidObjects: seq<DicomObject>)
    | NameAnonymizer
    | PrivateTagAnonymizer
    | ProfileAnonymizer
    | PatientIdAnonymizer(firstName: string, lastName: string, id: string)
    | DateAnonymizer(dateSettings: DateSettings)

  /** The anonymizers `BuildQueue` adds at each of its six steps. */
  function Stage(s: AnonymizationSettings, objects: seq<DicomObject>, step: nat): seq<Anonymizer> {
    match step
    case 0 => if s.doAnonymizeStudyIDs then [StudyIdAnonymizer(objects, true)] else []
    case 1 => if s.doAnonymizeUIDs then [UIDAnonymizer(objects)] else []
    case 2 => if s.doAnonymizeNames then [NameAnonymizer] else []
    case 3 => if s.doRemovePrivateTags then [PrivateTagAnonymizer] else []
    case 4 => if s.doDICOMProfile then [ProfileAnonymizer] else []
    case _ => [PatientIdAnonymizer(s.firstName, s.lastName, s.id), DateAnonymizer(s.dateSettings)]
  }

  /** The queue `BuildQueue` produces once `objects` are the objects read from the files. */
  function Planned(s: AnonymizationSettings, objects: seq<DicomObject>): seq<Anonymizer> {
    Stage(s, objects, 0) + (Stage(s, objects, 1) + (Stage(s, objects, 2) + (Stage(s, objects, 3)
      + (Stage(s, objects, 4) + Stage(s, objects, 5)))))
  }

  /** The plan, in the order the steps add to the queue. */
  lemma PlannedInAddOrder(s: AnonymizationSettings, objects: seq<DicomObject>)
    ensures Planned(s, objects) == Stage(s, objects, 0) + Stage(s, objects, 1) + Stage(s, objects, 2)
                                   + Stage(s, objects, 3) + Stage(s, objects, 4) + Stage(s, objects, 5)
  {
    var p0, p1, p2, p3, p4, p5 := Stage(s, objects, 0), Stage(s, objects, 1), Stage(s, objects, 2),
                                  Stage(s, objects, 3), Stage(s, objects, 4), Stage(s, objects, 5);
    AppendAssociates(p3, p4, p5);
    AppendAssociates(p2, p3 + p4, p5);
    AppendAssociates(p2, p3, p4);
    AppendAssociates(p1, p2 + p3 + p4, p5);
    AppendAssociates(p1, p2 + p3, p4);
    AppendAssociates(p1, p2, p3);
    AppendAssociates(p0, p1 + p2 + p3 + p4, p5);
    AppendAssociates(p0, p1 + p2 + p3, p4);
    AppendAssociates(p0, p1 + p2, p3);
    AppendAssociates(p0, p1, p2);
  }

  lemma AppendAssociates<T>(a: seq<T>, b: seq<T>, c: seq<T>)
    ensures a + (b + c) == a + b + c
  {
  }

  function Count(b: bool): nat {
    if b then 1 else 0
  }

  /** The queue holds the two mandatory anonymizers plus one per setting switched on. */
  lemma PlannedLength(s: AnonymizationSettings, objects: seq<DicomObject>)
    ensures |Planned(s, objects)| == 2 + Count(s.doAnonymizeStudyIDs) + Count(s.doAnonymizeUIDs)
              + Count(s.doAnonymizeNames) + Count(s.doRemovePrivateTags) + Count(s.doDICOMProfile)
  {
  }

  /** The queue always ends with the patient-ID anonymizer, then the date anonymizer. */
  lemma PlannedEnds(s: AnonymizationSettings, objects: seq<DicomObject>)
    ensures var q := Planned(s, objects);
            |q| >= 2 && q[|q| - 2] == PatientIdAnonymizer(s.firstName, s.lastName, s.id)
            && q[|q| - 1] == DateAnonymizer(s.dateSettings)
  {
  }

  /** The place of an anonymizer's kind in the fixed order of the queue. */
  function KindOf(a: Anonymizer): nat {
    match a
    case StudyIdAnonymizer(_, _) => 0
    case UIDAnonymizer(_) => 1
    case NameAnonymizer => 2
    case PrivateTagAnonymizer => 3
    case ProfileAnonymizer => 4
    case PatientIdAnonymizer(_, _, _) => 5
    case DateAnonymizer(_) => 6
  }

  /** The kinds of the anonymizers of a queue, in queue order. */
  function Kinds(q: seq<Anonymizer>): (ks: seq<nat>)
    ensures |ks| == |q|
  {
    if |q| == 0 then [] else [KindOf(q[0])] + Kinds(q[1..])
  }

  /** Whether the settings ask for the anonymizer of a kind; the patient-ID and date anonymizers are always wanted. */
  predicate Enabled(s: AnonymizationSettings, kind: nat) {
    match kind
    case 0 => s.doAnonymizeStudyIDs
    case 1 => s.doAnonymizeUIDs
    case 2 => s.doAnonymizeNames
    case 3 => s.doRemovePrivateTags
    case 4 => s.doDICOMProfile
    case _ => kind <= 6
  }

  predicate Increasing(ks: seq<nat>) {
    forall i, j :: 0 <= i < j < |ks| ==> ks[i] < ks[j]
  }

  function Wanted(s: AnonymizationSettings, k: nat): seq<nat> {
    if Enabled(s, k) then [k] else []
  }

  /** The kinds from `k` on that the settings ask for, in the fixed order. */
  function WantedFrom(s: AnonymizationSettings, k: nat): seq<nat>
    decreases 7 - k
  {
    if k >= 7 then [] else Wanted(s, k) + WantedFrom(s, k + 1)
  }

  lemma {:induction false} WantedFromIncreasing(s: AnonymizationSettings, k: nat)
    ensures Increasing(WantedFrom(s, k))
    ensures forall i :: 0 <= i < |WantedFrom(s, k)| ==> k <= WantedFrom(s, k)[i]
    ensures forall m :: m in WantedFrom(s, k) <==> k <= m && Enabled(s, m)
    decreases 7 - k
  {
    if k < 7 {
      WantedFromIncreasing(s, k + 1);
    }
  }

  lemma {:induction false} KindsAppend(a: seq<Anonymizer>, b: seq<Anonymizer>)
    ensures Kinds(a + b) == Kinds(a) + Kinds(b)
  {
    if |a| > 0 {
      assert (a + b)[1..] == a[1..] + b;
      KindsAppend(a[1..], b);
    } else {
      assert a + b == b;
    }
  }

  /** The kinds of the planned queue, piece by piece. */
  lemma KindsOfPlanned(s: AnonymizationSettings, objects: seq<DicomObject>)
    ensures Kinds(Planned(s, objects)) == Wanted(s, 0) + (Wanted(s, 1) + (Wanted(s, 2) + (Wanted(s, 3) + (Wanted(s, 4) + [5, 6]))))
  {
    var p0, p1, p2, p3, p4, p5 := Stage(s, objects, 0), Stage(s, objects, 1), Stage(s, objects, 2),
                                  Stage(s, objects, 3), Stage(s, objects, 4), Stage(s, objects, 5);
    assert Kinds(p0) == Wanted(s, 0) && Kinds(p1) == Wanted(s, 1) && Kinds(p2) == Wanted(s, 2);
    assert Kinds(p3) == Wanted(s, 3) && Kinds(p4) == Wanted(s, 4) && Kinds(p5) == [5, 6];
    KindsAppend(p4, p5);
    KindsAppend(p3, p4 + p5);
    KindsAppend(p2, p3 + (p4 + p5));
    KindsAppend(p1, p2 + (p3 + (p4 + p5)));
    KindsAppend(p0, p1 + (p2 + (p3 + (p4 + p5))));
  }

  lemma WantedStep(s: AnonymizationSettings, k: nat)
    requires k < 7
    ensures WantedFrom(s, k) == Wanted(s, k) + WantedFrom(s, k + 1)
  {
  }

  lemma WantedFromStart(s: AnonymizationSettings)
    ensures WantedFrom(s, 0) == Wanted(s, 0) + (Wanted(s, 1) + (Wanted(s, 2) + (Wanted(s, 3) + (Wanted(s, 4) + [5, 6]))))
  {
    WantedStep(s, 0);
    WantedStep(s, 1);
    WantedStep(s, 2);
    WantedStep(s, 3);
    WantedStep(s, 4);
    WantedStep(s, 5);
    WantedStep(s, 6);
    assert Wanted(s, 5) + (Wanted(s, 6) + []) == [5, 6];
  }

  /**
   * The kinds in the queue are strictly increasing in the fixed order (study ID, UID,
   * name, private tag, profile, patient ID, date), so none comes twice, and a kind is
   * in the queue exactly when the settings ask for it.
   */
  lemma PlannedPresenceAndOrder(s: AnonymizationSettings, objects: seq<DicomObject>)
    ensures Increasing(Kinds(Planned(s, objects)))
    ensures forall k :: k in Kinds(Planned(s, objects)) <==> Enabled(s, k)
  {
    KindsOfPlanned(s, objects);
    WantedFromStart(s);
    WantedFromIncreasing(s, 0);
  }

  // ---------------------------------------------------------------------------
  // Progress
  // ---------------------------------------------------------------------------

  /** CalculateProgress: the whole percent `i` is of `totalOperations`, rounded down. */
  function CalculateProgress(i: nat, totalOperations: nat): (p: nat)
    requires totalOperations > 0
    ensures p * totalOperations <= 100 * i < (p + 1) * totalOperations
    ensures i <= totalOperations ==> p <= 100
    ensures i < totalOperations ==> p < 100
  {
    var p := 100 * i / totalOperations;
    FloorBounds(100 * i, totalOperations);
    LessFactor(p, totalOperations, i);
    p
  }

  lemma FloorBounds(x: nat, t: nat)
    requires t > 0
    ensures (x / t) * t <= x < (x / t + 1) * t
  {
  }

  /** A floor quotient of a fraction below one (or at most one) is below (at most) 100. */
  lemma LessFactor(p: nat, t: nat, i: nat)
    requires t > 0 && p * t <= 100 * i
    ensures i < t ==> p < 100
    ensures i <= t ==> p <= 100
  {
    if i <= t {
      MultiplyMonotone(i, t, 100);
      FactorLess(p, 101, t);
    }
    if i < t {
      MultiplyMonotone(i + 1, t, 100);
      FactorLess(p, 100, t);
    }
  }

  lemma FactorLess(a: nat, b: nat, t: nat)
    requires t > 0 && a * t < b * t
    ensures a < b
  {
    assert (b - a) * t == b * t - a * t;
  }

  lemma MultiplyMonotone(a: nat, b: nat, t: nat)
    requires a <= b
    ensures a * t <= b * t
  {
  }

  /** More operations done never means less progress. */
  lemma ProgressMonotone(i: nat, j: nat, totalOperations: nat)
    requires totalOperations > 0 && i <= j
    ensures CalculateProgress(i, totalOperations) <= CalculateProgress(j, totalOperations)
  {
    var p, r := CalculateProgress(i, totalOperations), CalculateProgress(j, totalOperations);
    FactorLess(p, r + 1, totalOperations);
  }

  /**
   * The whole percents of progress after each of `n` anonymizers: the `k`-th is for
   * `k + 1` of `n + 1` operations. These are what the progress event is documented to
   * carry (a value from 0 to 100).
   */
  function PercentReports(n: nat): (reports: seq<nat>)
    ensures |reports| == n
  {
    seq(n, k requires 0 <= k < n => CalculateProgress(k + 1, n + 1))
  }

  /** The percents never decrease and never reach 100. */
  lemma ReportsOrderedBelow100(n: nat)
    ensures forall k :: 0 <= k < n ==> PercentReports(n)[k] < 100
    ensures forall k, l :: 0 <= k <= l < n ==> PercentReports(n)[k] <= PercentReports(n)[l]
  {
    forall k | 0 <= k < n
      ensures PercentReports(n)[k] < 100
    {
      assert PercentReports(n)[k] == CalculateProgress(k + 1, n + 1);
    }
    forall k, l | 0 <= k <= l < n
      ensures PercentReports(n)[k] <= PercentReports(n)[l]
    {
      ProgressMonotone(k + 1, l + 1, n + 1);
    }
  }

  /** What `Anonymize` hands to `RaiseProgressUpdated`: each percent divided by 100 once more. */
  function ReportedProgress(n: nat): (reports: seq<real>)
    ensures |reports| == n
    ensures forall k :: 0 <= k < n ==> reports[k] * 100.0 == PercentReports(n)[k] as real
  {
    seq(n, k requires 0 <= k < n => PercentReports(n)[k] as real / 100.0)
  }

  /**
   * The values reported are fractions below one, not percents: with the two
   * anonymizers every queue holds, the reports are 0.33 and 0.66 rather than 33 and 66.
   */
  lemma ReportedProgressBelowOne(n: nat)
    ensures forall k :: 0 <= k < n ==> 0.0 <= ReportedProgress(n)[k] < 1.0
    ensures ReportedProgress(2) == [0.33, 0.66]
  {
    ReportsOrderedBelow100(n);
    assert CalculateProgress(1, 3) == 33 && CalculateProgress(2, 3) == 66;
    assert PercentReports(2) == [33, 66];
  }

  // ---------------------------------------------------------------------------
  // The queue, as an object
  // ---------------------------------------------------------------------------

  /** The object being anonymized, with the anonymizers applied to it so far. */
  class AnonymizationTarget {
    const dcm: DicomObject
    var appliedBy: seq<Anonymizer>

    constructor (dcm: DicomObject)
      ensures this.dcm == dcm && appliedBy == []
    {
      this.dcm := dcm;
      appliedBy := [];
    }
  }

  class AnonymizationQueue {
    var queue: seq<Anonymizer>
    /** The values handed to `RaiseProgressUpdated`, in order. */
    var progressReports: seq<real>

    constructor ()
      ensures queue == [] && progressReports == []
    {
      queue := [];
      progressReports := [];
    }

    method Add(a: Anonymizer)
      modifies this
      ensures queue == old(queue) + [a] && progressReports == old(progressReports)
    {
      queue := queue + [a];
    }

    /** RaiseProgressUpdated: the report is passed on to the subscribers. */
    method RaiseProgressUpdated(progress: real)
      modifies this
      ensures progressReports == old(progressReports) + [progress] && queue == old(queue)
    {
      progressReports := progressReports + [progress];
    }

    /**
     * Anonymize: applies each anonymizer of the queue once, in queue order, and
     * reports the progress after each.
     */
    method Anonymize(target: AnonymizationTarget)
      modifies this, target
      ensures target.appliedBy == old(target.appliedBy) + old(queue)
      ensures progressReports == old(progressReports) + ReportedProgress(|old(queue)|)
      ensures queue == old(queue)
    {
      ghost var reports := ReportedProgress(|queue|);
      var i := 1;
      for k := 0 to |queue|
        invariant i == k + 1 && queue == old(queue)
        invariant target.appliedBy == old(target.appliedBy) + queue[..k]
        invariant progressReports == old(progressReports) + reports[..k]
      {
        target.appliedBy := target.appliedBy + [queue[k]];
        assert queue[..k + 1] == queue[..k] + [queue[k]];
        var progress := CalculateProgress(i, |queue| + 1) as real / 100.0;
        assert PercentReports(|queue|)[k] == CalculateProgress(i, |queue| + 1);
        assert reports[k] == progress;
        RaiseProgressUpdated(progress);
        assert reports[..k + 1] == reports[..k] + [progress];
        i := i + 1;
      }
      assert queue[..|queue|] == queue;
      assert reports[..|queue|] == reports;
    }
  }

  /** The objects read from the files, in file order. */
  function ObjectsRead(dcmFiles: seq<string>, readObject: string -> DicomObject): (objects: seq<DicomObject>)
    ensures |objects| == |dcmFiles| && forall k :: 0 <= k < |dcmFiles| ==> objects[k] == readObject(dcmFiles[k])
  {
    seq(|dcmFiles|, k requires 0 <= k < |dcmFiles| => readObject(dcmFiles[k]))
  }

  /** The loop of `BuildQueue` that reads each file and registers it with the anonymizers wanted. */
  method RegisterObjects(settings: AnonymizationSettings, dcmFiles: seq<string>, readObject: string -> DicomObject)
    returns (studyObjects: seq<DicomObject>, uidObjects: seq<DicomObject>)
    ensures settings.doAnonymizeStudyIDs ==> studyObjects == ObjectsRead(dcmFiles, readObject)
    ensures settings.doAnonymizeUIDs ==> uidObjects == ObjectsRead(dcmFiles, readObject)
  {
    ghost var objects := ObjectsRead(dcmFiles, readObject);
    studyObjects, uidObjects := [], [];
    for k := 0 to |dcmFiles|
      invariant settings.doAnonymizeUIDs ==> uidObjects == objects[..k]
      invariant settings.doAnonymizeStudyIDs ==> studyObjects == objects[..k]
    {
      var ob := readObject(dcmFiles[k]);
      assert objects[..k + 1] == objects[..k] + [ob];
      if settings.doAnonymizeUIDs {
        uidObjects := uidObjects + [ob];
      }
      if settings.doAnonymizeStudyIDs {
        studyObjects := studyObjects + [ob];
      }
    }
    assert objects[..|dcmFiles|] == objects;
  }

  /**
   * BuildQueue: reads each file when the study-ID or UID anonymizer is wanted,
   * registers the objects with them, then adds the anonymizers in their fixed order.
   * `readObject` stands for `DICOMObject.Read`.
   */
  method BuildQueue(settings: AnonymizationSettings, dcmFiles: seq<string>, readObject: string -> DicomObject)
    returns (anonQue: AnonymizationQueue)
    ensures fresh(anonQue) && anonQue.progressReports == []
    ensures anonQue.queue == Planned(settings, ObjectsRead(dcmFiles, readObject))
  {
    ghost var objects := ObjectsRead(dcmFiles, readObject);
    anonQue := new AnonymizationQueue();
    if settings.doAnonymizeStudyIDs || settings.doAnonymizeUIDs {
      var studyObjects, uidObjects := RegisterObjects(settings, dcmFiles, readObject);
      if settings.doAnonymizeStudyIDs {
        anonQue.Add(StudyIdAnonymizer(studyObjects, true));
      }
      if settings.doAnonymizeUIDs {
        anonQue.Add(UIDAnonymizer(uidObjects));
      }
    }
    ghost var q1 := Stage(settings, objects, 0) + Stage(settings, objects, 1);
    assert anonQue.queue == q1;
    if settings.doAnonymizeNames {
      anonQue.Add(NameAnonymizer);
    }
    ghost var q2 := q1 + Stage(settings, objects, 2);
    assert anonQue.queue == q2;
    if settings.doRemovePrivateTags {
      anonQue.Add(PrivateTagAnonymizer);
    }
    ghost var q3 := q2 + Stage(settings, objects, 3);
    assert anonQue.queue == q3;
    if settings.doDICOMProfile {
      anonQue.Add(ProfileAnonymizer);
    }
    ghost var q4 := q3 + Stage(settings, objects, 4);
    assert anonQue.queue == q4;
    anonQue.Add(PatientIdAnonymizer(settings.firstName, settings.lastName, settings.id));
    anonQue.Add(DateAnonymizer(settings.dateSettings));
    assert anonQue.queue == q4 + Stage(settings, objects, 5);
    PlannedInAddOrder(settings, objects);
  }
}
