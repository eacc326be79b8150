/**
 * The dashboard state of src/App.tsx: the file-name disease detector, the
 * patient search and statistics, the trend window, and the handlers that
 * update the patient, alert and analysis-history lists.
 *
 * `Math.random()` becomes a stream of draws `rand: nat -> real` read in the
 * order the source calls it; clocks, object URLs and UUIDs are parameters.
 */
module Dashboard {
  import opened Wrappers
  import opened Records
  import opened Seqs
  import opened Text
  import opened Confidence
  import DetectionBox
  import AlertSystem

  /** One entry of `DISEASE_CONFIGS`. */
  datatype DiseaseConfig = DiseaseConfig(name: string, color: string, features: seq<string>, recommendations: seq<string>)

  const Pneumonia := DiseaseConfig(
    "Pneumonia", "rgba(59, 130, 246, 0.5)",
    ["Consolidation patterns", "Air bronchograms", "Interstitial infiltrates"],
    ["Schedule follow-up X-ray in 2 weeks", "Monitor oxygen saturation levels", "Consider bronchodilator therapy"])

  const PleuralEffusion := DiseaseConfig(
    "Pleural Effusion", "rgba(245, 158, 11, 0.5)",
    ["Fluid density", "Costophrenic angle blunting", "Meniscus sign"],
    ["Monitor fluid levels", "Consider thoracentesis if severe", "Regular respiratory assessment"])

  const LungCancer := DiseaseConfig(
    "Lung Cancer", "rgba(239, 68, 68, 0.5)",
    ["Mass/nodule presence", "Spiculated margins", "Pleural involvement"],
    ["Immediate oncology consultation", "Schedule PET scan", "Biopsy planning", "Comprehensive treatment plan needed"])

  const BrainTumor := DiseaseConfig(
    "Brain Tumor", "rgba(168, 85, 247, 0.5)",
    ["Mass effect", "Enhancement pattern", "Edema presence"],
    ["Urgent neurosurgery consultation", "Schedule contrast-enhanced MRI", "Monitor intracranial pressure", "Anti-seizure medication consideration"])

  /** The four conditions, in the order of `DISEASE_CONFIGS`. */
  const Conditions: seq<DiseaseConfig> := [Pneumonia, PleuralEffusion, LungCancer, BrainTumor]

  const TotalBeds := 100
  const EquipmentNames: seq<string> := ["MRI", "CT Scan", "X-Ray", "Ultrasound"]
  /** `prev.slice(-11)`: the trend keeps the last eleven points plus the new one. */
  const TrendHistory := 11

  /**
   * The condition a file name names, in the source's priority order: brain
   * and tumor, then pneumonia, then pleural and effusion, then lung and
   * cancer. Matching ignores case.
   */
  function MatchDisease(fileName: string): (c: Option<DiseaseConfig>)
    ensures c.Some? ==> c.value in Conditions
    ensures var lower := ToLower(fileName);
      c == Some(BrainTumor) <==> BrainTumorNamed(lower)
    ensures var lower := ToLower(fileName);
      c == Some(Pneumonia) <==> !BrainTumorNamed(lower) && PneumoniaNamed(lower)
    ensures var lower := ToLower(fileName);
      c == Some(PleuralEffusion) <==>
        !BrainTumorNamed(lower) && !PneumoniaNamed(lower) && PleuralEffusionNamed(lower)
    ensures var lower := ToLower(fileName);
      c == Some(LungCancer) <==>
        !BrainTumorNamed(lower) && !PneumoniaNamed(lower) && !PleuralEffusionNamed(lower) && LungCancerNamed(lower)
    ensures var lower := ToLower(fileName);
      c == None <==>
        !BrainTumorNamed(lower) && !PneumoniaNamed(lower) && !PleuralEffusionNamed(lower) && !LungCancerNamed(lower)
  {
    var lower := ToLower(fileName);
    if BrainTumorNamed(lower) then Some(BrainTumor)
    else if PneumoniaNamed(lower) then Some(Pneumonia)
    else if PleuralEffusionNamed(lower) then Some(PleuralEffusion)
    else if LungCancerNamed(lower) then Some(LungCancer)
    else None
  }

  /** The keyword tests of the detector, on the lower-cased file name. */
  predicate BrainTumorNamed(lower: string) { Includes(lower, "brain") && Includes(lower, "tumor") }
  predicate PneumoniaNamed(lower: string) { Includes(lower, "pneumonia") }
  predicate PleuralEffusionNamed(lower: string) { Includes(lower, "pleural") && Includes(lower, "effusion") }
  predicate LungCancerNamed(lower: string) { Includes(lower, "lung") && Includes(lower, "cancer") }

  /** The detector ignores the case of the file name. */
  lemma MatchDiseaseIgnoresCase(fileName: string)
    ensures MatchDisease(ToLower(fileName)) == MatchDisease(fileName)
  {
    ToLowerIdempotent(fileName);
  }

  /** Priority in action: a name that mentions both lung cancer and pneumonia is read as pneumonia. */
  lemma PneumoniaBeforeLungCancer()
    ensures MatchDisease(ExampleName) == Some(Pneumonia)
  {
    ExampleNameFacts();
  }

  const ExampleName := "lungcancer-" + "pneumonia"

  lemma ExampleNameFacts()
    ensures ToLower(ExampleName) == ExampleName
    ensures !Includes(ExampleName, "brain")
    ensures Includes(ExampleName, "pneumonia")
  {
    ExampleNameIsLowerCase();
    ExampleNameLacksBrain();
    IncludesSuffix("lungcancer-", "pneumonia");
  }

  lemma ExampleNameIsLowerCase()
    ensures ToLower(ExampleName) == ExampleName
  {
    assert forall i :: 0 <= i < |ExampleName| ==> !('A' <= ExampleName[i] <= 'Z');
    ToLowerFixed(ExampleName);
  }

  lemma ExampleNameLacksBrain()
    ensures !Includes(ExampleName, "brain")
  {
    assert forall i :: 0 <= i < |ExampleName| ==> ExampleName[i] != 'b';
    MissingCharExcludes(ExampleName, "brain", 'b');
  }

  /** `getRandomPosition`, from four draws. */
  function RandomPosition(rx: real, ry: real, rw: real, rh: real): Rect
  {
    Rect(0.1 + rx * 0.3, 0.1 + ry * 0.3, 0.2 + rw * 0.2, 0.2 + rh * 0.2)
  }

  /** With draws in [0, 1) the box starts 10-40% in and is 20-40% wide, so it lies inside the image. */
  lemma RandomPositionInside(rx: real, ry: real, rw: real, rh: real)
    requires 0.0 <= rx < 1.0 && 0.0 <= ry < 1.0 && 0.0 <= rw < 1.0 && 0.0 <= rh < 1.0
    ensures var r := RandomPosition(rx, ry, rw, rh);
      && 0.1 <= r.x < 0.4 && 0.1 <= r.y < 0.4
      && 0.2 <= r.width < 0.4 && 0.2 <= r.height < 0.4
      && r.x + r.width < 0.8 && r.y + r.height < 0.8
      && DetectionBox.Normalised(r)
  {
  }

  /** `Math.floor(r * n) + base`. */
  function DrawInt(r: real, n: nat, base: int): int
  {
    (r * n as real).Floor + base
  }

  lemma DrawIntRange(r: real, n: nat, base: int)
    requires 0.0 <= r < 1.0 && n > 0
    ensures base <= DrawInt(r, n, base) <= base + n - 1
  {
    assert 0.0 <= r * n as real < n as real by {
      assert r * n as real <= n as real * r;
    }
  }

  /** Every draw of the stream lies in [0, 1), as `Math.random()` promises. */
  ghost predicate UnitDraws(rand: nat -> real)
  {
    forall i: nat :: 0.0 <= rand(i) < 1.0
  }

  /** One importance weight per feature, in [0.65, 0.76), from draws `from`, `from + 1`, ... */
  function Importance(count: nat, rand: nat -> real, from: nat): (w: seq<real>)
    ensures |w| == count
  {
    seq(count, i requires 0 <= i < count => rand(from + i) * 0.11 + 0.65)
  }

  /**
   * `detectDiseaseFromImage`: `None` for a file name naming no known
   * condition. The draws are read in the source's order: the four of the
   * box, then confidence, severity, affected area and one per feature.
   */
  function DetectDisease(fileName: string, rand: nat -> real, timestamp: string): (d: Option<DetectionRecord>)
    ensures d.Some? <==> MatchDisease(fileName).Some?
    ensures d.Some? ==>
      && d.value.disease == MatchDisease(fileName).value.name
      && d.value.details.recommendations == MatchDisease(fileName).value.recommendations
      && d.value.details.explanation.features == MatchDisease(fileName).value.features
      && |d.value.details.explanation.importance| == |d.value.details.explanation.features|
      && d.value.confidence.Finite?
      && d.value.position.Some?
      && (d.value.status == Critical <==> d.value.details.severity > 7)
      && (d.value.status != Critical ==> d.value.status == AtRisk)
  {
    match MatchDisease(fileName)
    case None => None
    case Some(cfg) =>
      var severity := DrawInt(rand(5), 4, 6);
      Some(DetectionRecord(
        cfg.name,
        Finite(DrawInt(rand(4), 11, 65)),
        if severity > 7 then Critical else AtRisk,
        Details(severity, DrawInt(rand(6), 11, 65), cfg.recommendations,
                Explanation(cfg.features, Importance(|cfg.features|, rand, 7))),
        timestamp,
        cfg.color,
        Some(RandomPosition(rand(0), rand(1), rand(2), rand(3)))))
  }

  /**
   * With genuine random draws: confidence and affected area in 65..75,
   * severity in 6..9, importances in [0.65, 0.76), and a box inside the image.
   */
  lemma DetectDiseaseRanges(fileName: string, rand: nat -> real, timestamp: string)
    requires UnitDraws(rand)
    ensures var d := DetectDisease(fileName, rand, timestamp);
      d.Some? ==>
        && 65 <= d.value.confidence.value <= 75
        && 6 <= d.value.details.severity <= 9
        && 65 <= d.value.details.affectedArea <= 75
        && (forall w :: w in d.value.details.explanation.importance ==> 0.65 <= w < 0.76)
        && DetectionBox.Normalised(d.value.position.value)
  {
    DrawIntRange(rand(4), 11, 65);
    DrawIntRange(rand(5), 4, 6);
    DrawIntRange(rand(6), 11, 65);
    RandomPositionInside(rand(0), rand(1), rand(2), rand(3));
    var d := DetectDisease(fileName, rand, timestamp);
    if d.Some? {
      var w := d.value.details.explanation.importance;
      forall i | 0 <= i < |w| ensures 0.65 <= w[i] < 0.76 {
        assert w[i] == rand(7 + i) * 0.11 + 0.65;
        assert 0.0 <= rand(7 + i) < 1.0;
      }
    }
  }

  /** The text an upload's critical alert carries. */
  function CriticalMessage(disease: string): string
  {
    "Critical finding: " + disease + " detected"
  }

  const PrescriptionSavedMessage := "Prescription has been signed and saved"

  /** The search filter on one patient: the lower-cased term occurs in the lower-cased name, diagnosis or location. */
  predicate SearchMatch(term: string, p: Patient)
  {
    var t := ToLower(term);
    Includes(ToLower(p.name), t) || Includes(ToLower(p.diagnosis), t) || Includes(ToLower(p.location), t)
  }

  /** `filteredPatients`. */
  function FilterPatients(patients: seq<Patient>, term: string): (shown: seq<Patient>)
    ensures forall i :: 0 <= i < |shown| ==> shown[i] in patients && SearchMatch(term, shown[i])
    ensures forall i :: 0 <= i < |patients| && SearchMatch(term, patients[i]) ==> patients[i] in shown
  {
    Filter(patients, p => SearchMatch(term, p))
  }

  /** The search keeps the list order and shows everyone for an empty term. */
  lemma FilterPatientsOrder(patients: seq<Patient>, term: string)
    ensures IsSubsequence(FilterPatients(patients, term), patients)
    ensures term == "" ==> FilterPatients(patients, term) == patients
  {
    FilterIsSubsequence(patients, p => SearchMatch(term, p));
    if term == "" {
      forall i | 0 <= i < |patients| ensures SearchMatch(term, patients[i]) {
        IncludesEmpty(ToLower(patients[i].name));
      }
      FilterKeepsAll(patients, p => SearchMatch(term, p));
    }
  }

  /** The search shows each matching patient as many times as the list holds it, and no other. */
  lemma FilterPatientsCount(patients: seq<Patient>, term: string, p: Patient)
    ensures multiset(FilterPatients(patients, term))[p] == if SearchMatch(term, p) then multiset(patients)[p] else 0
  {
    FilterCount(patients, q => SearchMatch(term, q), p);
  }

  /** The search term's case does not matter. */
  lemma FilterPatientsIgnoresCase(patients: seq<Patient>, term: string)
    ensures FilterPatients(patients, ToLower(term)) == FilterPatients(patients, term)
  {
    ToLowerIdempotent(term);
    FilterCongruent(patients, p => SearchMatch(ToLower(term), p), p => SearchMatch(term, p));
  }

  predicate IsAdmitted(p: Patient)
  {
    p.status == Admitted
  }

  function AdmittedOf(patients: seq<Patient>): (admitted: seq<Patient>)
    ensures |admitted| <= |patients|
  {
    Filter(patients, IsAdmitted)
  }

  /** The total length of the patients' equipment lists (the `reduce`). */
  function EquipmentInUse(patients: seq<Patient>): nat
  {
    if patients == [] then 0 else |patients[0].equipmentUsed| + EquipmentInUse(patients[1..])
  }

  /** JavaScript's `n || 1` on a number. */
  function OrOne(n: int): int
  {
    if n == 0 then 1 else n
  }

  /** `calculateMetrics`. */
  function CalculateMetrics(patients: seq<Patient>): (m: Metrics)
  {
    var admitted := AdmittedOf(patients);
    Metrics(
      |patients|,
      Round(|admitted| as real / TotalBeds as real * 100.0),
      Round(|admitted| as real / OrOne(|patients|) as real * 100.0),
      Round(EquipmentInUse(admitted) as real / OrOne(|admitted| * 4) as real * 100.0))
  }

  /**
   * The metrics: the patient count; bed occupancy equal to the number of
   * admitted patients (out of 100 beds); an admission rate in [0, 100]; and
   * all zero with no patients.
   */
  lemma MetricsBounds(patients: seq<Patient>)
    ensures var m := CalculateMetrics(patients);
      && m.totalPatients == |patients|
      && m.bedOccupancy == |AdmittedOf(patients)|
      && 0 <= m.admissionRate <= 100
      && 0 <= m.equipmentUtilization
      && (patients == [] ==> m == Metrics(0, 0, 0, 0))
  {
    var admitted := AdmittedOf(patients);
    assert |admitted| as real / TotalBeds as real * 100.0 == |admitted| as real;
    PercentBounds(|admitted| as real, OrOne(|patients|) as real);
    PercentBounds(0.0, OrOne(|admitted| * 4) as real);
    if patients == [] {
      assert admitted == [];
    }
  }

  /** A share of a positive whole, as a rounded percentage: in [0, 100] when the part fits in the whole. */
  lemma PercentBounds(part: real, whole: real)
    requires whole > 0.0 && part >= 0.0
    ensures Round(part / whole * 100.0) >= 0
    ensures part <= whole ==> Round(part / whole * 100.0) <= 100
  {
    assert part / whole >= 0.0;
    if part <= whole {
      assert part / whole * whole == part;
      assert part / whole <= 1.0;
    }
  }

  /** `calculateEquipmentUsage`: for each device, how many admitted patients use it. */
  function EquipmentUsage(patients: seq<Patient>): (usage: seq<EquipmentData>)
    ensures |usage| == 4
    ensures forall i :: 0 <= i < 4 ==> usage[i].name == EquipmentNames[i]
    ensures forall i :: 0 <= i < 4 ==> usage[i].value <= usage[i].total == |AdmittedOf(patients)|
  {
    var admitted := AdmittedOf(patients);
    Map(EquipmentNames, name => EquipmentData(name, |Filter(admitted, (p: Patient) => name in p.equipmentUsed)|, |admitted|))
  }

  /** `[...prev.slice(-11), newPoint]`. */
  function TrendWindow(prev: seq<TrendPoint>, point: TrendPoint): (window: seq<TrendPoint>)
    ensures |window| == MinInt(|prev|, TrendHistory) + 1 <= TrendHistory + 1
    ensures window[|window| - 1] == point
    ensures window[..|window| - 1] == prev[|prev| - MinInt(|prev|, TrendHistory)..]
  {
    var keep := MinInt(|prev|, TrendHistory);
    prev[|prev| - keep..] + [point]
  }

  /**
   * The trend point of one interval tick: patients admitted on the current
   * day (as decided by `sameDay` on the admission date) and discharged
   * patients.
   */
  function TrendPointOf(patients: seq<Patient>, date: string, sameDay: string -> bool): (t: TrendPoint)
    ensures t.admissions <= |patients| && t.discharges <= |patients|
  {
    TrendPoint(date,
               |Filter(patients, (p: Patient) => sameDay(p.admissionDate))|,
               |Filter(patients, (p: Patient) => p.status == Discharged)|)
  }

  /** `handleDischargePatient` on the list. */
  function Discharge(patients: seq<Patient>, id: string): (r: seq<Patient>)
    ensures |r| == |patients|
    ensures forall i :: 0 <= i < |r| ==> r[i].id == patients[i].id && r[i].name == patients[i].name
  {
    Map(patients, (p: Patient) => if p.id == id then p.(status := Discharged) else p)
  }

  /** Only the patients with the id change, and only their status; discharging twice is discharging once. */
  lemma DischargeEffect(patients: seq<Patient>, id: string)
    ensures var r := Discharge(patients, id);
      && (forall i :: 0 <= i < |r| && patients[i].id != id ==> r[i] == patients[i])
      && (forall i :: 0 <= i < |r| && patients[i].id == id ==> r[i] == patients[i].(status := Discharged))
      && Discharge(r, id) == r
  {
    var r := Discharge(patients, id);
    var rr := Discharge(r, id);
    forall i | 0 <= i < |r| ensures rr[i] == r[i] {
      assert r[i] == if patients[i].id == id then patients[i].(status := Discharged) else patients[i];
    }
  }

  /** `handleDeletePatient` on the list. */
  function Delete(patients: seq<Patient>, id: string): (r: seq<Patient>)
    ensures forall i :: 0 <= i < |r| ==> r[i].id != id && r[i] in patients
    ensures forall i :: 0 <= i < |patients| && patients[i].id != id ==> patients[i] in r
  {
    Filter(patients, (p: Patient) => p.id != id)
  }

  /** Deleting keeps the others in order, and deleting an absent id changes nothing. */
  lemma DeleteOrder(patients: seq<Patient>, id: string)
    ensures IsSubsequence(Delete(patients, id), patients)
    ensures (forall i :: 0 <= i < |patients| ==> patients[i].id != id) ==> Delete(patients, id) == patients
  {
    FilterIsSubsequence(patients, (p: Patient) => p.id != id);
    if forall i :: 0 <= i < |patients| ==> patients[i].id != id {
      FilterKeepsAll(patients, (p: Patient) => p.id != id);
    }
  }

  /** Deleting removes every copy of a patient with that id and keeps every copy of the others. */
  lemma DeleteCount(patients: seq<Patient>, id: string, p: Patient)
    ensures multiset(Delete(patients, id))[p] == if p.id != id then multiset(patients)[p] else 0
  {
    FilterCount(patients, (q: Patient) => q.id != id, p);
  }

  /** `handleAcknowledgeAlert` on the list. */
  function Acknowledge(alerts: seq<Alert>, id: string): (r: seq<Alert>)
    ensures |r| == |alerts|
    ensures forall i :: 0 <= i < |r| ==> r[i].id == alerts[i].id
  {
    Map(alerts, (a: Alert) => if a.id == id then a.(acknowledged := true) else a)
  }

  /** Only the alerts with the id change, and only their flag; acknowledging twice is acknowledging once. */
  lemma AcknowledgeEffect(alerts: seq<Alert>, id: string)
    ensures var r := Acknowledge(alerts, id);
      && (forall i :: 0 <= i < |r| && alerts[i].id != id ==> r[i] == alerts[i])
      && (forall i :: 0 <= i < |r| && alerts[i].id == id ==> r[i] == alerts[i].(acknowledged := true))
      && Acknowledge(r, id) == r
  {
    var r := Acknowledge(alerts, id);
    var rr := Acknowledge(r, id);
    forall i | 0 <= i < |r| ensures rr[i] == r[i] {
      assert r[i] == if alerts[i].id == id then alerts[i].(acknowledged := true) else alerts[i];
    }
  }

  function WithoutId(alerts: seq<Alert>, id: string): seq<Alert>
  {
    Filter(alerts, (a: Alert) => a.id != id)
  }

  /**
   * After acknowledging an id the panel shows what it showed before, minus
   * the alerts with that id.
   */
  lemma {:induction false} AcknowledgeHides(alerts: seq<Alert>, id: string)
    ensures AlertSystem.Visible(Acknowledge(alerts, id)) == WithoutId(AlertSystem.Visible(alerts), id)
  {
    if alerts != [] {
      var a := alerts[0];
      AcknowledgeHides(alerts[1..], id);
      assert Acknowledge(alerts, id) == [if a.id == id then a.(acknowledged := true) else a] + Acknowledge(alerts[1..], id);
      FilterConcat([if a.id == id then a.(acknowledged := true) else a], Acknowledge(alerts[1..], id), AlertSystem.Unacknowledged);
      assert AlertSystem.Visible(alerts) == (if !a.acknowledged then [a] else []) + AlertSystem.Visible(alerts[1..]);
      FilterConcat(if !a.acknowledged then [a] else [], AlertSystem.Visible(alerts[1..]), (b: Alert) => b.id != id);
    }
  }

  class Dashboard {
    var selectedImage: Option<string>
    var detection: Option<DetectionRecord>
    var trends: seq<TrendPoint>
    var equipment: seq<EquipmentData>
    var history: seq<HistoryEntry>
    var patients: seq<Patient>
    var alerts: seq<Alert>
    var searchTerm: string

    constructor ()
      ensures selectedImage == None && detection == None
      ensures trends == [] && equipment == [] && history == [] && patients == [] && alerts == []
      ensures searchTerm == ""
    {
      selectedImage, detection := None, None;
      trends, equipment, history, patients, alerts := [], [], [], [], [];
      searchTerm := "";
    }

    /** The patients the list shows for the current search term. */
    function FilteredPatients(): seq<Patient>
      reads this
    {
      FilterPatients(patients, searchTerm)
    }

    function Metrics(): Records.Metrics
      reads this
    {
      CalculateMetrics(patients)
    }

    method SetSearchTerm(term: string)
      modifies this`searchTerm
      ensures searchTerm == term
    {
      searchTerm := term;
    }

    /**
     * `handleImageUpload`, with the 1.5 s delay collapsed. For a file name
     * naming no known condition the detection is cleared and the handler
     * then fails reading the status of the missing result (`ok` is false):
     * no alert and no history entry. Otherwise a critical alert is raised
     * exactly when the detection is critical, and one history entry is added.
     */
    method HandleImageUpload(imageUrl: string, fileName: string, rand: nat -> real,
                             timestamp: string, alertId: string, alertTime: string) returns (ok: bool)
      modifies this`selectedImage, this`detection, this`alerts, this`history
      ensures selectedImage == Some(imageUrl)
      ensures detection == DetectDisease(fileName, rand, timestamp)
      ensures ok <==> MatchDisease(fileName).Some?
      ensures !ok ==> alerts == old(alerts) && history == old(history)
      ensures ok ==>
        var d := detection.value;
        && alerts == old(alerts) + (if d.status == Critical
                                   then [Alert(alertId, CriticalAlert, CriticalMessage(d.disease), alertTime, false)]
                                   else [])
        && history == old(history) + [HistoryEntry(d.timestamp, d.disease, d.confidence, d.details.severity)]
    {
      selectedImage := Some(imageUrl);
      var result := DetectDisease(fileName, rand, timestamp);
      detection := result;
      if result.None? {
        return false;
      }
      var d := result.value;
      if d.status == Critical {
        alerts := alerts + [Alert(alertId, CriticalAlert, CriticalMessage(d.disease), alertTime, false)];
      }
      history := history + [HistoryEntry(d.timestamp, d.disease, d.confidence, d.details.severity)];
      ok := true;
    }

    /**
     * `handlePositionChange`: with a detection, replaces its confidence and
     * box and logs the new confidence with the unchanged severity.
     */
    method HandlePositionChange(update: PositionUpdate, timestamp: string)
      modifies this`detection, this`history
      ensures old(detection).None? ==> detection == old(detection) && history == old(history)
      ensures old(detection).Some? ==>
        var d := old(detection).value;
        && detection == Some(d.(confidence := update.confidence, position := Some(update.rect)))
        && history == old(history) + [HistoryEntry(timestamp, d.disease, update.confidence, d.details.severity)]
    {
      if detection.Some? {
        var d := detection.value;
        detection := Some(d.(confidence := update.confidence, position := Some(update.rect)));
        history := history + [HistoryEntry(timestamp, d.disease, update.confidence, d.details.severity)];
      }
    }

    /**
     * One tick of the three-second interval: appends a trend point to the
     * 12-point window and recomputes the equipment usage.
     */
    method TrendTick(date: string, sameDay: string -> bool)
      modifies this`trends, this`equipment
      ensures trends == TrendWindow(old(trends), TrendPointOf(patients, date, sameDay))
      ensures |trends| <= TrendHistory + 1
      ensures equipment == EquipmentUsage(patients)
    {
      trends := TrendWindow(trends, TrendPointOf(patients, date, sameDay));
      equipment := EquipmentUsage(patients);
    }

    method HandleAddPatient(patient: Patient)
      modifies this`patients
      ensures patients == old(patients) + [patient]
    {
      patients := patients + [patient];
    }

    method HandleDischargePatient(id: string)
      modifies this`patients
      ensures patients == Discharge(old(patients), id)
    {
      patients := Discharge(patients, id);
    }

    method HandleDeletePatient(id: string)
      modifies this`patients
      ensures patients == Delete(old(patients), id)
    {
      patients := Delete(patients, id);
    }

    method HandleAcknowledgeAlert(id: string)
      modifies this`alerts
      ensures alerts == Acknowledge(old(alerts), id)
      ensures AlertSystem.Visible(alerts) == WithoutId(AlertSystem.Visible(old(alerts)), id)
    {
      AcknowledgeHides(alerts, id);
      alerts := Acknowledge(alerts, id);
    }

    /** `handleSavePrescription`: the saved prescription raises an info alert. */
    method HandleSavePrescription(prescription: Prescription, alertId: string, alertTime: string)
      modifies this`alerts
      ensures alerts == old(alerts) + [Alert(alertId, InfoAlert, PrescriptionSavedMessage, alertTime, false)]
    {
      alerts := alerts + [Alert(alertId, InfoAlert, PrescriptionSavedMessage, alertTime, false)];
    }
  }
}
