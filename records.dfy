/**
 * The records the dashboard passes between its components: the ones
 * declared in src/types.ts and the ones whose fields follow from their use
 * in src/App.tsx and src/components/PatientForm.tsx.
 */
module Records {
  import opened Wrappers

  /** A detection box in normalised coordinates: fractions of the image. */
  datatype Rect = Rect(x: real, y: real, width: real, height: real)

  /** A JavaScript number produced by the confidence formula: an integer, or NaN. */
  datatype Score = Finite(value: int) | NaN

  /** The argument of `onPositionChange`: the committed box and its confidence. */
  datatype PositionUpdate = PositionUpdate(rect: Rect, confidence: Score)

  datatype DetectionStatus = Healthy | AtRisk | Critical

  datatype Explanation = Explanation(features: seq<string>, importance: seq<real>)

  datatype Details = Details(
    severity: int,
    affectedArea: int,
    recommendations: seq<string>,
    explanation: Explanation)

  /** `DiseaseDetectionResult`. */
  datatype DetectionRecord = DetectionRecord(
    disease: string,
    confidence: Score,
    status: DetectionStatus,
    details: Details,
    timestamp: string,
    color: string,
    position: Option<Rect>)

  datatype PatientStatus = Admitted | Discharged

  datatype Patient = Patient(
    id: string,
    name: string,
    age: int,
    gender: string,
    location: string,
    diagnosis: string,
    bedNumber: string,
    admissionDate: string,
    status: PatientStatus,
    equipmentUsed: seq<string>)

  datatype AlertType = CriticalAlert | WarningAlert | InfoAlert

  datatype Alert = Alert(
    id: string,
    kind: AlertType,
    message: string,
    timestamp: string,
    acknowledged: bool)

  /** `AnalysisHistory`. */
  datatype HistoryEntry = HistoryEntry(timestamp: string, disease: string, confidence: Score, severity: int)

  /** `HospitalMetrics`. */
  datatype Metrics = Metrics(totalPatients: int, bedOccupancy: int, admissionRate: int, equipmentUtilization: int)

  /** `EquipmentData`. */
  datatype EquipmentData = EquipmentData(name: string, value: nat, total: nat)

  /** `PatientTrend`. */
  datatype TrendPoint = TrendPoint(date: string, admissions: nat, discharges: nat)

  datatype Medication = Medication(
    name: string,
    dosage: string,
    frequency: string,
    duration: string,
    notes: Option<string>)

  datatype PrescriptionStatus = Draft | Signed | Sent

  /**
   * The prescription being edited. `followUpDate` is kept as milliseconds
   * since the epoch rather than as the ISO string the source formats it to.
   */
  datatype Prescription = Prescription(
    id: string,
    patientId: string,
    doctorId: string,
    date: string,
    medications: seq<Medication>,
    advice: seq<string>,
    followUpDate: Option<int>,
    status: PrescriptionStatus,
    digitalSignature: Option<string>)

  /** `PrescriptionTemplate`. */
  datatype Template = Template(
    id: string,
    condition: string,
    medications: seq<Medication>,
    advice: seq<string>,
    followUpDays: int,
    createdBy: string)
}
