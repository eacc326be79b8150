/**
 * The prescription editor of src/components/PrescriptionGenerator.tsx: the
 * template table, template selection (by hand or from the detected
 * disease), indexed edits of medications and advice, and signing.
 *
 * `Date.now()` is the parameter `now`, in milliseconds; the follow-up date
 * is kept in milliseconds rather than formatted as an ISO string.
 */
module PrescriptionEditor {
  import opened Wrappers
  import opened Records
  import opened Seqs
  import Dashboard

  const MsPerDay := 24 * 60 * 60 * 1000
  const DoctorName := "Dr. Smith"
  const DoctorId := "DR001"

  function Drug(name: string, dosage: string, frequency: string, duration: string): Medication
  {
    Medication(name, dosage, frequency, duration, None)
  }

  /** `MEDICATION_DATABASE`: the medications listed for each condition. */
  const MedicationDatabase: map<string, seq<Medication>> := map[
    "Pneumonia" := [Drug("Azithromycin", "500mg", "Once daily", "3 days"),
                    Drug("Amoxicillin", "500mg", "Three times daily", "7 days")],
    "Pleural Effusion" := [Drug("Furosemide", "40mg", "Once daily", "5 days"),
                           Drug("Spironolactone", "25mg", "Once daily", "7 days")],
    "Lung Cancer" := [Drug("Cisplatin", "75mg/m²", "Once every 3 weeks", "4-6 cycles"),
                      Drug("Pemetrexed", "500mg/m²", "Once every 3 weeks", "4-6 cycles")],
    "Brain Tumor" := [Drug("Dexamethasone", "4mg", "Four times daily", "As directed"),
                      Drug("Levetiracetam", "500mg", "Twice daily", "As directed")]
  ]

  const PneumoniaTemplate := Template("1", "Pneumonia", MedicationDatabase["Pneumonia"],
    ["Complete rest for 5-7 days", "Stay hydrated", "Monitor temperature", "Deep breathing exercises"],
    14, DoctorName)

  const PleuralEffusionTemplate := Template("2", "Pleural Effusion", MedicationDatabase["Pleural Effusion"],
    ["Limited physical activity", "Monitor breathing difficulty", "Regular vital checks",
     "Report increased shortness of breath"],
    7, DoctorName)

  const LungCancerTemplate := Template("3", "Lung Cancer", MedicationDatabase["Lung Cancer"],
    ["Regular oncology follow-up", "Monitor side effects", "Maintain nutrition", "Report any new symptoms",
     "Join support group"],
    21, DoctorName)

  const BrainTumorTemplate := Template("4", "Brain Tumor", MedicationDatabase["Brain Tumor"],
    ["Regular neurological checks", "Avoid strenuous activity", "Monitor headaches and vision",
     "Keep seizure diary if applicable", "Emergency contact if symptoms worsen"],
    7, DoctorName)

  /** `ADVICE_TEMPLATES`. */
  const Templates: seq<Template> := [PneumoniaTemplate, PleuralEffusionTemplate, LungCancerTemplate, BrainTumorTemplate]

  /**
   * The template table: ids "1" to "4", all distinct; each template's
   * medications are the database entry for its condition; follow-up after
   * 14, 7, 21 and 7 days; all written by Dr. Smith.
   */
  lemma TemplateTable()
    ensures |Templates| == 4
    ensures forall i :: 0 <= i < 4 ==> Templates[i].id == ["1", "2", "3", "4"][i]
    ensures forall i, j :: 0 <= i < j < |Templates| ==> Templates[i].id != Templates[j].id
    ensures forall i, j :: 0 <= i < j < |Templates| ==> Templates[i].condition != Templates[j].condition
    ensures forall t :: t in Templates ==> t.condition in MedicationDatabase && t.medications == MedicationDatabase[t.condition]
    ensures forall i :: 0 <= i < 4 ==> Templates[i].followUpDays == [14, 7, 21, 7][i]
    ensures forall t :: t in Templates ==> t.createdBy == DoctorName
  {
  }

  /** The two ways the editor looks a template up: by its id, and by its condition. */
  datatype TemplateKey = ById | ByCondition

  function KeyOf(t: Template, key: TemplateKey): string
  {
    match key
    case ById => t.id
    case ByCondition => t.condition
  }

  /** `ADVICE_TEMPLATES.find(...)` on the id or on the condition: the first template with that key. */
  function FindTemplate(key: TemplateKey, value: string): (t: Option<Template>)
    ensures t.Some? ==> t.value in Templates && KeyOf(t.value, key) == value
    ensures t.None? <==> forall i :: 0 <= i < |Templates| ==> KeyOf(Templates[i], key) != value
  {
    Find(Templates, (t: Template) => KeyOf(t, key) == value)
  }

  /** Looking a template up by its own id finds it. */
  lemma TemplateByOwnId(i: int)
    requires 0 <= i < |Templates|
    ensures FindTemplate(ById, Templates[i].id) == Some(Templates[i])
  {
    TemplateTable();
  }

  /** Looking a template up by its own condition finds it. */
  lemma TemplateForOwnCondition(i: int)
    requires 0 <= i < |Templates|
    ensures FindTemplate(ByCondition, Templates[i].condition) == Some(Templates[i])
  {
    TemplateTable();
  }

  /** Every condition the detector reports has a template, in the same order. */
  lemma DetectedConditionHasTemplate(i: int)
    requires 0 <= i < |Dashboard.Conditions|
    ensures FindTemplate(ByCondition, Dashboard.Conditions[i].name) == Some(Templates[i])
  {
    assert Dashboard.Conditions[i].name == Templates[i].condition;
    TemplateForOwnCondition(i);
  }

  /** The prescription after choosing a template: its medications, advice and follow-up date. */
  function ApplyTemplate(p: Prescription, templateId: string, now: int): (q: Prescription)
    ensures FindTemplate(ById, templateId).None? ==> q == p
    ensures q.id == p.id && q.patientId == p.patientId && q.status == p.status
  {
    match FindTemplate(ById, templateId)
    case None => p
    case Some(t) => p.(medications := t.medications, advice := t.advice,
                       followUpDate := Some(now + t.followUpDays * MsPerDay))
  }

  /** Choosing a template by its own id applies that template. */
  lemma ApplyOwnTemplate(p: Prescription, i: int, now: int)
    requires 0 <= i < |Templates|
    ensures var t := Templates[i];
      ApplyTemplate(p, t.id, now) == p.(medications := t.medications, advice := t.advice,
                                        followUpDate := Some(now + t.followUpDays * MsPerDay))
  {
    TemplateByOwnId(i);
  }

  /** The template found for a condition is applied by its id. */
  lemma ApplyFoundTemplate(p: Prescription, condition: string, now: int)
    requires FindTemplate(ByCondition, condition).Some?
    ensures var t := FindTemplate(ByCondition, condition).value;
      ApplyTemplate(p, t.id, now) == p.(medications := t.medications, advice := t.advice,
                                        followUpDate := Some(now + t.followUpDays * MsPerDay))
  {
    var t := FindTemplate(ByCondition, condition).value;
    var i :| 0 <= i < |Templates| && Templates[i] == t;
    ApplyOwnTemplate(p, i, now);
  }

  /** The editable fields of a medication (`keyof Medication`). */
  datatype MedicationField = NameField | DosageField | FrequencyField | DurationField | NotesField

  function GetField(m: Medication, f: MedicationField): Option<string>
  {
    match f
    case NameField => Some(m.name)
    case DosageField => Some(m.dosage)
    case FrequencyField => Some(m.frequency)
    case DurationField => Some(m.duration)
    case NotesField => m.notes
  }

  /** `{ ...med, [field]: value }`. */
  function SetField(m: Medication, f: MedicationField, value: string): Medication
  {
    match f
    case NameField => m.(name := value)
    case DosageField => m.(dosage := value)
    case FrequencyField => m.(frequency := value)
    case DurationField => m.(duration := value)
    case NotesField => m.(notes := Some(value))
  }

  /** Setting a field changes that field and no other. */
  lemma SetFieldOnly(m: Medication, f: MedicationField, value: string, g: MedicationField)
    ensures GetField(SetField(m, f, value), g) == if g == f then Some(value) else GetField(m, g)
  {
  }

  /** `handleMedicationChange` on the list. */
  function EditMedications(meds: seq<Medication>, index: int, f: MedicationField, value: string): (r: seq<Medication>)
    ensures |r| == |meds|
    ensures forall i :: 0 <= i < |meds| && i != index ==> r[i] == meds[i]
    ensures 0 <= index < |meds| ==> forall g :: GetField(r[index], g) == if g == f then Some(value) else GetField(meds[index], g)
    ensures !(0 <= index < |meds|) ==> r == meds
  {
    var r := seq(|meds|, i requires 0 <= i < |meds| => if i == index then SetField(meds[i], f, value) else meds[i]);
    if 0 <= index < |meds| then
      forall g ensures GetField(r[index], g) == if g == f then Some(value) else GetField(meds[index], g) {
        SetFieldOnly(meds[index], f, value, g);
      }
      r
    else
      r
  }

  /** `handleAdviceChange` on the list. */
  function EditAdvice(advice: seq<string>, index: int, value: string): (r: seq<string>)
    ensures |r| == |advice|
    ensures forall i :: 0 <= i < |advice| && i != index ==> r[i] == advice[i]
    ensures 0 <= index < |advice| ==> r[index] == value
    ensures !(0 <= index < |advice|) ==> r == advice
  {
    seq(|advice|, i requires 0 <= i < |advice| => if i == index then value else advice[i])
  }

  /** The prescription handed to the save callback: signed by Dr. Smith. */
  function SignedCopy(p: Prescription): (q: Prescription)
    ensures q.status == Signed && q.digitalSignature == Some(DoctorName)
    ensures q.(status := p.status, digitalSignature := p.digitalSignature) == p
  {
    p.(status := Signed, digitalSignature := Some(DoctorName))
  }

  /** The header buttons. */
  datatype Control = EditControl | SignControl | DownloadControl

  /** Edit and sign while unsigned; only the download once signed. */
  function Controls(isSigned: bool): (cs: seq<Control>)
    ensures SignControl in cs <==> !isSigned
    ensures EditControl in cs <==> !isSigned
    ensures DownloadControl in cs <==> isSigned
  {
    if isSigned then [DownloadControl] else [EditControl, SignControl]
  }

  class PrescriptionEditor {
    var prescription: Prescription
    var selectedTemplate: string
    var isEditing: bool
    var isSigned: bool
    /** Every prescription passed to `onSavePrescription`, oldest first. */
    var saved: seq<Prescription>

    /**
     * A fresh draft, followed by the auto-select effect's first run for the
     * detected disease.
     */
    constructor (id: string, patientId: string, date: string, detectedDisease: string, now: int)
      ensures var draft := Prescription(id, patientId, DoctorId, date, [], [], None, Draft, None);
        match FindTemplate(ByCondition, detectedDisease)
        case None => prescription == draft && selectedTemplate == ""
        case Some(t) => prescription == ApplyTemplate(draft, t.id, now) && selectedTemplate == t.id
      ensures !isEditing && !isSigned && saved == []
    {
      var draft := Prescription(id, patientId, DoctorId, date, [], [], None, Draft, None);
      prescription := draft;
      selectedTemplate := "";
      match FindTemplate(ByCondition, detectedDisease) {
        case None =>
        case Some(t) =>
          prescription := ApplyTemplate(draft, t.id, now);
          selectedTemplate := t.id;
      }
      isEditing, isSigned := false, false;
      saved := [];
    }

    /** `handleTemplateSelect`: a known id fills the prescription; the selection is recorded either way. */
    method SelectTemplate(templateId: string, now: int)
      modifies this`prescription, this`selectedTemplate
      ensures selectedTemplate == templateId
      ensures prescription == ApplyTemplate(old(prescription), templateId, now)
      ensures FindTemplate(ById, templateId).None? ==> prescription == old(prescription)
    {
      prescription := ApplyTemplate(prescription, templateId, now);
      selectedTemplate := templateId;
    }

    /**
     * The auto-select effect, run when the detected disease changes: the
     * template for that condition is selected; with none, nothing changes.
     */
    method DetectedDiseaseChanged(disease: string, now: int)
      modifies this`prescription, this`selectedTemplate
      ensures FindTemplate(ByCondition, disease).None? ==> prescription == old(prescription) && selectedTemplate == old(selectedTemplate)
      ensures FindTemplate(ByCondition, disease).Some? ==>
        var t := FindTemplate(ByCondition, disease).value;
        && selectedTemplate == t.id
        && prescription == old(prescription).(medications := t.medications, advice := t.advice,
                                               followUpDate := Some(now + t.followUpDays * MsPerDay))
    {
      var found := FindTemplate(ByCondition, disease);
      if found.Some? {
        ApplyFoundTemplate(prescription, disease, now);
        SelectTemplate(found.value.id, now);
      }
    }

    method ChangeMedication(index: int, field: MedicationField, value: string)
      modifies this`prescription
      ensures prescription == old(prescription).(medications := EditMedications(old(prescription).medications, index, field, value))
    {
      prescription := prescription.(medications := EditMedications(prescription.medications, index, field, value));
    }

    method ChangeAdvice(index: int, value: string)
      modifies this`prescription
      ensures prescription == old(prescription).(advice := EditAdvice(old(prescription).advice, index, value))
    {
      prescription := prescription.(advice := EditAdvice(prescription.advice, index, value));
    }

    /** The edit button, shown only while unsigned. */
    method ToggleEditing()
      requires EditControl in Controls(isSigned)
      modifies this`isEditing
      ensures isEditing == !old(isEditing)
    {
      isEditing := !isEditing;
    }

    /**
     * `handleSignPrescription`: the signed copy goes to the save callback and
     * the editor switches to its signed controls. The prescription held by
     * the editor itself is not changed.
     */
    method Sign()
      requires SignControl in Controls(isSigned)
      modifies this`saved, this`isSigned
      ensures saved == old(saved) + [SignedCopy(prescription)]
      ensures isSigned && Controls(isSigned) == [DownloadControl]
    {
      saved := saved + [SignedCopy(prescription)];
      isSigned := true;
    }
  }
}
