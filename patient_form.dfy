/**
 * The add-patient form of src/components/PatientForm.tsx: the open/closed
 * flag, the field edits, the equipment checkboxes and submission.
 */
module PatientForm {
  import opened Records
  import opened Seqs
  import Dashboard

  /** `formData`: every input as the text the browser holds. */
  datatype FormData = FormData(
    name: string,
    age: string,
    gender: string,
    location: string,
    diagnosis: string,
    bedNumber: string,
    equipmentUsed: seq<string>)

  const EmptyForm := FormData("", "", "Male", "", "", "", [])

  /** The checkboxes the form offers. */
  const EquipmentOptions: seq<string> := ["MRI", "CT Scan", "X-Ray", "Ultrasound"]

  /** The form offers exactly the devices the dashboard's usage chart counts. */
  lemma OptionsAreChartedDevices()
    ensures EquipmentOptions == Dashboard.EquipmentNames
  {
  }

  /** The text inputs of the form. */
  datatype Field = NameField | AgeField | GenderField | LocationField | DiagnosisField | BedNumberField

  /** The text an input holds. */
  function FieldValue(form: FormData, f: Field): string
  {
    match f
    case NameField => form.name
    case AgeField => form.age
    case GenderField => form.gender
    case LocationField => form.location
    case DiagnosisField => form.diagnosis
    case BedNumberField => form.bedNumber
  }

  /** `setFormData({ ...formData, [field]: value })` from an input's change handler. */
  function SetField(form: FormData, f: Field, value: string): (r: FormData)
    ensures forall g :: FieldValue(r, g) == if g == f then value else FieldValue(form, g)
    ensures r.equipmentUsed == form.equipmentUsed
  {
    match f
    case NameField => form.(name := value)
    case AgeField => form.(age := value)
    case GenderField => form.(gender := value)
    case LocationField => form.(location := value)
    case DiagnosisField => form.(diagnosis := value)
    case BedNumberField => form.(bedNumber := value)
  }

  /**
   * `handleEquipmentChange`: a listed device is removed (every occurrence),
   * an unlisted one is appended.
   */
  function Toggle(list: seq<string>, device: string): (r: seq<string>)
    ensures device in list ==> device !in r && forall i :: 0 <= i < |list| && list[i] != device ==> list[i] in r
    ensures device in list ==> forall i :: 0 <= i < |r| ==> r[i] in list
    ensures device !in list ==> r == list + [device]
  {
    if device in list then Filter(list, (x: string) => x != device) else list + [device]
  }

  /** Checking and unchecking an unchecked device gives back the list exactly. */
  lemma ToggleTwiceAbsent(list: seq<string>, device: string)
    requires device !in list
    ensures Toggle(Toggle(list, device), device) == list
  {
    assert device in list + [device];
    FilterConcat(list, [device], (x: string) => x != device);
    FilterKeepsAll(list, (x: string) => x != device);
  }

  /** Toggling a device twice restores which devices are listed, though not necessarily their order. */
  lemma ToggleTwiceMembership(list: seq<string>, device: string, x: string)
    ensures x in Toggle(Toggle(list, device), device) <==> x in list
  {
    if device !in list {
      ToggleTwiceAbsent(list, device);
    } else {
      var once := Toggle(list, device);
      assert device !in once;
      assert Toggle(once, device) == once + [device];
      if x != device && x in list {
        var i :| 0 <= i < |list| && list[i] == x;
      }
    }
  }

  /** Only offered devices, each at most once. */
  predicate WellFormedEquipment(list: seq<string>)
  {
    NoDuplicates(list) && forall i :: 0 <= i < |list| ==> list[i] in EquipmentOptions
  }

  /** Toggling an offered device keeps the equipment list well formed. */
  lemma ToggleKeepsWellFormed(list: seq<string>, device: string)
    requires WellFormedEquipment(list) && device in EquipmentOptions
    ensures WellFormedEquipment(Toggle(list, device))
  {
    if device in list {
      FilterNoDuplicates(list, (x: string) => x != device);
    } else {
      var r := list + [device];
      forall i, j | 0 <= i < j < |r| ensures r[i] != r[j] {
        if j == |list| {
          assert r[i] == list[i];
        }
      }
    }
  }

  /** The equipment list after a run of checkbox clicks. */
  function ToggleAll(list: seq<string>, clicks: seq<string>): seq<string>
    decreases |clicks|
  {
    if clicks == [] then list else ToggleAll(Toggle(list, clicks[0]), clicks[1..])
  }

  /**
   * From the empty list, clicking only the offered checkboxes yields a
   * duplicate-free list of offered devices, at most four long.
   */
  lemma {:induction false} ClicksStayWellFormed(list: seq<string>, clicks: seq<string>)
    requires WellFormedEquipment(list)
    requires forall i :: 0 <= i < |clicks| ==> clicks[i] in EquipmentOptions
    ensures WellFormedEquipment(ToggleAll(list, clicks))
    ensures |ToggleAll(list, clicks)| <= |EquipmentOptions|
    decreases |clicks|
  {
    if clicks == [] {
      DistinctWithin(list, EquipmentOptions);
    } else {
      ToggleKeepsWellFormed(list, clicks[0]);
      ClicksStayWellFormed(Toggle(list, clicks[0]), clicks[1..]);
    }
  }

  /** A duplicate-free list drawn from `pool` is no longer than `pool`. */
  lemma {:induction false} DistinctWithin(list: seq<string>, pool: seq<string>)
    requires NoDuplicates(list)
    requires forall i :: 0 <= i < |list| ==> list[i] in pool
    ensures |list| <= |pool|
    decreases |list|
  {
    if list != [] {
      var rest := Filter(pool, (x: string) => x != list[0]);
      FilterDropsPresent(pool, list[0]);
      forall i | 0 <= i < |list[1..]| ensures list[1..][i] in rest {
        assert list[1..][i] == list[i + 1] && list[i + 1] != list[0];
        var k :| 0 <= k < |pool| && pool[k] == list[i + 1];
      }
      assert NoDuplicates(list[1..]) by {
        forall i, j | 0 <= i < j < |list[1..]| ensures list[1..][i] != list[1..][j] {
          assert list[1..][i] == list[i + 1] && list[1..][j] == list[j + 1];
        }
      }
      DistinctWithin(list[1..], rest);
    }
  }

  /** Removing an element that is present shortens a list. */
  lemma {:induction false} FilterDropsPresent(pool: seq<string>, x: string)
    requires x in pool
    ensures |Filter(pool, (y: string) => y != x)| < |pool|
    decreases |pool|
  {
    if pool[0] != x {
      assert x in pool[1..];
      FilterDropsPresent(pool[1..], x);
    }
  }

  /** The browser's `required` check: every required input is filled in. */
  predicate Complete(form: FormData)
  {
    form.name != "" && form.age != "" && form.location != "" && form.diagnosis != "" && form.bedNumber != ""
  }

  /** The patient a submission creates; `parseInt` reads the age. */
  function NewPatient(form: FormData, id: string, admissionDate: string, parseInt: string -> int): (p: Patient)
    ensures p.status == Admitted && p.equipmentUsed == form.equipmentUsed
    ensures p.name == form.name && p.location == form.location && p.diagnosis == form.diagnosis
    ensures p.gender == form.gender && p.bedNumber == form.bedNumber
  {
    Patient(id, form.name, parseInt(form.age), form.gender, form.location, form.diagnosis, form.bedNumber,
            admissionDate, Admitted, form.equipmentUsed)
  }

  class PatientForm {
    var isOpen: bool
    var form: FormData
    /** Every patient passed to `onAddPatient`, oldest first. */
    var added: seq<Patient>

    constructor ()
      ensures !isOpen && form == EmptyForm && added == []
    {
      isOpen, form, added := false, EmptyForm, [];
    }

    /** The "Add New Patient" button. */
    method Open()
      modifies this`isOpen
      ensures isOpen
    {
      isOpen := true;
    }

    /** The cancel button: closes the form and keeps what was typed. */
    method Cancel()
      modifies this`isOpen
      ensures !isOpen
    {
      isOpen := false;
    }

    method Edit(f: Field, value: string)
      modifies this`form
      ensures form == SetField(old(form), f, value)
    {
      form := SetField(form, f, value);
    }

    method ToggleEquipment(device: string)
      modifies this`form
      ensures form == old(form).(equipmentUsed := Toggle(old(form).equipmentUsed, device))
    {
      form := form.(equipmentUsed := Toggle(form.equipmentUsed, device));
    }

    /**
     * `handleSubmit`, behind the browser's `required` check: an incomplete
     * form is not submitted. A complete one adds one admitted patient, then
     * closes and clears the form.
     */
    method Submit(id: string, admissionDate: string, parseInt: string -> int) returns (submitted: bool)
      requires isOpen
      modifies this`isOpen, this`form, this`added
      ensures submitted <==> Complete(old(form))
      ensures !submitted ==> isOpen && form == old(form) && added == old(added)
      ensures submitted ==>
        && added == old(added) + [NewPatient(old(form), id, admissionDate, parseInt)]
        && !isOpen && form == EmptyForm
    {
      if !Complete(form) {
        return false;
      }
      added := added + [NewPatient(form, id, admissionDate, parseInt)];
      isOpen := false;
      form := EmptyForm;
      submitted := true;
    }
  }
}
