/**
 * The upload gate of src/components/ImageUploader.tsx: a dropped file is
 * passed on only when its name carries a medical keyword.
 */
module ImageUploader {
  import opened Wrappers
  import opened Text
  import Dashboard

  /**
   * A file the drop zone accepted (an image of an allowed extension, one at
   * a time); only its name matters to the gate.
   */
  datatype File = File(name: string)

  /** `MEDICAL_KEYWORDS`. */
  const MedicalKeywords: seq<string> := [
    "xray", "x-ray", "mri", "ct", "scan", "ultrasound", "radiograph", "medical",
    "chest", "brain", "lung", "cardiac", "bone", "spine", "skull", "abdomen",
    "dicom", "mammogram", "ecg", "ekg", "pet", "radiography", "diagnostic"]

  /** `isMedicalImage`: the lower-cased name contains one of the keywords. */
  predicate IsMedicalImage(name: string)
  {
    exists i | 0 <= i < |MedicalKeywords| :: Includes(ToLower(name), MedicalKeywords[i])
  }

  /** The gate ignores case. */
  lemma IgnoresCase(name: string)
    ensures IsMedicalImage(ToLower(name)) == IsMedicalImage(name)
  {
    ToLowerIdempotent(name);
  }

  /** A name containing an accepted name is accepted. */
  lemma Monotone(small: string, large: string)
    requires IsMedicalImage(small) && Includes(large, small)
    ensures IsMedicalImage(large)
  {
    var i :| 0 <= i < |MedicalKeywords| && Includes(ToLower(small), MedicalKeywords[i]);
    IncludesToLower(large, small);
    IncludesTransitive(ToLower(large), ToLower(small), MedicalKeywords[i]);
  }

  /** Keywords match anywhere: "project.png" passes because it contains "ct". */
  lemma ProjectPngAccepted()
    ensures IsMedicalImage("proje" + "ct" + ".png")
  {
    var name := "proje" + "ct" + ".png";
    assert forall i :: 0 <= i < |name| ==> !('A' <= name[i] <= 'Z');
    ToLowerFixed(name);
    assert name[5..7] == "ct";
    assert OccursAt(name, MedicalKeywords[3], 5);
  }

  /** Every name the detector reads as a brain tumour or lung cancer passes the gate. */
  lemma DetectedTumoursPassTheGate(name: string)
    requires Dashboard.MatchDisease(name) == Some(Dashboard.BrainTumor) || Dashboard.MatchDisease(name) == Some(Dashboard.LungCancer)
    ensures IsMedicalImage(name)
  {
    if Dashboard.MatchDisease(name) == Some(Dashboard.BrainTumor) {
      assert MedicalKeywords[9] == "brain";
    } else {
      assert Includes(ToLower(name), "lung");
      assert MedicalKeywords[10] == "lung";
    }
  }

  /**
   * `onDrop`, over the drop zone's accepted files: nothing for an empty
   * list; otherwise the first file, if its name passes.
   */
  function OnDrop(accepted: seq<File>): (upload: Option<File>)
    ensures upload.Some? <==> accepted != [] && IsMedicalImage(accepted[0].name)
    ensures upload.Some? ==> upload.value == accepted[0]
  {
    if |accepted| > 0 && IsMedicalImage(accepted[0].name) then Some(accepted[0]) else None
  }
}
