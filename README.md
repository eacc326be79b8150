# healthcaredash core, modelled in Dafny

healthcaredash is a React dashboard for a hospital ward. A clinician uploads a scan and the dashboard works out a "detection" from the file name. The detection names one of four conditions (pneumonia, pleural effusion, lung cancer, brain tumour) and carries random figures and a box drawn over the image. The clinician can drag the box; it glides with momentum and an elastic transition, and its confidence is rescored from where it sits. The dashboard also keeps a patient list with search and ward statistics, an alert panel, an add-patient form, and a prescription editor filled from per-condition templates.

This project models that core:

- `Confidence` (confidence.dfy) is the box scorer. It is computed without a square root and proved equal to the source formula for the true distance.
- `DetectionBox` (detection_box.dfy) is the drag, momentum and transition controller. It is a class whose fields are the component's refs and state.
- `Dashboard` (dashboard.dfy) holds the disease detector, search, metrics, trend window and list handlers of the app. The app state is a class.
- `PrescriptionEditor` (prescription.dfy) is the template table and the editor class.
- `PatientForm` (patient_form.dfy) is the add-patient form: its equipment checkboxes and submission.
- `ImageUploader` (image_uploader.dfy) is the keyword gate on dropped files.
- `AlertSystem` (alert_system.dfy) is the alert panel.
- `AnalysisDetails` (analysis_details.dfy) is the severity colour.
- `Records`, `Seqs`, `Text` and `Wrappers` hold the shared records, the sequence helpers (`filter`, `map`, `find`) and the JavaScript string operations `toLowerCase` and `includes`.

The model follows what the code does, including these behaviours:

- **Coverage units.** The confidence divides the box area, in fractions of the image, by the image area in pixels. So the coverage factor of any real image is practically 0 (`Confidence.PixelAreaDilutesCoverage`). A centred 0.2 × 0.2 box over a 640 × 480 image scores 72, not 80 (`Confidence.ScoreOfCentredBox`).
- **Zero image area.** Before the image loads, the image size is 0 × 0. The score is then 61, or NaN for a box of zero area.
- **Release.** Releasing the mouse always starts the 300 ms transition. Each momentum callback recomputes from the position and image size captured at release, not from where the previous momentum tick left the box.
- **Unknown file names.** An upload whose file name names no known condition clears the detection. The handler then fails reading the missing result's status, so no alert and no history entry are added.
- **Signing.** Signing passes a signed copy to the save callback. The editor's own prescription stays unsigned.

## Model

| member | source | states |
|---|---|---|
| Confidence.Round | src/components/DetectionResult.tsx:88 | `Math.round`: the result is within one half of the input, with halves rounded up |
| Confidence.CentreDistanceSq | src/components/DetectionResult.tsx:67-74 | the squared centre distance is non-negative |
| Confidence.PositionFactor | src/components/DetectionResult.tsx:82 | the position factor lies in [0, 1]; it is 1 exactly at the image centre and 0 from distance 0.5 on |
| Confidence.CoverageFactor | src/components/DetectionResult.tsx:77-79 | the coverage factor is at most 1, and equals 1 exactly at the optimal coverage of 0.15 |
| Confidence.Clamp | src/components/DetectionResult.tsx:91 | the result lies in [61, 80], and a value already in range is kept |
| Confidence.StepsReached | src/components/DetectionResult.tsx:85-88 | the number of rounding steps reached is at most the number of steps asked about |
| Confidence.ScoreFromDistance | src/components/DetectionResult.tsx:66-92 | the formula as written, given the square root's value; with an image of positive area the score is finite and lies in [61, 80] |
| Confidence.CalculateConfidence | src/components/DetectionResult.tsx:66-92 | the score is finite whenever the image has pixels, and a finite score lies in [61, 80]; it is NaN exactly when the image and the box both have zero area, and is 61 for an empty image with a non-empty box |
| Confidence.SquareMonotone | src/components/DetectionResult.tsx:72-74 | for non-negative values, comparing them is comparing their squares, so the square root can be dropped |
| Confidence.ReachesStepExact | src/components/DetectionResult.tsx:72-88 | the square-root-free test for step k holds exactly when the rounded weighted score is at least k |
| Confidence.StepsReachedCount | src/components/DetectionResult.tsx:88-91 | counting the reached steps gives the rounded score cut to [0, 19], which is the clamp to [61, 80] after adding 61 |
| Confidence.CalculateConfidenceAsWritten | src/components/DetectionResult.tsx:66-92 | for the true distance d (d ≥ 0, d² the squared centre distance), the computed score equals the source formula with `Math.sqrt` |
| Confidence.ReachesStepMonotone | src/components/DetectionResult.tsx:72-85 | a step reached farther from the centre is also reached nearer to it |
| Confidence.StepsReachedMonotone | src/components/DetectionResult.tsx:72-88 | a smaller squared distance reaches at least as many steps |
| Confidence.ConfidenceMonotone | src/components/DetectionResult.tsx:66-92 | for the same box size and image, a box centre nearer the image centre never scores lower |
| Confidence.ProductAtMost | src/components/DetectionResult.tsx:77 | a box side in [0, 1] times another in [0, 1] gives an area in [0, 1] |
| Confidence.CoverageFactorAntitone | src/components/DetectionResult.tsx:79 | the coverage factor falls as the coverage moves away from 0.15 |
| Confidence.ReachesStepCoverageMonotone | src/components/DetectionResult.tsx:79-88 | a step reached with a coverage factor is reached with any larger one |
| Confidence.StepsReachedCoverageMonotone | src/components/DetectionResult.tsx:79-88 | a larger coverage factor reaches at least as many steps |
| Confidence.CoverageMonotone | src/components/DetectionResult.tsx:66-92 | for two boxes with the same centre over the same image, the one whose coverage is nearer 0.15 never scores lower |
| Confidence.CoverageFactorUnbounded | src/components/DetectionResult.tsx:79 | the coverage factor has no lower bound; only the final clamp keeps the score at or above 61 |
| Confidence.PixelAreaDilutesCoverage | src/components/DetectionResult.tsx:77 | a unit-square box over an image of 7 or more pixels has a coverage factor between 0 and 1/(0.15 × pixel area) |
| Confidence.ReachesStepAntitone | src/components/DetectionResult.tsx:88 | reaching a step implies reaching every lower step |
| Confidence.StepsReachedUpTo | src/components/DetectionResult.tsx:88-91 | when m is the highest step reached, the step count is m |
| Confidence.ScoreOfOffCentreBox | src/components/DetectionResult.tsx:66-92 | a 0.2 × 0.2 box at (0.3, 0.3) over a one-pixel image scores 71 |
| Confidence.ScoreOfCentredBox | src/components/DetectionResult.tsx:66-92 | the same box centred over a 640 × 480 image scores 72, because of the pixel-unit coverage |
| DetectionBox.ClampAxis | src/components/DetectionResult.tsx:149-150 | a clamped box edge lies in [0, 1 - extent]; an in-range value is kept, and values past either end go to that end |
| DetectionBox.Normalize | src/components/DetectionResult.tsx:113-117 | the canvas scale cancels: the normalised coordinate is (client - origin) / displayed size |
| DetectionBox.Hit | src/components/DetectionResult.tsx:122-123 | the point lies in the closed box; used by `DetectionBox.BoxController.MouseDown`, whose contract starts a drag exactly on a hit |
| DetectionBox.Lerp | src/components/DetectionResult.tsx:186-188 | interpolation gives the start at t = 0 and the end at t = 1 |
| DetectionBox.LerpBetween | src/components/DetectionResult.tsx:186-188 | for t in [0, 1] the interpolated value lies between the two endpoints |
| DetectionBox.EaseOutElastic | src/components/DetectionResult.tsx:190-197 | the easing is 0 at progress 0 and 1 at progress 1 |
| DetectionBox.Progress | src/components/DetectionResult.tsx:217-218 | progress is at most 1, not negative for a non-negative elapsed time, and equals 1 exactly once 300 ms have passed |
| DetectionBox.TicksDecay | src/components/DetectionResult.tsx:173-176 | a 0.92 decay never raises the tick bound of a speed, and lowers it while the speed is above 0.01 |
| DetectionBox.DecayLowersSteps | src/components/DetectionResult.tsx:167-176 | a decay never raises the momentum measure, and strictly lowers it while either velocity component exceeds 0.01 |
| DetectionBox.DecayTimesIsPower | src/components/DetectionResult.tsx:173-176 | the n-fold 0.92 decay of one velocity component is the closed form v × 0.92^n |
| DetectionBox.StaysBelowStop | src/components/DetectionResult.tsx:167-176 | a component at or below the stop speed stays there under further decay |
| DetectionBox.DecaySettles | src/components/DetectionResult.tsx:167-176 | after Ticks(\|v\|) decays a velocity component is at or below the stop speed, so momentum ends |
| DetectionBox.SettledAfterTicks | src/components/DetectionResult.tsx:167-176 | once n reaches both components' tick bounds, \|v0\| × 0.92^n is at or below the stop speed in both components, so the closed-form settling point exists and is at most the larger tick bound |
| DetectionBox.MomentumTarget | src/components/DetectionResult.tsx:168-169 | a momentum step keeps the captured box's size, and keeps a box that lies inside the image inside it |
| DetectionBox.ApplyMomentum | src/components/DetectionResult.tsx:166-179 | while dragging or below the stop speed nothing changes; otherwise the box moves to the momentum target (same size, still inside the image), the velocity decays by 0.92, one update with the new box's confidence is reported and the callback is rescheduled |
| DetectionBox.RunFrame | src/components/DetectionResult.tsx:166-182 | the callbacks of one frame, run in request order; its properties are `DetectionBox.RunFrameExtends`, `DetectionBox.RunFrameProgress` and `DetectionBox.RunFrameConsistent` |
| DetectionBox.RunFrameExtends | src/components/DetectionResult.tsx:166-182 | a frame only appends updates and rescheduled callbacks, one of each per callback that moved the box, and at most one per pending callback |
| DetectionBox.RunFrameDecay | src/components/DetectionResult.tsx:166-182 | a frame never makes a velocity component larger; a frame that reschedules has multiplied each component by at most 0.92; a frame that starts at or below the stop speed changes nothing |
| DetectionBox.RunFrameProgress | src/components/DetectionResult.tsx:166-182 | one frame of momentum callbacks either changes nothing (then momentum is over or a drag is on) or strictly lowers the momentum measure and reschedules |
| DetectionBox.RunFrameConsistent | src/components/DetectionResult.tsx:166-182 | a frame of momentum callbacks leaves the box inside the image, with its size unchanged |
| DetectionBox.BoxController.constructor | src/components/DetectionResult.tsx:17-27 | the box starts at the result's position, or (0.2, 0.3, 0.3, 0.2) without one; not dragging or animating; a 300 × 150 canvas; image size 0 × 0 |
| DetectionBox.BoxController.ImageLoaded | src/components/DetectionResult.tsx:59-64 | the canvas and the recorded image size both take the image's natural size |
| DetectionBox.BoxController.MouseDown | src/components/DetectionResult.tsx:108-129 | the pointer is recorded and the velocity zeroed; a press inside the closed box starts a drag with the grab offset and stops the transition, and a press outside changes nothing else |
| DetectionBox.BoxController.MouseMove | src/components/DetectionResult.tsx:131-154 | not dragging: nothing changes. Dragging: the velocity is the pointer delta × 0.15, the previous box becomes the transition start, the box moves under the pointer clamped into the image, and one update with the new box's confidence is reported |
| DetectionBox.BoxController.UpdateDetectionResult | src/components/DetectionResult.tsx:94-106 | the box's corner becomes the new one, its size is kept, and the box and its confidence are reported once |
| DetectionBox.BoxController.MouseUp | src/components/DetectionResult.tsx:156-184 | releasing a drag ends it, starts the transition at `now` and schedules one momentum callback that captures the box and image size of that moment; without a drag nothing changes |
| DetectionBox.BoxController.AnimationFrame | src/components/DetectionResult.tsx:166-182 | the new state is one frame of the pending callbacks run in order; the momentum measure never grows and strictly falls when callbacks reschedule; with none rescheduled, momentum is over or a drag is on |
| DetectionBox.SettleStep | src/components/DetectionResult.tsx:166-182 | the settling invariant (both components within 0.92^frames of the release velocity while a callback waits, and the frame count bounded by every n with \|v0\| × 0.92^n at or below the stop speed) survives one frame that either decays and reschedules or runs nothing |
| DetectionBox.FrameSettles | src/components/DetectionResult.tsx:166-182 | one frame of waiting callbacks keeps the settling invariant |
| DetectionBox.BoxController.SettleMomentum | src/components/DetectionResult.tsx:166-182 | frames without pointer events end with no callback pending and, unless a drag is on, the velocity settled; the frame count is at most n + 1 for every n with \|v0\| × 0.92^n at or below the stop speed in both components (the logarithmic bound), and at most the initial momentum measure plus one |
| DetectionBox.BoxController.Displayed | src/components/DetectionResult.tsx:214-230 | the shown box keeps the committed size, and is the committed box once not animating or once 300 ms have passed |
| DetectionBox.BoxController.RenderFrame | src/components/DetectionResult.tsx:199-235 | before the image has loaded nothing is drawn; otherwise the frame shows the displayed box and its confidence, and the transition flag clears once progress reaches 1 |
| DetectionBox.TransitionEndpoints | src/components/DetectionResult.tsx:219-228 | the transition starts at the previous box and ends at the committed one |
| Dashboard.MatchDisease | src/App.tsx:102-134 | on the lower-cased name, in priority order: brain tumour exactly when it contains "brain" and "tumor"; pneumonia exactly when that fails and it contains "pneumonia"; pleural effusion exactly when both fail and it contains "pleural" and "effusion"; lung cancer exactly when all three fail and it contains "lung" and "cancer"; nothing exactly when no keyword pair matches |
| Dashboard.MatchDiseaseIgnoresCase | src/App.tsx:103 | lower-casing the file name first changes nothing |
| Dashboard.PneumoniaBeforeLungCancer | src/App.tsx:107-115 | priority order: "lungcancer-pneumonia" is read as pneumonia |
| Dashboard.RandomPosition | src/App.tsx:93-100 | `getRandomPosition` from four draws; its bounds are `Dashboard.RandomPositionInside` |
| Dashboard.RandomPositionInside | src/App.tsx:93-100 | with draws in [0, 1) the random box starts 10-40% in, is 20-40% wide and high, and lies inside the image |
| Dashboard.DrawInt | src/App.tsx:140-142 | `Math.floor(r × n) + base`; its range is `Dashboard.DrawIntRange` |
| Dashboard.DrawIntRange | src/App.tsx:140-142 | `Math.floor(r × n) + base` with r in [0, 1) lies in [base, base + n - 1] |
| Dashboard.Importance | src/App.tsx:154 | one importance weight per feature |
| Dashboard.DetectDisease | src/App.tsx:102-161 | a detection exists exactly when the name matches a condition; it carries that condition's name, features and recommendations, one importance per feature, a finite confidence and a box; it is critical exactly when severity exceeds 7, and at risk otherwise |
| Dashboard.DetectDiseaseRanges | src/App.tsx:137-154 | with draws in [0, 1): confidence and affected area in 65..75, severity in 6..9, importances in [0.65, 0.76), and a box inside the image |
| Dashboard.SearchMatch | src/App.tsx:190-194 | the lower-cased term occurs in the lower-cased name, diagnosis or location; `Dashboard.FilterPatients` shows exactly the patients it holds for |
| Dashboard.FilterPatients | src/App.tsx:190-194 | every shown patient is in the list and matches the term; every matching patient is shown |
| Dashboard.FilterPatientsOrder | src/App.tsx:190-194 | the search keeps the list order, and an empty term shows every patient |
| Dashboard.FilterPatientsCount | src/App.tsx:190-194 | the search shows each matching patient exactly as many times as the list holds it, and no copy of a non-matching one |
| Dashboard.FilterPatientsIgnoresCase | src/App.tsx:190-194 | the case of the search term does not matter |
| Dashboard.AdmittedOf | src/App.tsx:197 | there are no more admitted patients than patients |
| Dashboard.EquipmentInUse | src/App.tsx:204-207 | the summed length of the equipment lists; `Dashboard.MetricsBounds` shows the utilisation built from it is non-negative |
| Dashboard.CalculateMetrics | src/App.tsx:196-209 | `calculateMetrics`; its values are stated by `Dashboard.MetricsBounds` |
| Dashboard.MetricsBounds | src/App.tsx:196-209 | the metrics hold the patient count and a bed occupancy equal to the admitted count (out of 100 beds), an admission rate in [0, 100] and a non-negative equipment use; with no patients all four are 0 |
| Dashboard.PercentBounds | src/App.tsx:196-209 | a rounded percentage of a positive whole is non-negative, and at most 100 when the part fits in the whole |
| Dashboard.EquipmentUsage | src/App.tsx:211-220 | four entries, MRI, CT Scan, X-Ray and Ultrasound in that order; each user count is at most the total, which is the number of admitted patients |
| Dashboard.TrendWindow | src/App.tsx:238 | the window keeps the last min(n, 11) points in order and ends with the new point, so it never exceeds 12 |
| Dashboard.TrendPointOf | src/App.tsx:222-237 | the admission and discharge counts of a point are at most the number of patients |
| Dashboard.Discharge | src/App.tsx:278-282 | the list keeps its length, and every patient keeps its id and name |
| Dashboard.DischargeEffect | src/App.tsx:278-282 | only the patients with the id change, and only their status becomes Discharged; discharging twice equals discharging once |
| Dashboard.Delete | src/App.tsx:284-286 | no patient with the id remains, and every other patient remains |
| Dashboard.DeleteOrder | src/App.tsx:284-286 | deletion keeps the others in order, and deleting an absent id changes nothing |
| Dashboard.DeleteCount | src/App.tsx:284-286 | deletion removes every copy of a patient with that id and keeps every copy of each other patient |
| Dashboard.Acknowledge | src/App.tsx:288-292 | the alert list keeps its length and its ids |
| Dashboard.AcknowledgeEffect | src/App.tsx:288-292 | only the alerts with the id change, and only their flag is set; acknowledging twice equals acknowledging once |
| Dashboard.AcknowledgeHides | src/App.tsx:288-292 | after acknowledging an id, the panel shows what it showed before minus the alerts with that id |
| Dashboard.Dashboard.constructor | src/App.tsx:79-86 | no image and no detection; empty trends, equipment, history, patients and alerts; an empty search term |
| Dashboard.Dashboard.SetSearchTerm | src/App.tsx:86 | the search term becomes the typed text |
| Dashboard.Dashboard.HandleImageUpload | src/App.tsx:247-272 | the image is shown and the detection replaced; an unknown condition fails with no alert and no history entry; otherwise a critical alert is added exactly when the detection is critical, and one history entry is added |
| Dashboard.Dashboard.HandlePositionChange | src/App.tsx:163-188 | with a detection, its confidence and box are replaced and one history entry with the new confidence and the old severity is added; without one nothing changes |
| Dashboard.Dashboard.TrendTick | src/App.tsx:222-245 | a trend point is appended to a window of at most 12 points, and the equipment usage is recomputed |
| Dashboard.Dashboard.HandleAddPatient | src/App.tsx:274-276 | the patient is appended |
| Dashboard.Dashboard.HandleDischargePatient | src/App.tsx:278-282 | the list becomes its discharged form |
| Dashboard.Dashboard.HandleDeletePatient | src/App.tsx:284-286 | the list loses the patients with the id |
| Dashboard.Dashboard.HandleAcknowledgeAlert | src/App.tsx:288-292 | the alerts become their acknowledged form, and the visible alerts lose exactly those with the id |
| Dashboard.Dashboard.HandleSavePrescription | src/App.tsx:294-304 | one unacknowledged info alert announcing the signed prescription is appended |
| AlertSystem.AlertIcon | src/components/AlertSystem.tsx:11-20 | critical, warning and info each get exactly one glyph: triangle, bell and info |
| AlertSystem.AlertStyle | src/components/AlertSystem.tsx:22-31 | one card style per alert type; `AlertSystem.AlertStylesDistinct` shows they differ |
| AlertSystem.AlertStylesDistinct | src/components/AlertSystem.tsx:11-31 | different alert types get different card styles and different icons |
| AlertSystem.Visible | src/components/AlertSystem.tsx:37 | the panel lists exactly the unacknowledged alerts |
| AlertSystem.VisibleInOrder | src/components/AlertSystem.tsx:37 | the listed alerts keep the order they were raised in |
| AlertSystem.Render | src/components/AlertSystem.tsx:33-37 | nothing is rendered exactly for an empty list; otherwise the container holds the visible alerts |
| AlertSystem.AllAcknowledgedRendersEmpty | src/components/AlertSystem.tsx:33-37 | a non-empty list whose alerts are all acknowledged still renders an empty container |
| AnalysisDetails.SeverityColourOf | src/components/AnalysisDetails.tsx:10-14 | green exactly below 3, yellow exactly in [3, 7), red exactly from 7 on |
| AnalysisDetails.ColourMonotone | src/components/AnalysisDetails.tsx:10-14 | a higher severity never gets a milder colour |
| AnalysisDetails.DetectorSeverityColours | src/components/AnalysisDetails.tsx:10-14 | of the detector's severities 6..9, 6 is yellow and 7 to 9 are red |
| PrescriptionEditor.TemplateTable | src/components/PrescriptionGenerator.tsx:66-121 | four templates with ids "1" to "4", distinct ids and conditions; each template's medications are the database entry for its condition; follow-up after 14, 7, 21 and 7 days; all by Dr. Smith |
| PrescriptionEditor.FindTemplate | src/components/PrescriptionGenerator.tsx:146-153 | the lookup by id (line 153) or by condition (line 146): a found template is in the table with that key; nothing is found exactly when no template has it |
| PrescriptionEditor.TemplateByOwnId | src/components/PrescriptionGenerator.tsx:153 | looking up a template's own id finds that template |
| PrescriptionEditor.TemplateForOwnCondition | src/components/PrescriptionGenerator.tsx:146 | looking up a template's own condition finds that template |
| PrescriptionEditor.DetectedConditionHasTemplate | src/components/PrescriptionGenerator.tsx:145-150 | each condition the detector reports has its own template, in the same order |
| PrescriptionEditor.ApplyTemplate | src/components/PrescriptionGenerator.tsx:152-163 | an unknown id leaves the prescription as it is; the id, patient and status are always kept |
| PrescriptionEditor.ApplyOwnTemplate | src/components/PrescriptionGenerator.tsx:152-163 | choosing a template by its id sets that template's medications and advice, and a follow-up that many days after now |
| PrescriptionEditor.ApplyFoundTemplate | src/components/PrescriptionGenerator.tsx:145-163 | the template found for a condition, applied by its id, sets its medications, advice and follow-up date |
| PrescriptionEditor.GetField | src/components/PrescriptionGenerator.tsx:165-172 | the value of one medication field; `PrescriptionEditor.SetFieldOnly` relates it to `PrescriptionEditor.SetField` |
| PrescriptionEditor.SetField | src/components/PrescriptionGenerator.tsx:165-172 | `{ ...med, [field]: value }`; `PrescriptionEditor.SetFieldOnly` shows it changes that field and no other |
| PrescriptionEditor.SetFieldOnly | src/components/PrescriptionGenerator.tsx:165-172 | setting a medication field changes that field and no other |
| PrescriptionEditor.EditMedications | src/components/PrescriptionGenerator.tsx:165-172 | the list keeps its length; only the medication at the index changes, and only in the given field; an index out of range changes nothing |
| PrescriptionEditor.EditAdvice | src/components/PrescriptionGenerator.tsx:174-179 | the list keeps its length; only the line at the index becomes the new text; an index out of range changes nothing |
| PrescriptionEditor.SignedCopy | src/components/PrescriptionGenerator.tsx:181-189 | the copy is signed by Dr. Smith and otherwise equals the prescription |
| PrescriptionEditor.Controls | src/components/PrescriptionGenerator.tsx:273-297 | the edit and sign buttons show exactly while unsigned, and the download button exactly once signed |
| PrescriptionEditor.PrescriptionEditor.constructor | src/components/PrescriptionGenerator.tsx:130-150 | an unsigned, empty draft by DR001 that is not being edited, then auto-filled from the detected disease's template when one exists |
| PrescriptionEditor.PrescriptionEditor.SelectTemplate | src/components/PrescriptionGenerator.tsx:152-163 | the selection is recorded, and the prescription is filled from the template; an unknown id leaves it unchanged |
| PrescriptionEditor.PrescriptionEditor.DetectedDiseaseChanged | src/components/PrescriptionGenerator.tsx:145-150 | a disease with a template selects it and fills the prescription from it; otherwise nothing changes |
| PrescriptionEditor.PrescriptionEditor.ChangeMedication | src/components/PrescriptionGenerator.tsx:165-172 | the medications become their edited form; nothing else changes |
| PrescriptionEditor.PrescriptionEditor.ChangeAdvice | src/components/PrescriptionGenerator.tsx:174-179 | the advice becomes its edited form; nothing else changes |
| PrescriptionEditor.PrescriptionEditor.ToggleEditing | src/components/PrescriptionGenerator.tsx:273-279 | the edit button flips the editing flag |
| PrescriptionEditor.PrescriptionEditor.Sign | src/components/PrescriptionGenerator.tsx:181-189 | the signed copy is passed to the save callback, and only the download button remains |
| PatientForm.OptionsAreChartedDevices | src/components/PatientForm.tsx:137 | the form offers exactly the devices the usage chart counts |
| PatientForm.SetField | src/components/PatientForm.tsx:72-130 | the edited input takes the typed text, every other input keeps its text, and the equipment list is kept |
| PatientForm.Toggle | src/components/PatientForm.tsx:44-51 | a listed device is removed with all its copies and the other devices stay; an unlisted device is appended |
| PatientForm.ToggleTwiceAbsent | src/components/PatientForm.tsx:44-51 | checking then unchecking an unchecked device gives back the list exactly |
| PatientForm.ToggleTwiceMembership | src/components/PatientForm.tsx:44-51 | toggling a device twice restores which devices are listed |
| PatientForm.ToggleKeepsWellFormed | src/components/PatientForm.tsx:44-51 | toggling an offered device keeps the list duplicate-free and made of offered devices |
| PatientForm.ToggleAll | src/components/PatientForm.tsx:44-51 | the equipment list after a run of checkbox clicks; `PatientForm.ClicksStayWellFormed` bounds it |
| PatientForm.ClicksStayWellFormed | src/components/PatientForm.tsx:44-51 | any run of clicks on the offered checkboxes leaves a duplicate-free list of at most four offered devices |
| PatientForm.DistinctWithin | src/components/PatientForm.tsx:137 | a duplicate-free list drawn from the options is no longer than the options |
| PatientForm.Complete | src/components/PatientForm.tsx:72-130 | every required input is filled; `PatientForm.PatientForm.Submit` submits exactly when it holds |
| PatientForm.NewPatient | src/components/PatientForm.tsx:23-31 | the new patient is admitted and carries the form's name, gender, location, diagnosis, bed and equipment |
| PatientForm.PatientForm.constructor | src/components/PatientForm.tsx:10-19 | the form starts closed, empty with gender Male, and with nothing added |
| PatientForm.PatientForm.Open | src/components/PatientForm.tsx:56 | the form opens |
| PatientForm.PatientForm.Cancel | src/components/PatientForm.tsx:154 | the form closes |
| PatientForm.PatientForm.Edit | src/components/PatientForm.tsx:72-130 | the edited input takes the typed text |
| PatientForm.PatientForm.ToggleEquipment | src/components/PatientForm.tsx:44-51 | the equipment list becomes its toggled form |
| PatientForm.PatientForm.Submit | src/components/PatientForm.tsx:21-42 | submission happens exactly when every required input is filled; it adds one admitted patient, then closes and clears the form; otherwise nothing changes |
| ImageUploader.IgnoresCase | src/components/ImageUploader.tsx:16-19 | the gate ignores case |
| ImageUploader.Monotone | src/components/ImageUploader.tsx:16-19 | a name containing an accepted name is accepted |
| ImageUploader.ProjectPngAccepted | src/components/ImageUploader.tsx:9-19 | keywords match anywhere: "project.png" passes because it contains "ct" |
| ImageUploader.DetectedTumoursPassTheGate | src/components/ImageUploader.tsx:9-19 | every name the detector reads as a brain tumour or lung cancer passes the gate |
| ImageUploader.IsMedicalImage | src/components/ImageUploader.tsx:9-19 | the lower-cased name contains one of the 23 keywords; its properties are stated by `ImageUploader.IgnoresCase`, `ImageUploader.Monotone` and `ImageUploader.OnDrop` |
| ImageUploader.OnDrop | src/components/ImageUploader.tsx:21-47 | over the drop zone's accepted files, a file is passed on exactly when the list is non-empty and the first file's name passes the gate; it is the first file |
| Text.ToLower | src/App.tsx:103 | lower-casing keeps the length and lower-cases each letter |
| Text.ToLowerIdempotent | src/App.tsx:190-194 | lower-casing twice is lower-casing once |
| Text.IncludesTransitive | src/components/ImageUploader.tsx:18 | a string inside a string inside t is inside t |
| Text.IncludesToLower | src/components/ImageUploader.tsx:17-18 | containment survives lower-casing both strings |

## Left out

- Canvas painting is not modelled: the image, the glow, the dashed box, the label and the corner handles. A render frame is reduced to the box it shows and its confidence.
- `Math.sqrt`, `Math.pow` and `Math.sin`: the confidence avoids the square root and is proved equal to the formula that uses it. The elastic curve's transcendental branch is a parameter.
- `requestAnimationFrame`, `Date.now()`, `setTimeout` and `setInterval` are left out. Frames and ticks are explicit method calls. Times are parameters, and the 1.5 s upload delay is collapsed.
- React effect scheduling is not modelled. In particular, the draw loop's effect does not list the image size, so drawing may start only on the next change of its listed inputs.
- The draw loop's aspect-fit calculation is left out: its result is never used.
- `Math.random()` is a stream of draws in [0, 1), read in source call order. `crypto.randomUUID()`, ISO time strings and object URLs are parameters.
- The drop zone's own filtering is left out: its image types with the extensions .jpg, .jpeg, .png and .dicom, and its one-file limit. `ImageUploader.OnDrop` starts from the list of files the drop zone accepted.
- Error pop-ups built on the DOM, `console.log`, and jsPDF output (the health summary and the prescription PDF) are left out.
- The ID-photo upload and the patient-info state in src/App.tsx are left out.
- The chart, metrics-card and patient-list components are left out: they only present data.
- Text.ToLower: lower-cases ASCII letters only, not the full Unicode case mapping of `toLowerCase`.
- Numbers are exact reals and unbounded integers, not IEEE doubles. The one non-finite result kept is the zero-image-area score (NaN or the clamped infinity).
- PatientForm.NewPatient: `parseInt` on the age is a parameter.
- DetectionBox.BoxController.MouseDown: requires a displayed canvas of positive width and height. A zero-size canvas would divide by zero and is not modelled.
- DetectionBox.BoxController.MouseMove: requires a displayed canvas of positive width and height, as MouseDown does.
- DetectionBox.BoxController.ImageLoaded: requires an image of positive natural size.
- DetectionBox.EaseOutElastic: only the two endpoints are fixed, because the curve between them is transcendental.
- PrescriptionEditor.ApplyTemplate: the follow-up date is kept in milliseconds, not as an ISO string.
- PrescriptionEditor.PrescriptionEditor.ToggleEditing: requires the edit button to be visible, which is when the prescription is unsigned.
- PrescriptionEditor.PrescriptionEditor.Sign: requires the sign button to be visible.
- PatientForm.PatientForm.Submit: requires the form to be open, since a closed form has no submit button.
- Dashboard.Dashboard.HandleImageUpload: the exception for an unknown condition is a false result. Nothing after it runs.
