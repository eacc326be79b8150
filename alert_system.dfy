/**
 * The alert panel of src/components/AlertSystem.tsx: which alerts are shown
 * and how each alert type is drawn.
 */
module AlertSystem {
  import opened Wrappers
  import opened Records
  import opened Seqs

  /** The lucide icons the panel uses. */
  datatype Glyph = AlertTriangle | Bell | InfoGlyph

  /** An icon and its text colour class. */
  datatype Icon = Icon(glyph: Glyph, colour: string)

  /** `getAlertIcon`: one icon per alert type. */
  function AlertIcon(kind: AlertType): (icon: Icon)
    ensures kind == CriticalAlert <==> icon.glyph == AlertTriangle
    ensures kind == WarningAlert <==> icon.glyph == Bell
    ensures kind == InfoAlert <==> icon.glyph == InfoGlyph
  {
    match kind
    case CriticalAlert => Icon(AlertTriangle, "h-5 w-5 text-red-500")
    case WarningAlert => Icon(Bell, "h-5 w-5 text-yellow-500")
    case InfoAlert => Icon(InfoGlyph, "h-5 w-5 text-blue-500")
  }

  /** `getAlertStyle`: the background and border classes of an alert card. */
  function AlertStyle(kind: AlertType): string
  {
    match kind
    case CriticalAlert => "bg-red-50 border-red-200"
    case WarningAlert => "bg-yellow-50 border-yellow-200"
    case InfoAlert => "bg-blue-50 border-blue-200"
  }

  /** Different alert types are never drawn alike. */
  lemma AlertStylesDistinct(a: AlertType, b: AlertType)
    ensures a != b ==> AlertStyle(a) != AlertStyle(b) && AlertIcon(a) != AlertIcon(b)
  {
    if a != b {
      assert AlertStyle(a)[3] != AlertStyle(b)[3];
    }
  }

  predicate Unacknowledged(a: Alert)
  {
    !a.acknowledged
  }

  /** The alerts the panel lists: the unacknowledged ones, in their original order. */
  function Visible(alerts: seq<Alert>): (shown: seq<Alert>)
    ensures forall i :: 0 <= i < |shown| ==> shown[i] in alerts && !shown[i].acknowledged
    ensures forall i :: 0 <= i < |alerts| && !alerts[i].acknowledged ==> alerts[i] in shown
  {
    Filter(alerts, Unacknowledged)
  }

  /** The visible alerts keep the order they were raised in. */
  lemma VisibleInOrder(alerts: seq<Alert>)
    ensures IsSubsequence(Visible(alerts), alerts)
  {
    FilterIsSubsequence(alerts, Unacknowledged);
  }

  /**
   * What the panel renders: nothing for an empty list, otherwise a container
   * holding the visible alerts (possibly none).
   */
  function Render(alerts: seq<Alert>): (panel: Option<seq<Alert>>)
    ensures panel.None? <==> alerts == []
    ensures panel.Some? ==> panel.value == Visible(alerts)
  {
    if |alerts| == 0 then None else Some(Visible(alerts))
  }

  /** A non-empty list whose alerts are all acknowledged still renders an empty container. */
  lemma AllAcknowledgedRendersEmpty(alerts: seq<Alert>)
    requires alerts != []
    requires forall i :: 0 <= i < |alerts| ==> alerts[i].acknowledged
    ensures Render(alerts) == Some([])
  {
    if Visible(alerts) != [] {
      assert Visible(alerts)[0] in alerts;
    }
  }
}
