/**
 * The activities page: a left column of ongoing and completed activities, a
 * right column of planned ones, a placeholder when nothing is planned, and
 * the status badge of the left column.
 */
module Activities {
  import opened Types
  import opened Seqs
  import Dashboard

  function NotPlanned(): Activity -> bool { (a: Activity) => a.status != Planned }
  function IsPlanned(): Activity -> bool { (a: Activity) => a.status == Planned }

  /** The left column: the activities not planned, in list order. */
  function InProgressOrDone(acts: seq<Activity>): (r: seq<Activity>)
    ensures forall a :: a in r <==> a in acts && a.status != Planned
    ensures IsSubsequence(r, acts)
    ensures forall a :: a in acts && a.status != Planned ==> multiset(r)[a] == multiset(acts)[a]
  {
    Filter(acts, NotPlanned())
  }

  /** The right column: the planned activities, in list order. */
  function PlannedList(acts: seq<Activity>): (r: seq<Activity>)
    ensures forall a :: a in r <==> a in acts && a.status == Planned
    ensures IsSubsequence(r, acts)
    ensures forall a :: a in acts && a.status == Planned ==> multiset(r)[a] == multiset(acts)[a]
  {
    Filter(acts, IsPlanned())
  }

  /** Every activity is in exactly one column: the lengths add up and the contents together are the whole list. */
  lemma ColumnsPartition(acts: seq<Activity>)
    ensures |InProgressOrDone(acts)| + |PlannedList(acts)| == |acts|
    ensures multiset(InProgressOrDone(acts)) + multiset(PlannedList(acts)) == multiset(acts)
  {
    FilterPartition(acts, NotPlanned(), IsPlanned());
  }

  /** The "nothing planned for now" placeholder is shown exactly when no activity is planned. */
  function ShowNoPlans(acts: seq<Activity>): (shown: bool)
    ensures shown <==> forall a :: a in acts ==> a.status != Planned
  {
    var planned := PlannedList(acts);
    assert forall a :: a in acts && a.status == Planned ==> multiset(planned)[a] > 0;
    |planned| == 0
  }

  const CompletedLabel := "সম্পন্ন"
  const OngoingLabel := "চলমান"

  /** The badge: "completed" for a completed activity, "ongoing" for any other. */
  function StatusLabel(s: ActivityStatus): (l: string)
    ensures l == CompletedLabel <==> s == Completed
    ensures l == OngoingLabel <==> s != Completed
  {
    if s == Completed then CompletedLabel else OngoingLabel
  }

  /**
   * An activity created without a status is planned: it heads the right
   * column and the placeholder disappears.
   */
  lemma NewActivityIsPlanned(d: AppState, f: Dashboard.ActivityForm, now: nat)
    requires Filled(f.title) && f.status.None?
    ensures PlannedList(Dashboard.ActivitySaved(d, f, None, now).activities) ==
      [Dashboard.NewActivity(f, now)] + PlannedList(d.activities)
    ensures !ShowNoPlans(Dashboard.ActivitySaved(d, f, None, now).activities)
    ensures InProgressOrDone(Dashboard.ActivitySaved(d, f, None, now).activities) == InProgressOrDone(d.activities)
  {
    var r := Dashboard.ActivitySaved(d, f, None, now).activities;
    assert r[1..] == d.activities;
    assert r[0] in r;
  }
}
