/**
 * The scan history screen (src/screens/HistoryScreen.tsx): loading the stored
 * list, sorting it newest first in place, clearing it, colouring the score
 * badges, bucketing the scan time, and choosing what to render.
 */
module History {

  import opened Wrappers
  import opened Theme
  import opened Types
  import QualityScore

  /** Milliseconds in one hour, the unit of `diffInHours`. */
  const MsPerHour := 1000 * 60 * 60

  /** Items ordered newest first: timestamps never increase along the list. */
  predicate NewestFirst(s: seq<ScannedItem>)
  {
    forall i, j :: 0 <= i < j < |s| ==> s[i].timestamp >= s[j].timestamp
  }

  /**
   * `items.sort((a, b) => b.timestamp - a.timestamp)`: the array is rearranged
   * in place so that it is newest first and holds the same items as before.
   */
  method SortNewestFirst(a: array<ScannedItem>)
    modifies a
    ensures NewestFirst(a[..])
    ensures multiset(a[..]) == multiset(old(a[..]))
  {
    var i := 0;
    while i < a.Length
      invariant 0 <= i <= a.Length
      invariant forall k, l :: 0 <= k < l < i ==> a[k].timestamp >= a[l].timestamp
      invariant multiset(a[..]) == multiset(old(a[..]))
    {
      InsertNewest(a, i);
      i := i + 1;
    }
  }

  /**
   * One insertion step: with `a[..i]` newest first, `a[i]` is moved left past
   * every strictly older item, leaving `a[..i + 1]` newest first.
   */
  method InsertNewest(a: array<ScannedItem>, i: int)
    requires 0 <= i < a.Length
    requires forall k, l :: 0 <= k < l < i ==> a[k].timestamp >= a[l].timestamp
    modifies a
    ensures forall k, l :: 0 <= k < l <= i ==> a[k].timestamp >= a[l].timestamp
    ensures multiset(a[..]) == multiset(old(a[..]))
  {
    var j := i;
    while j > 0 && a[j - 1].timestamp < a[j].timestamp
      invariant 0 <= j <= i
      invariant forall k, l :: 0 <= k < l <= i && k != j && l != j ==> a[k].timestamp >= a[l].timestamp
      invariant forall l :: j < l <= i ==> a[j].timestamp > a[l].timestamp
      invariant multiset(a[..]) == multiset(old(a[..]))
    {
      Swap(a, j - 1, j);
      j := j - 1;
    }
  }

  /** Exchanges two neighbouring items; the multiset of items stays the same. */
  method Swap(a: array<ScannedItem>, i: int, j: int)
    requires 0 <= i < j < a.Length
    modifies a
    ensures a[i] == old(a[j]) && a[j] == old(a[i])
    ensures forall k :: 0 <= k < a.Length && k != i && k != j ==> a[k] == old(a[k])
    ensures multiset(a[..]) == multiset(old(a[..]))
  {
    a[i], a[j] := a[j], a[i];
  }

  /**
   * What the storage read produced: the read or the parse threw, or it gave
   * the stored list, absent when nothing (or an empty string) is stored.
   */
  datatype StorageRead = ReadFailed | Read(stored: Option<seq<ScannedItem>>)

  /** The history screen's two state fields. */
  class HistoryScreen {
    var scannedItems: seq<ScannedItem>
    var loading: bool

    /** The screen starts with no items and the loading flag raised. */
    constructor ()
      ensures scannedItems == [] && loading
    {
      scannedItems := [];
      loading := true;
    }

    /**
     * `loadHistory`: a stored list replaces the items, sorted newest first and
     * with nothing added or dropped; a failed read or an empty store leaves
     * them as they were; in every outcome the loading flag is cleared.
     */
    method LoadHistory(read: StorageRead)
      modifies this
      ensures !loading
      ensures forall now :: !View(now).LoadingView?
      ensures read.Read? && read.stored.Some? ==>
        NewestFirst(scannedItems) && multiset(scannedItems) == multiset(read.stored.value)
      ensures !(read.Read? && read.stored.Some?) ==> scannedItems == old(scannedItems)
    {
      if read.Read? && read.stored.Some? {
        var items := read.stored.value;
        var a := new ScannedItem[|items|](i requires 0 <= i < |items| => items[i]);
        assert a[..] == items;
        SortNewestFirst(a);
        scannedItems := a[..];
      }
      loading := false;
    }

    /**
     * `clearHistory`: when the stored list was removed the items become
     * empty; when the removal failed nothing changes. Loading is untouched.
     */
    method ClearHistory(removed: bool)
      modifies this
      ensures removed ==> scannedItems == []
      ensures !removed ==> scannedItems == old(scannedItems)
      ensures loading == old(loading)
      ensures removed && !loading ==> forall now :: View(now) == EmptyView
    {
      if removed {
        scannedItems := [];
      }
    }

    /** The screen as drawn at time `now`. */
    function View(now: int): HistoryView
      reads this
    {
      RenderHistory(loading, scannedItems, now)
    }
  }

  /** `getQualityColor`: success from 80, warning from 60, error below. */
  function QualityColor(score: int): (c: ColorToken)
    ensures c == Success <==> score >= QualityScore.ExcellentFrom
    ensures c == Warning <==> QualityScore.GoodFrom <= score < QualityScore.ExcellentFrom
    ensures c == Error <==> score < QualityScore.GoodFrom
  {
    if score >= 80 then Success
    else if score >= 60 then Warning
    else Error
  }

  /** The history badge uses the same colour as the QualityScore component. */
  lemma BadgeMatchesScoreComponent(score: int)
    ensures QualityColor(score) == QualityScore.ScoreColor(score)
  {
  }

  /** The relative-time text of a history row; a locale date is left abstract. */
  datatype TimestampText = JustNow | HoursAgo(hours: int) | LocaleDate(timestamp: int)

  /** Age buckets in the order Just now < hours ago < a date. */
  function Bucket(t: TimestampText): nat
  {
    match t
    case JustNow => 0
    case HoursAgo(_) => 1
    case LocaleDate(_) => 2
  }

  /**
   * `formatTimestamp`: under one hour (a future time included) reads "Just
   * now"; under a day reads "<h>h ago" with h the whole hours elapsed, 1..23;
   * later reads as the scan date.
   */
  function FormatTimestamp(timestamp: int, now: int): (t: TimestampText)
    ensures t == JustNow <==> now - timestamp < MsPerHour
    ensures t.HoursAgo? <==> MsPerHour <= now - timestamp < 24 * MsPerHour
    ensures t.HoursAgo? ==> 1 <= t.hours <= 23
    ensures t.HoursAgo? ==> t.hours * MsPerHour <= now - timestamp < (t.hours + 1) * MsPerHour
    ensures t.LocaleDate? ==> t.timestamp == timestamp
  {
    var diffInHours := (now - timestamp) as real / (MsPerHour as real);
    if diffInHours < 1.0 then JustNow
    else if diffInHours < 24.0 then HoursAgo(diffInHours.Floor)
    else LocaleDate(timestamp)
  }

  /** An older scan never reads as more recent than a newer one. */
  lemma FormatTimestampMonotone(newer: int, older: int, now: int)
    requires older <= newer
    ensures Bucket(FormatTimestamp(newer, now)) <= Bucket(FormatTimestamp(older, now))
    ensures FormatTimestamp(newer, now).HoursAgo? && FormatTimestamp(older, now).HoursAgo? ==>
      FormatTimestamp(newer, now).hours <= FormatTimestamp(older, now).hours
  {
  }

  /** One row of the list. */
  datatype HistoryRow = HistoryRow(
    productName: string,
    brand: string,
    barcode: string,
    time: TimestampText,
    badgeColor: ColorToken,
    score: int)

  /** The three things the screen can draw. */
  datatype HistoryView =
    | LoadingView
    | EmptyView
    | ListView(count: nat, rows: seq<HistoryRow>)

  function RowFor(item: ScannedItem, now: int): HistoryRow
  {
    HistoryRow(item.productName, item.brand, item.barcode,
      FormatTimestamp(item.timestamp, now), QualityColor(item.qualityScore), item.qualityScore)
  }

  /**
   * The render decision: loading first; then the empty state exactly when
   * there are no items; otherwise a header counting the items and one row
   * per item in list order.
   */
  function RenderHistory(loading: bool, items: seq<ScannedItem>, now: int): (v: HistoryView)
    ensures v.LoadingView? <==> loading
    ensures v.EmptyView? <==> !loading && |items| == 0
    ensures v.ListView? ==> v.count == |items| == |v.rows|
    ensures v.ListView? ==> forall i :: 0 <= i < |items| ==>
      v.rows[i].productName == items[i].productName &&
      v.rows[i].brand == items[i].brand &&
      v.rows[i].barcode == items[i].barcode &&
      v.rows[i].score == items[i].qualityScore &&
      v.rows[i].badgeColor == QualityScore.ScoreColor(items[i].qualityScore) &&
      v.rows[i].time == FormatTimestamp(items[i].timestamp, now)
  {
    if loading then LoadingView
    else if |items| == 0 then EmptyView
    else ListView(|items|, seq(|items|, i requires 0 <= i < |items| => RowFor(items[i], now)))
  }

  /** Down a newest-first list, the shown ages never decrease. */
  lemma RowsAgeDownTheList(items: seq<ScannedItem>, now: int, i: int, j: int)
    requires NewestFirst(items) && 0 <= i < j < |items|
    ensures Bucket(FormatTimestamp(items[i].timestamp, now)) <= Bucket(FormatTimestamp(items[j].timestamp, now))
  {
    FormatTimestampMonotone(items[i].timestamp, items[j].timestamp, now);
  }
}
