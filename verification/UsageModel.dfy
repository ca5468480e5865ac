/** The usage tracker's operations on its in-memory state
    (internal/usage/tracker.go, internal/usage/model.go). */
module UsageModel {
  import opened Text

  /** A calendar day (UTC) and a clock reading; a period starts at midnight. */
  datatype Day = Day(year: nat, month: nat, day: nat)
  datatype Time = Time(day: Day, instant: nat)

  datatype Period = Daily | Monthly

  /** periodStart: the day itself, or the first of its month. */
  function PeriodStart(period: Period, now: Time): Day {
    match period
    case Daily => now.day
    case Monthly => now.day.(day := 1)
  }

  datatype Record = Record(
    userID: string, period: Period, periodStart: Day,
    requestCount: int, bytesIn: int, bytesOut: int,
    activeTunnels: nat, updatedAt: Time)

  datatype Bucket = Bucket(record: Record, reservedRequests: int, reservedBytesIn: int, dirty: bool)

  datatype Limits = Limits(maxRequests: int, maxBytesIn: int, maxBytesOut: int, maxActiveTunnels: int)

  datatype TunnelReservation = TunnelReservation(userID: string, acquired: bool)
  datatype RequestReservation =
    RequestReservation(userID: string, bucketKey: string, estimatedBytesIn: int, acquired: bool)

  const NO_TUNNEL := TunnelReservation("", false)
  const NO_REQUEST := RequestReservation("", "", 0, false)

  datatype Resource = ActiveTunnels | Requests | BytesIn | BytesOut
  datatype Result<T> = Granted(value: T) | LimitHit(resource: Resource, limit: int, current: int)

  datatype Tracker = Tracker(
    period: Period,
    limits: Limits,
    buckets: map<string, Bucket>,
    activeTunnels: map<string, set<string>>,
    reservedTunnels: map<string, int>)

  function NewTracker(period: Period, limits: Limits): Tracker {
    Tracker(period, limits, map[], map[], map[])
  }

  function Active(t: Tracker, userID: string): set<string> {
    if userID in t.activeTunnels then t.activeTunnels[userID] else {}
  }

  function Reserved(t: Tracker, userID: string): int {
    if userID in t.reservedTunnels then t.reservedTunnels[userID] else 0
  }

  // Keys.

  function PeriodName(period: Period): string {
    match period case Daily => "daily" case Monthly => "monthly"
  }

  function Digit(n: nat): char {
    (n % 10) as char + '0'
  }

  /** The last `width` decimal digits. */
  function Digits(n: nat, width: nat): string
    decreases n, width
  {
    if width == 0 then "" else Digits(n / 10, width - 1) + [Digit(n)]
  }

  /** A midnight in RFC 3339 form (section 5.6 of RFC 3339), for four-digit years. */
  function FormatDay(d: Day): string {
    Digits(d.year, 4) + "-" + Digits(d.month, 2) + "-" + Digits(d.day, 2) + "T00:00:00Z"
  }

  predicate IsCalendar(d: Day) {
    d.year < 10000 && 1 <= d.month <= 12 && 1 <= d.day <= 31
  }

  function BucketKey(userID: string, period: Period, start: Day): string {
    userID + "|" + PeriodName(period) + "|" + FormatDay(start)
  }

  function KeyOf(record: Record): string {
    BucketKey(record.userID, record.period, record.periodStart)
  }

  // Operations. Each takes the clock reading the code would make.

  /** currentBucketLocked. */
  function CurrentBucket(t: Tracker, userID: string, now: Time): (Tracker, string) {
    var start := PeriodStart(t.period, now);
    var key := BucketKey(userID, t.period, start);
    var active := |Active(t, userID)|;
    var bucket :=
      if key in t.buckets then
        t.buckets[key].(record := t.buckets[key].record.(activeTunnels := active))
      else Bucket(Record(userID, t.period, start, 0, 0, 0, active, now), 0, 0, false);
    (t.(buckets := t.buckets[key := bucket]), key)
  }

  /** touchBucketLocked. */
  function TouchBucket(t: Tracker, userID: string, now: Time): Tracker {
    if userID == "" then t else
    var (t', key) := CurrentBucket(t, userID, now);
    var bucket := t'.buckets[key];
    t'.(buckets := t'.buckets[key :=
      bucket.(record := bucket.record.(activeTunnels := |Active(t, userID)|, updatedAt := now), dirty := true)])
  }

  function ReserveTunnel(t: Tracker, rawUserID: string): (Tracker, Result<TunnelReservation>) {
    var userID := TrimSpace(rawUserID);
    if userID == "" then (t, Granted(NO_TUNNEL)) else
    var current := |Active(t, userID)| + Reserved(t, userID);
    if t.limits.maxActiveTunnels > 0 && current + 1 > t.limits.maxActiveTunnels then
      (t, LimitHit(ActiveTunnels, t.limits.maxActiveTunnels, current + 1))
    else
      (t.(reservedTunnels := t.reservedTunnels[userID := Reserved(t, userID) + 1]),
       Granted(TunnelReservation(userID, true)))
  }

  function Unreserve(t: Tracker, userID: string): Tracker {
    if Reserved(t, userID) > 0 then t.(reservedTunnels := t.reservedTunnels[userID := Reserved(t, userID) - 1])
    else t
  }

  function ReleaseTunnelReservation(t: Tracker, reservation: TunnelReservation): Tracker {
    if !reservation.acquired || reservation.userID == "" then t else Unreserve(t, reservation.userID)
  }

  function ConfirmTunnel(t: Tracker, reservation: TunnelReservation, tunnelID: string, now: Time): Tracker {
    if !reservation.acquired || reservation.userID == "" || tunnelID == "" then t else
    var userID := reservation.userID;
    var t' := Unreserve(t, userID);
    TouchBucket(t'.(activeTunnels := t'.activeTunnels[userID := Active(t', userID) + {tunnelID}]), userID, now)
  }

  function RestoreTunnel(t: Tracker, rawUserID: string, tunnelID: string, now: Time): Tracker {
    var userID := TrimSpace(rawUserID);
    if userID == "" || tunnelID == "" then t else
    TouchBucket(t.(activeTunnels := t.activeTunnels[userID := Active(t, userID) + {tunnelID}]), userID, now)
  }

  function TrackTunnelClosed(t: Tracker, rawUserID: string, tunnelID: string, now: Time): Tracker {
    var userID := TrimSpace(rawUserID);
    if userID == "" || tunnelID == "" then t else
    var left := Active(t, userID) - {tunnelID};
    var t' := if userID !in t.activeTunnels then t
              else if left == {} then t.(activeTunnels := t.activeTunnels - {userID})
              else t.(activeTunnels := t.activeTunnels[userID := left]);
    TouchBucket(t', userID, now)
  }

  /** The limits of ReserveRequest, in order, and what a grant holds. */
  function HoldRequest(t: Tracker, userID: string, key: string, estimate: nat): (Tracker, Result<RequestReservation>)
    requires key in t.buckets
  {
    var bucket := t.buckets[key];
    var projectedRequests := bucket.record.requestCount + bucket.reservedRequests + 1;
    var projectedBytesIn := bucket.record.bytesIn + bucket.reservedBytesIn + estimate;
    if t.limits.maxRequests > 0 && projectedRequests > t.limits.maxRequests then
      (t, LimitHit(Requests, t.limits.maxRequests, projectedRequests))
    else if t.limits.maxBytesIn > 0 && projectedBytesIn > t.limits.maxBytesIn then
      (t, LimitHit(BytesIn, t.limits.maxBytesIn, projectedBytesIn))
    else if t.limits.maxBytesOut > 0 && bucket.record.bytesOut >= t.limits.maxBytesOut then
      (t, LimitHit(BytesOut, t.limits.maxBytesOut, bucket.record.bytesOut))
    else
      (t.(buckets := t.buckets[key := bucket.(
        reservedRequests := bucket.reservedRequests + 1, reservedBytesIn := bucket.reservedBytesIn + estimate)]),
       Granted(RequestReservation(userID, key, estimate, true)))
  }

  function ReserveRequest(t: Tracker, rawUserID: string, rawEstimate: int, now: Time)
    : (Tracker, Result<RequestReservation>)
  {
    var userID := TrimSpace(rawUserID);
    if userID == "" then (t, Granted(NO_REQUEST)) else
    var (t', key) := CurrentBucket(t, userID, now);
    HoldRequest(t', userID, key, if rawEstimate < 0 then 0 else rawEstimate)
  }

  /** The part ReleaseRequest and CompleteRequest share, with its clamps. */
  function Unhold(t: Tracker, key: string, reservation: RequestReservation): Tracker
    requires key in t.buckets
  {
    var bucket := t.buckets[key];
    t.(buckets := t.buckets[key := bucket.(
      reservedRequests := if bucket.reservedRequests > 0 then bucket.reservedRequests - 1 else bucket.reservedRequests,
      reservedBytesIn := if bucket.reservedBytesIn >= reservation.estimatedBytesIn
                         then bucket.reservedBytesIn - reservation.estimatedBytesIn else 0)])
  }

  function ReleaseRequest(t: Tracker, reservation: RequestReservation): Tracker {
    if !reservation.acquired || reservation.userID == "" || reservation.bucketKey !in t.buckets then t
    else Unhold(t, reservation.bucketKey, reservation)
  }

  /** The actual usage counted. */
  function Charge(t: Tracker, key: string, userID: string, bytesIn: nat, bytesOut: nat, now: Time): Tracker
    requires key in t.buckets
  {
    var bucket := t.buckets[key];
    t.(buckets := t.buckets[key := bucket.(
      record := bucket.record.(
        requestCount := bucket.record.requestCount + 1,
        bytesIn := bucket.record.bytesIn + bytesIn,
        bytesOut := bucket.record.bytesOut + bytesOut,
        activeTunnels := |Active(t, userID)|,
        updatedAt := now),
      dirty := true)])
  }

  function CompleteRequest(t: Tracker, reservation: RequestReservation, rawIn: int, rawOut: int, now: Time): Tracker {
    if !reservation.acquired || reservation.userID == "" then t else
    var (t', key) :=
      if reservation.bucketKey in t.buckets then (t, reservation.bucketKey)
      else CurrentBucket(t, reservation.userID, now);
    Charge(Unhold(t', key, reservation), key, reservation.userID,
           if rawIn < 0 then 0 else rawIn, if rawOut < 0 then 0 else rawOut, now)
  }

  // Flush, in its two locked sections.

  /** The snapshot Flush takes of one dirty bucket. */
  function Snapshot(t: Tracker, bucket: Bucket, now: Time): Record {
    bucket.record.(activeTunnels := |Active(t, bucket.record.userID)|, updatedAt := now)
  }

  function Cleaned(t: Tracker, bucket: Bucket, now: Time): Bucket {
    if bucket.dirty then bucket.(record := Snapshot(t, bucket, now), dirty := false) else bucket
  }

  /** First section: snapshots of all dirty buckets, which become clean. */
  function BeginFlush(t: Tracker, now: Time): (Tracker, map<string, Record>) {
    (t.(buckets := map key <- t.buckets :: Cleaned(t, t.buckets[key], now)),
     map key <- t.buckets | t.buckets[key].dirty :: Snapshot(t, t.buckets[key], now))
  }

  /** Section after a failed write: the buckets of the snapshot are dirty again. */
  function FailFlush(t: Tracker, items: map<string, Record>): Tracker {
    t.(buckets := map key <- t.buckets ::
       if key in items then t.buckets[key].(dirty := true) else t.buckets[key])
  }

  // Which instants share a bucket.

  /** Two instants of one billing period: the same day, or the same month of the
      same year. */
  predicate SamePeriod(period: Period, a: Time, b: Time) {
    && a.day.year == b.day.year && a.day.month == b.day.month
    && (period.Daily? ==> a.day.day == b.day.day)
  }

  /** A user's instants fall into one bucket exactly when they share a period. */
  lemma BucketIsPeriod(userID: string, period: Period, a: Time, b: Time)
    requires IsCalendar(a.day) && IsCalendar(b.day)
    ensures BucketKey(userID, period, PeriodStart(period, a)) == BucketKey(userID, period, PeriodStart(period, b))
            <==> SamePeriod(period, a, b)
  {
    if BucketKey(userID, period, PeriodStart(period, a)) == BucketKey(userID, period, PeriodStart(period, b)) {
      BucketKeyInjective(userID, period, PeriodStart(period, a), userID, period, PeriodStart(period, b));
    }
  }

  // Every bucket sits under the key of its record.

  ghost predicate Keyed(t: Tracker) {
    forall key <- t.buckets :: KeyOf(t.buckets[key].record) == key
  }

  lemma KeyedFlush(t: Tracker, now: Time, items: map<string, Record>)
    requires Keyed(t)
    ensures Keyed(BeginFlush(t, now).0) && Keyed(FailFlush(t, items))
  {
  }

  // Memory and store agree on what a key is.

  lemma {:induction false} DigitsLength(n: nat, width: nat)
    ensures |Digits(n, width)| == width
    decreases width
  {
    if width > 0 {
      DigitsLength(n / 10, width - 1);
    }
  }

  function Power(width: nat): nat {
    if width == 0 then 1 else 10 * Power(width - 1)
  }

  lemma {:induction false} DigitsInjective(n: nat, m: nat, width: nat)
    requires n < Power(width) && m < Power(width) && Digits(n, width) == Digits(m, width)
    ensures n == m
    decreases width
  {
    if width > 0 {
      var s, t := Digits(n / 10, width - 1), Digits(m / 10, width - 1);
      DigitsLength(n / 10, width - 1);
      DigitsLength(m / 10, width - 1);
      assert (s + [Digit(n)])[..width - 1] == s && (t + [Digit(m)])[..width - 1] == t;
      assert (s + [Digit(n)])[width - 1] == Digit(n) && (t + [Digit(m)])[width - 1] == Digit(m);
      DigitsInjective(n / 10, m / 10, width - 1);
    }
  }

  lemma FormatDayParts(d: Day)
    ensures var f := FormatDay(d);
      |f| == 20 && f[0..4] == Digits(d.year, 4) && f[5..7] == Digits(d.month, 2) && f[8..10] == Digits(d.day, 2)
  {
    DigitsLength(d.year, 4);
    DigitsLength(d.month, 2);
    DigitsLength(d.day, 2);
  }

  lemma FormatDayInjective(a: Day, b: Day)
    requires IsCalendar(a) && IsCalendar(b) && FormatDay(a) == FormatDay(b)
    ensures a == b
  {
    FormatDayParts(a);
    FormatDayParts(b);
    assert Power(2) == 100 && Power(4) == 10000;
    DigitsInjective(a.year, b.year, 4);
    DigitsInjective(a.month, b.month, 2);
    DigitsInjective(a.day, b.day, 2);
  }

  /** bucketKey is injective, also for user ids that contain the separator. */
  lemma BucketKeyInjective(u: string, p: Period, d: Day, u': string, p': Period, d': Day)
    requires IsCalendar(d) && IsCalendar(d')
    requires BucketKey(u, p, d) == BucketKey(u', p', d')
    ensures u == u' && p == p' && d == d'
  {
    var k, k' := BucketKey(u, p, d), BucketKey(u', p', d');
    FormatDayParts(d);
    FormatDayParts(d');
    assert k[|k| - 20..] == FormatDay(d) && k'[|k'| - 20..] == FormatDay(d');
    FormatDayInjective(d, d');
    var h, h' := u + "|" + PeriodName(p), u' + "|" + PeriodName(p');
    assert h == k[..|k| - 21] && h' == k'[..|k'| - 21];
    assert h[|h| - 1] == h'[|h'| - 1] && h[|h| - 2] == h'[|h| - 2] && h[|h| - 3] == h'[|h| - 3];
    assert p == p';
    assert u == h[..|h| - |PeriodName(p)| - 1] && u' == h'[..|h| - |PeriodName(p)| - 1];
  }
}
