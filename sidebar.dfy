/** The sidebar's grouping of sessions into today / last 7 days / older.
    A session's id is the creation time in milliseconds, read back with
    `parseInt`; the calendar day of a timestamp (`getDate`) is a parameter. */
module Sidebar {
  import Decimal
  import App

  const ONE_DAY: int := 24 * 60 * 60 * 1000

  /** The largest time value a JavaScript `Date` holds (100 000 000 days in
      milliseconds); a larger one gives an Invalid Date, whose `getDate()` and
      differences are NaN. */
  const MAX_TIME: int := 8_640_000_000_000_000

  datatype Bucket = Today | Last7Days | Older

  datatype Groups = Groups(today: seq<App.Session>, last7Days: seq<App.Session>, older: seq<App.Session>)

  /** The bucket the loop body puts a session in, given the current time `now`
      and `dayOfMonth`, the calendar day of a timestamp. An id that does not
      parse, or that is past the `Date` range, gives NaN: every comparison
      with it is false, so it lands in `Older`.
      The difference is measured in (fractional) days, as the source does. */
  function BucketOf(id: string, now: int, dayOfMonth: int -> int): (b: Bucket)
    ensures b == Today <==>
      Decimal.ParseInt(id).Some? && Decimal.ParseInt(id).value <= MAX_TIME
      && now - Decimal.ParseInt(id).value < ONE_DAY
      && dayOfMonth(now) == dayOfMonth(Decimal.ParseInt(id).value)
    ensures b == Last7Days <==>
      Decimal.ParseInt(id).Some? && Decimal.ParseInt(id).value <= MAX_TIME
      && b != Today && now - Decimal.ParseInt(id).value <= 7 * ONE_DAY
    ensures b == Older <==>
      Decimal.ParseInt(id).None? || Decimal.ParseInt(id).value > MAX_TIME
      || now - Decimal.ParseInt(id).value > 7 * ONE_DAY
  {
    match Decimal.ParseInt(id)
    case None => Older
    case Some(t) =>
      if t > MAX_TIME then Older
      else
      var diffDays := (now - t) as real / ONE_DAY as real;
      if diffDays < 1.0 && dayOfMonth(now) == dayOfMonth(t) then Today
      else if diffDays <= 7.0 then Last7Days
      else Older
  }

  /** A session created less than a day ago but on another calendar day is
      grouped under the last seven days. */
  lemma YesterdayIsNotToday(now: nat, created: nat, dayOfMonth: int -> int)
    requires created <= now < created + ONE_DAY && created <= MAX_TIME
    requires dayOfMonth(now) != dayOfMonth(created)
    ensures BucketOf(Decimal.FromNat(created), now, dayOfMonth) == Last7Days
  {
    Decimal.ParseFromNat(created);
  }

  /** The sessions of `sessions` that fall in bucket `b`, in their order. */
  function Select(sessions: seq<App.Session>, b: Bucket, now: int, dayOfMonth: int -> int): (r: seq<App.Session>)
    ensures |r| <= |sessions|
    ensures forall s :: s in r <==> s in sessions && BucketOf(s.id, now, dayOfMonth) == b
    decreases |sessions|
  {
    if sessions == [] then []
    else
      var last := sessions[|sessions| - 1];
      var earlier := Select(sessions[..|sessions| - 1], b, now, dayOfMonth);
      if BucketOf(last.id, now, dayOfMonth) == b then earlier + [last] else earlier
  }

  /** Selecting from a concatenation selects from each part in turn: every
      bucket keeps the input order. */
  lemma {:induction false} SelectConcat(a: seq<App.Session>, c: seq<App.Session>, b: Bucket,
                                        now: int, dayOfMonth: int -> int)
    ensures Select(a + c, b, now, dayOfMonth) == Select(a, b, now, dayOfMonth) + Select(c, b, now, dayOfMonth)
    decreases |c|
  {
    if c == [] {
      assert a + c == a;
    } else {
      var init := c[..|c| - 1];
      var last := c[|c| - 1];
      assert (a + c)[..|a + c| - 1] == a + init;
      assert (a + c)[|a + c| - 1] == last;
      SelectConcat(a, init, b, now, dayOfMonth);
    }
  }

  /** Adding one element to the bucket it belongs to adds it to the union. */
  lemma AddToBucket<T>(t: seq<T>, l: seq<T>, o: seq<T>, all: seq<T>, x: T, k: Bucket)
    requires multiset(t) + multiset(l) + multiset(o) == multiset(all)
    ensures multiset(if k == Today then t + [x] else t)
          + multiset(if k == Last7Days then l + [x] else l)
          + multiset(if k == Older then o + [x] else o)
         == multiset(all + [x])
  {
    assert multiset(all + [x]) == multiset(all) + multiset{x};
    match k
    case Today => assert multiset(t + [x]) == multiset(t) + multiset{x};
    case Last7Days => assert multiset(l + [x]) == multiset(l) + multiset{x};
    case Older => assert multiset(o + [x]) == multiset(o) + multiset{x};
  }

  /** The three buckets together hold every session exactly once. */
  lemma {:induction false} BucketsPartition(sessions: seq<App.Session>, now: int, dayOfMonth: int -> int)
    ensures multiset(Select(sessions, Today, now, dayOfMonth))
          + multiset(Select(sessions, Last7Days, now, dayOfMonth))
          + multiset(Select(sessions, Older, now, dayOfMonth))
         == multiset(sessions)
    decreases |sessions|
  {
    if sessions != [] {
      var init := sessions[..|sessions| - 1];
      var last := sessions[|sessions| - 1];
      BucketsPartition(init, now, dayOfMonth);
      assert sessions == init + [last];
      AddToBucket(Select(init, Today, now, dayOfMonth), Select(init, Last7Days, now, dayOfMonth),
                  Select(init, Older, now, dayOfMonth), init, last, BucketOf(last.id, now, dayOfMonth));
    }
  }

  /** The bucket sizes add up to the number of sessions. */
  lemma BucketSizes(sessions: seq<App.Session>, now: int, dayOfMonth: int -> int)
    ensures |Select(sessions, Today, now, dayOfMonth)| + |Select(sessions, Last7Days, now, dayOfMonth)|
          + |Select(sessions, Older, now, dayOfMonth)| == |sessions|
  {
    BucketsPartition(sessions, now, dayOfMonth);
    assert |multiset(sessions)| == |sessions|;
  }

  /** `groupedSessions`: one pass over the sessions, pushing each onto the
      list of its bucket. */
  method GroupSessions(sessions: seq<App.Session>, now: nat, dayOfMonth: int -> int) returns (groups: Groups)
    ensures groups.today == Select(sessions, Today, now, dayOfMonth)
    ensures groups.last7Days == Select(sessions, Last7Days, now, dayOfMonth)
    ensures groups.older == Select(sessions, Older, now, dayOfMonth)
  {
    var today, last7Days, older := [], [], [];
    for i := 0 to |sessions|
      invariant today == Select(sessions[..i], Today, now, dayOfMonth)
      invariant last7Days == Select(sessions[..i], Last7Days, now, dayOfMonth)
      invariant older == Select(sessions[..i], Older, now, dayOfMonth)
    {
      var session := sessions[i];
      assert sessions[..i + 1][..i] == sessions[..i];
      match BucketOf(session.id, now, dayOfMonth)
      case Today => today := today + [session];
      case Last7Days => last7Days := last7Days + [session];
      case Older => older := older + [session];
    }
    assert sessions[..|sessions|] == sessions;
    groups := Groups(today, last7Days, older);
  }
}
