/**
 The chart series of the history views. Given the history and its keys in
 ascending order, month mode buckets the days by their 7-character prefix
 and year mode by their 4-character prefix, one bucket per period that has
 data, in order of first appearance; default mode cuts the days into
 consecutive chunks of `max(1, ceil(n / 5))` days, labelled `first~last`.
 An optional pass then turns the values into running totals in place.
 */
module Segmentation {
  import opened Collections

  /** The chart modes: `'month'`, `'year'`, and anything else. */
  datatype Mode = Default | Month | Year

  /** The mode a select value stands for: only `'month'` and `'year'` are special. */
  function ModeOf(value: string): (m: Mode)
    ensures m == Month <==> value == "month"
    ensures m == Year <==> value == "year"
  {
    if value == "month" then Month else if value == "year" then Year else Default
  }

  /** `allDays` is `Object.keys(history).sort()`: every key once, in ascending order. */
  ghost predicate SortedKeysOf(allDays: seq<string>, history: map<string, nat>)
  {
    StrictlyAscending(allDays) && (forall d :: d in allDays <==> d in history)
  }

  // ---------------------------------------------------------------------------
  // Month and year buckets

  /** The bucket key of every day: its first `width` characters. */
  function Prefixes(days: seq<string>, width: nat): (r: seq<string>)
    ensures |r| == |days|
    ensures forall i :: 0 <= i < |days| ==> r[i] == Take(days[i], width)
  {
    seq(|days|, i requires 0 <= i < |days| => Take(days[i], width))
  }

  /**
   The bucket labels: the distinct prefixes, in the order the days first
   produce them, which is the key order of the bucket object.
   */
  function GroupLabels(days: seq<string>, width: nat): (labels: seq<string>)
    ensures Distinct(labels)
    ensures forall l :: l in labels <==> l in Prefixes(days, width)
    ensures days == [] ==> labels == []
  {
    Dedup(Prefixes(days, width))
  }

  /** Every label is the prefix of some day, and every day's prefix is a label. */
  lemma GroupLabelsArePrefixes(days: seq<string>, width: nat, bucket: string)
    ensures bucket in GroupLabels(days, width) <==> exists d :: d in days && Take(d, width) == bucket
  {
    var p := Prefixes(days, width);
    if bucket in p {
      var i :| 0 <= i < |p| && p[i] == bucket;
      assert days[i] in days;
    }
    if exists d :: d in days && Take(d, width) == bucket {
      var d :| d in days && Take(d, width) == bucket;
      var i :| 0 <= i < |days| && days[i] == d;
      assert p[i] == bucket;
    }
  }

  /** The words of the days whose prefix is `bucket`. */
  function PrefixTotal(days: seq<string>, history: map<string, nat>, bucket: string, width: nat): nat
    requires forall d :: d in days ==> d in history
  {
    if days == [] then 0
    else
      var last := days[|days| - 1];
      PrefixTotal(days[..|days| - 1], history, bucket, width) + (if Take(last, width) == bucket then history[last] else 0)
  }

  /** The bucket totals of `labels`, in the same order. */
  function Totals(labels: seq<string>, days: seq<string>, history: map<string, nat>, width: nat): (r: seq<nat>)
    requires forall d :: d in days ==> d in history
    ensures |r| == |labels|
    ensures forall i :: 0 <= i < |labels| ==> r[i] == PrefixTotal(days, history, labels[i], width)
  {
    if labels == [] then []
    else [PrefixTotal(days, history, labels[0], width)] + Totals(labels[1..], days, history, width)
  }

  /** The values of month or year mode: the total of each label's bucket. */
  function GroupTotals(days: seq<string>, history: map<string, nat>, width: nat): (r: seq<nat>)
    requires forall d :: d in days ==> d in history
    ensures |r| == |GroupLabels(days, width)|
  {
    Totals(GroupLabels(days, width), days, history, width)
  }

  /** One more day either opens a new bucket, labelled with its prefix, or joins an existing one. */
  lemma GroupLabelsSnoc(days: seq<string>, day: string, width: nat)
    ensures var labels := GroupLabels(days, width);
      GroupLabels(days + [day], width)
      == if Take(day, width) in labels then labels else labels + [Take(day, width)]
  {
    var xs := Prefixes(days + [day], width);
    assert xs[..|xs| - 1] == Prefixes(days, width);
    assert xs[|xs| - 1] == Take(day, width);
  }

  lemma PrefixTotalSnoc(days: seq<string>, day: string, history: map<string, nat>, bucket: string, width: nat)
    requires forall d :: d in days ==> d in history
    requires day in history
    ensures PrefixTotal(days + [day], history, bucket, width)
         == PrefixTotal(days, history, bucket, width) + (if Take(day, width) == bucket then history[day] else 0)
  {
    assert (days + [day])[..|days|] == days;
  }

  /** The bucket map of the loop after `days`: one entry per label, holding that bucket's words. */
  ghost predicate BucketsHold(buckets: map<string, nat>, days: seq<string>, history: map<string, nat>, width: nat)
    requires forall d :: d in days ==> d in history
  {
    && (forall l :: l in buckets <==> l in GroupLabels(days, width))
    && (forall l :: l in buckets ==> buckets[l] == PrefixTotal(days, history, l, width))
  }

  /** The bucket a day falls into holds, after the day is added, the old total plus the day's count. */
  lemma BucketValueStep(buckets: map<string, nat>, days: seq<string>, day: string, history: map<string, nat>, width: nat, l: string)
    requires forall d :: d in days ==> d in history
    requires day in history
    requires BucketsHold(buckets, days, history, width)
    requires l in buckets || l == Take(day, width)
    ensures (if l in buckets then buckets[l] else 0) + (if l == Take(day, width) then history[day] else 0)
            == PrefixTotal(days + [day], history, l, width)
  {
    PrefixTotalSnoc(days, day, history, l, width);
    if l !in buckets {
      PrefixTotalAbsent(days, history, l, width);
    }
  }

  /** A day's bucket is a label after the day is added, and so is every older label. */
  lemma BucketKeysStep(buckets: map<string, nat>, days: seq<string>, day: string, width: nat, count: nat)
    requires forall l :: l in buckets <==> l in GroupLabels(days, width)
    ensures forall l :: l in buckets[Take(day, width) := count] <==> l in GroupLabels(days + [day], width)
  {
    GroupLabelsSnoc(days, day, width);
  }

  /** Every bucket holds, after the day is added, the words of its days so far. */
  lemma BucketValuesStep(buckets: map<string, nat>, days: seq<string>, day: string, history: map<string, nat>, width: nat,
                         count: nat)
    requires forall d :: d in days ==> d in history
    requires day in history
    requires BucketsHold(buckets, days, history, width)
    requires count == (if Take(day, width) in buckets then buckets[Take(day, width)] else 0) + history[day]
    ensures forall l :: l in buckets[Take(day, width) := count] ==>
      buckets[Take(day, width) := count][l] == PrefixTotal(days + [day], history, l, width)
  {
    forall l | l in buckets[Take(day, width) := count]
      ensures buckets[Take(day, width) := count][l] == PrefixTotal(days + [day], history, l, width)
    {
      BucketValueStep(buckets, days, day, history, width, l);
    }
  }

  /**
   One step of the bucket loop: adding the next day's count to the bucket of
   its prefix, and appending that prefix to the labels when the bucket is new,
   keeps the labels and the bucket map right.
   */
  lemma AddToBucket(allDays: seq<string>, i: nat, history: map<string, nat>, width: nat,
                    buckets: map<string, nat>, labels: seq<string>, key: string, count: nat)
    requires i < |allDays|
    requires forall d :: d in allDays ==> d in history
    requires labels == GroupLabels(allDays[..i], width)
    requires BucketsHold(buckets, allDays[..i], history, width)
    requires key == Take(allDays[i], width)
    requires count == (if key in buckets then buckets[key] else 0) + history[allDays[i]]
    ensures key in buckets ==> labels == GroupLabels(allDays[..i + 1], width)
    ensures key !in buckets ==> labels + [key] == GroupLabels(allDays[..i + 1], width)
    ensures BucketsHold(buckets[key := count], allDays[..i + 1], history, width)
  {
    var days, day := allDays[..i], allDays[i];
    assert allDays[..i + 1] == days + [day];
    InPrefix(allDays, i);
    BucketKeysStep(buckets, days, day, width, count);
    BucketValuesStep(buckets, days, day, history, width, count);
    GroupLabelsSnoc(days, day, width);
  }

  /**
   The body of the bucket loop: add the count of day `i` to the bucket of its
   prefix, creating the bucket (and so its label) on first use.
   */
  method AddDay(allDays: seq<string>, i: nat, history: map<string, nat>, width: nat,
                buckets: map<string, nat>, labels: seq<string>)
    returns (buckets': map<string, nat>, labels': seq<string>)
    requires i < |allDays|
    requires forall d :: d in allDays ==> d in history
    requires labels == GroupLabels(allDays[..i], width)
    requires BucketsHold(buckets, allDays[..i], history, width)
    ensures labels' == GroupLabels(allDays[..i + 1], width)
    ensures BucketsHold(buckets', allDays[..i + 1], history, width)
  {
    var day := allDays[i];
    var key := Take(day, width);
    var count := (if key in buckets then buckets[key] else 0) + history[day];
    AddToBucket(allDays, i, history, width, buckets, labels, key, count);
    labels' := labels;
    if key !in buckets {
      labels' := labels + [key];
    }
    buckets' := buckets[key := count];
  }

  /**
   The bucket loop of month and year mode: add each day's count to the
   bucket of its prefix; the values are then read off in label order.
   */
  method GroupByPrefix(allDays: seq<string>, history: map<string, nat>, width: nat)
    returns (labels: seq<string>, data: seq<nat>)
    requires forall d :: d in allDays ==> d in history
    ensures labels == GroupLabels(allDays, width)
    ensures data == GroupTotals(allDays, history, width)
  {
    var buckets: map<string, nat> := map[];
    labels := [];
    for i := 0 to |allDays|
      invariant labels == GroupLabels(allDays[..i], width)
      invariant BucketsHold(buckets, allDays[..i], history, width)
    {
      buckets, labels := AddDay(allDays, i, history, width, buckets, labels);
    }
    BucketsInLabelOrder(allDays, history, width, buckets, labels);
    data := ReadBuckets(labels, buckets);
  }

  /** The values of the buckets named by `labels`, in label order. */
  function ReadBuckets(labels: seq<string>, buckets: map<string, nat>): (r: seq<nat>)
    requires forall j :: 0 <= j < |labels| ==> labels[j] in buckets
    ensures |r| == |labels|
    ensures forall j :: 0 <= j < |labels| ==> r[j] == buckets[labels[j]]
  {
    seq(|labels|, j requires 0 <= j < |labels| => buckets[labels[j]])
  }

  /** When the loop is done, reading the buckets in label order gives the bucket totals. */
  lemma BucketsInLabelOrder(allDays: seq<string>, history: map<string, nat>, width: nat,
                            buckets: map<string, nat>, labels: seq<string>)
    requires forall d :: d in allDays ==> d in history
    requires labels == GroupLabels(allDays[..|allDays|], width)
    requires BucketsHold(buckets, allDays[..|allDays|], history, width)
    ensures labels == GroupLabels(allDays, width)
    ensures forall j :: 0 <= j < |labels| ==> labels[j] in buckets
    ensures ReadBuckets(labels, buckets) == GroupTotals(allDays, history, width)
  {
    assert allDays[..|allDays|] == allDays;
  }

  lemma {:induction false} PrefixTotalAbsent(days: seq<string>, history: map<string, nat>, bucket: string, width: nat)
    requires forall d :: d in days ==> d in history
    requires bucket !in Prefixes(days, width)
    ensures PrefixTotal(days, history, bucket, width) == 0
  {
    if days != [] {
      assert Prefixes(days, width) == Prefixes(days[..|days| - 1], width) + [Take(days[|days| - 1], width)];
      PrefixTotalAbsent(days[..|days| - 1], history, bucket, width);
    }
  }

  /** One more day adds its count to exactly the one bucket of its prefix. */
  lemma {:induction false} TotalsAddDay(labels: seq<string>, days: seq<string>, day: string, history: map<string, nat>, width: nat)
    requires Distinct(labels)
    requires forall d :: d in days + [day] ==> d in history
    ensures Sum(Totals(labels, days + [day], history, width))
         == Sum(Totals(labels, days, history, width)) + (if Take(day, width) in labels then history[day] else 0)
  {
    if labels != [] {
      assert (days + [day])[..|days|] == days;
      assert Distinct(labels[1..]);
      TotalsAddDay(labels[1..], days, day, history, width);
    }
  }

  lemma TotalsAppendLabel(labels: seq<string>, bucket: string, days: seq<string>, history: map<string, nat>, width: nat)
    requires forall d :: d in days ==> d in history
    ensures Sum(Totals(labels + [bucket], days, history, width))
         == Sum(Totals(labels, days, history, width)) + PrefixTotal(days, history, bucket, width)
  {
    var t := Totals(labels + [bucket], days, history, width);
    assert t == Totals(labels, days, history, width) + [PrefixTotal(days, history, bucket, width)];
    SumSnoc(Totals(labels, days, history, width), PrefixTotal(days, history, bucket, width));
  }

  /** One more day adds its count to the sum of the bucket totals, whether or not it opens a bucket. */
  lemma GroupTotalsStep(days: seq<string>, day: string, history: map<string, nat>, width: nat)
    requires forall d :: d in days + [day] ==> d in history
    ensures Sum(GroupTotals(days + [day], history, width)) == Sum(GroupTotals(days, history, width)) + history[day]
  {
    var p := Take(day, width);
    var labels := GroupLabels(days, width);
    GroupLabelsSnoc(days, day, width);
    TotalsAddDay(labels, days, day, history, width);
    if p !in labels {
      TotalsAppendLabel(labels, p, days + [day], history, width);
      TotalsAddDay([p], days, day, history, width);
      PrefixTotalAbsent(days, history, p, width);
    }
  }

  /** The buckets partition the days: their totals add up to the words of all days. */
  lemma {:induction false} GroupTotalsSum(days: seq<string>, history: map<string, nat>, width: nat)
    requires forall d :: d in days ==> d in history
    ensures Sum(GroupTotals(days, history, width)) == SumOver(days, history)
  {
    if days != [] {
      var init, last := days[..|days| - 1], days[|days| - 1];
      GroupTotalsSum(init, history, width);
      assert days == init + [last];
      GroupTotalsStep(init, last, history, width);
    }
  }

  /** Labels of ascending days come out ascending: month and year buckets are in calendar order. */
  lemma GroupLabelsAscending(days: seq<string>, width: nat)
    requires StrictlyAscending(days)
    ensures StrictlyAscending(GroupLabels(days, width))
  {
    var p := Prefixes(days, width);
    forall i, j | 0 <= i < j < |p| ensures p[i] == p[j] || LexLess(p[i], p[j]) {
      TakeMonotone(days[i], days[j], width);
    }
    DedupAscending(p);
  }

  // ---------------------------------------------------------------------------
  // Default mode: five chunks

  /** `Math.max(1, Math.ceil(n / 5))`. */
  function ChunkSize(n: nat): (seg: nat)
    ensures seg >= 1
    ensures n <= 5 * seg
    ensures n > 0 ==> 5 * (seg - 1) < n
  {
    var c := (n + 4) / 5;
    if c < 1 then 1 else c
  }

  /** The `slice(i, i + seg)` chunks for `i = 0, seg, 2 * seg, ...` below `|days|`. */
  function Chunks(days: seq<string>, seg: nat): (cs: seq<seq<string>>)
    requires seg >= 1
    ensures forall j :: 0 <= j < |cs| ==> cs[j] != []
    ensures days == [] <==> cs == []
    ensures forall c, d :: c in cs && d in c ==> d in days
    decreases |days|
  {
    if days == [] then []
    else
      var k := Min(seg, |days|);
      assert forall d :: d in days[k..] ==> d in days;
      [days[..k]] + Chunks(days[k..], seg)
  }

  function Flatten(cs: seq<seq<string>>): seq<string>
  {
    if cs == [] then [] else cs[0] + Flatten(cs[1..])
  }

  /** `${chunk[0]}~${chunk[chunk.length - 1]}` */
  function ChunkLabel(chunk: seq<string>): string
    requires chunk != []
  {
    chunk[0] + "~" + chunk[|chunk| - 1]
  }

  /** The bucket of each chunk, in order. */
  function ChunkLabels(cs: seq<seq<string>>): (r: seq<string>)
    requires forall j :: 0 <= j < |cs| ==> cs[j] != []
    ensures |r| == |cs|
  {
    if cs == [] then [] else [ChunkLabel(cs[0])] + ChunkLabels(cs[1..])
  }

  /** The words of each chunk, in order. */
  function ChunkTotals(cs: seq<seq<string>>, history: map<string, nat>): (r: seq<nat>)
    requires forall c, d :: c in cs && d in c ==> d in history
    ensures |r| == |cs|
  {
    if cs == [] then [] else [SumOver(cs[0], history)] + ChunkTotals(cs[1..], history)
  }

  /** Every chunk holds between one and `seg` days, and all but the last exactly `seg`. */
  ghost predicate ChunksSized(cs: seq<seq<string>>, seg: nat)
  {
    && (forall j :: 0 <= j < |cs| ==> 1 <= |cs[j]| <= seg)
    && (forall j :: 0 <= j < |cs| - 1 ==> |cs[j]| == seg)
  }

  /** Chunks of `seg` days are sized as the loop cuts them: only the last may be shorter. */
  lemma {:induction false} ChunkSizes(days: seq<string>, seg: nat)
    requires seg >= 1
    ensures ChunksSized(Chunks(days, seg), seg)
    decreases |days|
  {
    if days != [] {
      var k := Min(seg, |days|);
      var rest := Chunks(days[k..], seg);
      ChunkSizes(days[k..], seg);
      var cs := Chunks(days, seg);
      assert cs == [days[..k]] + rest;
      forall j | 0 <= j < |cs|
        ensures 1 <= |cs[j]| <= seg
        ensures j < |cs| - 1 ==> |cs[j]| == seg
      {
        if j == 0 {
          assert cs[0] == days[..k];
          if |cs| > 1 {
            assert rest != [];
          }
        } else {
          assert cs[j] == rest[j - 1];
        }
      }
    }
  }

  /** The `j`-th label is the label of the `j`-th chunk. */
  lemma {:induction false} ChunkLabelsAt(cs: seq<seq<string>>)
    requires forall j :: 0 <= j < |cs| ==> cs[j] != []
    ensures forall j :: 0 <= j < |cs| ==> ChunkLabels(cs)[j] == ChunkLabel(cs[j])
  {
    if cs != [] {
      ChunkLabelsAt(cs[1..]);
    }
  }

  /** The chunks cut the days into consecutive pieces, in order, without loss or overlap. */
  lemma {:induction false} ChunksPartition(days: seq<string>, seg: nat)
    requires seg >= 1
    ensures Flatten(Chunks(days, seg)) == days
    decreases |days|
  {
    if days != [] {
      var k := Min(seg, |days|);
      ChunksPartition(days[k..], seg);
      assert Chunks(days, seg)[1..] == Chunks(days[k..], seg);
      assert days == days[..k] + days[k..];
    }
  }

  lemma {:induction false} ChunkCount(days: seq<string>, seg: nat)
    requires seg >= 1
    ensures var c := |Chunks(days, seg)|; (c - 1) * seg < |days| <= c * seg
    decreases |days|
  {
    if |days| > seg {
      ChunkCount(days[seg..], seg);
    }
  }

  /** Default mode never shows more than five segments. */
  lemma AtMostFiveChunks(days: seq<string>)
    ensures |Chunks(days, ChunkSize(|days|))| <= 5
  {
    var seg := ChunkSize(|days|);
    ChunkCount(days, seg);
    MulCancel(|Chunks(days, seg)| - 1, 5, seg);
  }

  lemma MulCancel(a: int, b: int, s: nat)
    requires s >= 1 && a * s < b * s
    ensures a < b
  {
  }

  lemma {:induction false} FlattenChunkTotals(cs: seq<seq<string>>, history: map<string, nat>)
    requires forall c, d :: c in cs && d in c ==> d in history
    ensures forall d :: d in Flatten(cs) ==> d in history
    ensures Sum(ChunkTotals(cs, history)) == SumOver(Flatten(cs), history)
  {
    if cs != [] {
      FlattenChunkTotals(cs[1..], history);
      SumOverConcat(cs[0], Flatten(cs[1..]), history);
    }
  }

  /** The chunk totals add up to the words of all days. */
  lemma ChunkTotalsSum(days: seq<string>, seg: nat, history: map<string, nat>)
    requires seg >= 1
    requires forall d :: d in days ==> d in history
    ensures forall c, d :: c in Chunks(days, seg) && d in c ==> d in history
    ensures Sum(ChunkTotals(Chunks(days, seg), history)) == SumOver(days, history)
  {
    FlattenChunkTotals(Chunks(days, seg), history);
    ChunksPartition(days, seg);
  }

  /** Unfolding the chunks of the days from `i` on: the chunk at `i`, then the chunks after it. */
  lemma ChunksStep(days: seq<string>, i: nat, seg: nat)
    requires seg >= 1 && i < |days|
    ensures Chunks(days[i..], seg) == [days[i..Min(i + seg, |days|)]] + Chunks(days[Min(i + seg, |days|)..], seg)
  {
    var end := Min(i + seg, |days|);
    assert days[i..][..end - i] == days[i..end];
    assert days[i..][end - i..] == days[end..];
  }

  /** The labels the default-mode loop pushes from position `i` on. */
  function LabelsFrom(days: seq<string>, i: nat, seg: nat): seq<string>
    requires seg >= 1
    decreases |days| - i
  {
    if i >= |days| then [] else [ChunkLabel(days[i..Min(i + seg, |days|)])] + LabelsFrom(days, i + seg, seg)
  }

  /** The totals the default-mode loop pushes from position `i` on. */
  function TotalsFrom(days: seq<string>, i: nat, seg: nat, history: map<string, nat>): seq<nat>
    requires seg >= 1
    requires forall d :: d in days ==> d in history
    decreases |days| - i
  {
    if i >= |days| then []
    else
      var chunk := days[i..Min(i + seg, |days|)];
      assert forall d :: d in chunk ==> d in days;
      [SumOver(chunk, history)] + TotalsFrom(days, i + seg, seg, history)
  }

  lemma AppendAssoc<T>(a: seq<T>, b: seq<T>, c: seq<T>)
    ensures a + b + c == a + (b + c)
  {
  }

  /**
   The invariant of the default-mode loop at position `i`: what has been
   pushed, followed by what the loop will push from `i` on, is what it pushes
   from 0.
   */
  ghost predicate Pushed(days: seq<string>, i: nat, seg: nat, history: map<string, nat>,
                         labels: seq<string>, data: seq<nat>)
    requires seg >= 1
    requires forall d :: d in days ==> d in history
  {
    && labels + LabelsFrom(days, i, seg) == LabelsFrom(days, 0, seg)
    && data + TotalsFrom(days, i, seg, history) == TotalsFrom(days, 0, seg, history)
  }

  /** One round of the default-mode loop keeps its invariant. */
  lemma DefaultLoopStep(days: seq<string>, i: nat, seg: nat, history: map<string, nat>,
                        labels: seq<string>, data: seq<nat>, chunk: seq<string>)
    requires seg >= 1 && i < |days| && chunk == days[i..Min(i + seg, |days|)]
    requires forall d :: d in days ==> d in history
    requires Pushed(days, i, seg, history, labels, data)
    ensures chunk != [] && forall d :: d in chunk ==> d in history
    ensures Pushed(days, i + seg, seg, history, labels + [ChunkLabel(chunk)], data + [SumOver(chunk, history)])
  {
    assert forall d :: d in chunk ==> d in days;
    AppendAssoc(labels, [ChunkLabel(chunk)], LabelsFrom(days, i + seg, seg));
    AppendAssoc(data, [SumOver(chunk, history)], TotalsFrom(days, i + seg, seg, history));
  }

  /** Once the position is past the last day nothing more is pushed. */
  lemma FromPastEnd(days: seq<string>, i: nat, seg: nat, history: map<string, nat>,
                    labels: seq<string>, data: seq<nat>)
    requires seg >= 1 && i >= |days|
    requires forall d :: d in days ==> d in history
    requires Pushed(days, i, seg, history, labels, data)
    ensures labels == LabelsFrom(days, 0, seg)
    ensures data == TotalsFrom(days, 0, seg, history)
  {
    assert labels + [] == labels && data + [] == data;
  }

  /** What the loop pushes from `i` on is the labels and totals of the chunks of the days from `i` on. */
  lemma {:induction false} FromIsChunks(days: seq<string>, i: nat, seg: nat, history: map<string, nat>)
    requires seg >= 1 && i <= |days|
    requires forall d :: d in days ==> d in history
    ensures forall c, d :: c in Chunks(days[i..], seg) && d in c ==> d in history
    ensures LabelsFrom(days, i, seg) == ChunkLabels(Chunks(days[i..], seg))
    ensures TotalsFrom(days, i, seg, history) == ChunkTotals(Chunks(days[i..], seg), history)
    decreases |days| - i
  {
    assert forall d :: d in days[i..] ==> d in days;
    if i < |days| {
      var end := Min(i + seg, |days|);
      FromIsChunks(days, end, seg, history);
      ChunksStep(days, i, seg);
      var next := Chunks(days[end..], seg);
      assert ([days[i..end]] + next)[1..] == next;
      if i + seg > |days| {
        assert LabelsFrom(days, i + seg, seg) == LabelsFrom(days, end, seg) == [];
        assert TotalsFrom(days, i + seg, seg, history) == TotalsFrom(days, end, seg, history) == [];
      }
    } else {
      assert days[i..] == [];
    }
  }

  /**
   The default-mode loop: for `i = 0, seg, 2 * seg, ...` below the number of
   days, push the bucket and the total of the days `i` to `i + seg` (fewer at
   the end).
   */
  method DefaultSegments(allDays: seq<string>, history: map<string, nat>)
    returns (labels: seq<string>, data: seq<nat>)
    requires forall d :: d in allDays ==> d in history
    ensures labels == LabelsFrom(allDays, 0, ChunkSize(|allDays|))
    ensures data == TotalsFrom(allDays, 0, ChunkSize(|allDays|), history)
  {
    var len := |allDays|;
    var seg := ChunkSize(len);
    labels, data := [], [];
    var i: nat := 0;
    while i < len
      invariant Pushed(allDays, i, seg, history, labels, data)
      decreases len - i
    {
      labels, data := PushChunk(allDays, i, seg, history, labels, data);
      i := i + seg;
    }
    FromPastEnd(allDays, i, seg, history, labels, data);
  }

  /** The body of the default-mode loop: push the label and the total of the chunk starting at `i`. */
  method PushChunk(allDays: seq<string>, i: nat, seg: nat, history: map<string, nat>,
                   labels: seq<string>, data: seq<nat>)
    returns (labels': seq<string>, data': seq<nat>)
    requires seg >= 1 && i < |allDays|
    requires forall d :: d in allDays ==> d in history
    requires Pushed(allDays, i, seg, history, labels, data)
    ensures Pushed(allDays, i + seg, seg, history, labels', data')
  {
    var segDays := allDays[i..Min(i + seg, |allDays|)];
    DefaultLoopStep(allDays, i, seg, history, labels, data, segDays);
    labels' := labels + [ChunkLabel(segDays)];
    data' := data + [SumOver(segDays, history)];
  }

  // ---------------------------------------------------------------------------
  // Cumulative pass

  /** The running totals: entry `i` is the sum of entries `0..i` of `s`. */
  function PrefixSums(s: seq<nat>): (p: seq<nat>)
    ensures |p| == |s|
  {
    seq(|s|, i requires 0 <= i < |s| => Sum(s[..i + 1]))
  }

  /** Successive differences, the first entry kept: what running totals came from. */
  function Differences(p: seq<int>): (s: seq<int>)
    ensures |s| == |p|
  {
    seq(|p|, i requires 0 <= i < |p| => if i == 0 then p[0] else p[i] - p[i - 1])
  }

  lemma SumPrefixStep(s: seq<nat>, i: nat)
    requires i < |s|
    ensures Sum(s[..i + 1]) == Sum(s[..i]) + s[i]
  {
    assert s[..i + 1] == s[..i] + [s[i]];
    SumSnoc(s[..i], s[i]);
  }

  lemma PrefixSumsMonotone(s: seq<nat>, i: nat, j: nat)
    requires i <= j < |s|
    ensures PrefixSums(s)[i] <= PrefixSums(s)[j]
  {
    assert s[..j + 1] == s[..i + 1] + s[i + 1..j + 1];
    SumConcat(s[..i + 1], s[i + 1..j + 1]);
  }

  /**
   The running totals keep the length and the first entry, never decrease,
   and end with the total of the series.
   */
  lemma PrefixSumsFacts(s: seq<nat>)
    ensures |PrefixSums(s)| == |s|
    ensures |s| > 0 ==> PrefixSums(s)[0] == s[0] && PrefixSums(s)[|s| - 1] == Sum(s)
    ensures forall i, j :: 0 <= i <= j < |s| ==> PrefixSums(s)[i] <= PrefixSums(s)[j]
  {
    if |s| > 0 {
      assert s[..1] == [s[0]];
      assert Sum([s[0]]) == s[0] + Sum([]);
      assert s[..|s|] == s;
    }
    forall i, j | 0 <= i <= j < |s| ensures PrefixSums(s)[i] <= PrefixSums(s)[j] {
      PrefixSumsMonotone(s, i, j);
    }
  }

  /** Taking differences undoes the running totals. */
  lemma DifferencesUndoPrefixSums(s: seq<nat>)
    ensures Differences(PrefixSums(s)) == s
  {
    var p := PrefixSums(s);
    forall i | 0 <= i < |s| ensures Differences(p)[i] == s[i] {
      if i == 0 {
        assert s[..1] == [s[0]];
        assert Sum([s[0]]) == s[0] + Sum([]);
      } else {
        SumPrefixStep(s, i);
      }
    }
  }

  /** The in-place pass `data[i] += data[i - 1]` for `i = 1, 2, ...`. */
  method Accumulate(data: array<nat>)
    modifies data
    ensures data[..] == PrefixSums(old(data[..]))
  {
    ghost var s := data[..];
    if data.Length > 0 {
      assert s[..1] == [s[0]];
      assert Sum([s[0]]) == s[0] + Sum([]);
    }
    var i := 1;
    while i < data.Length
      invariant 1 <= i && (data.Length == 0 || i <= data.Length)
      invariant forall k :: 0 <= k < i && k < data.Length ==> data[k] == Sum(s[..k + 1])
      invariant forall k :: i <= k < data.Length ==> data[k] == s[k]
    {
      SumPrefixStep(s, i);
      data[i] := data[i] + data[i - 1];
      i := i + 1;
    }
  }

  // ---------------------------------------------------------------------------
  // The chart series

  /** The labels of a mode. */
  function SeriesLabels(mode: Mode, allDays: seq<string>): (labels: seq<string>)
    ensures allDays == [] ==> labels == []
  {
    match mode
    case Month => GroupLabels(allDays, 7)
    case Year => GroupLabels(allDays, 4)
    case Default =>
      var cs := Chunks(allDays, ChunkSize(|allDays|));
      ChunkLabels(cs)
  }

  /** The values of a mode, before the cumulative pass. */
  function SeriesValues(mode: Mode, allDays: seq<string>, history: map<string, nat>): (data: seq<nat>)
    requires forall d :: d in allDays ==> d in history
    ensures |data| == |SeriesLabels(mode, allDays)|
  {
    match mode
    case Month => GroupTotals(allDays, history, 7)
    case Year => GroupTotals(allDays, history, 4)
    case Default =>
      var cs := Chunks(allDays, ChunkSize(|allDays|));
      ChunkTotalsSum(allDays, ChunkSize(|allDays|), history);
      ChunkTotals(cs, history)
  }

  /** `renderChart`'s data preparation: the series of the mode, as running totals when cumulative. */
  method RenderChart(mode: Mode, isCumulative: bool, allDays: seq<string>, history: map<string, nat>)
    returns (labels: seq<string>, data: seq<nat>)
    requires forall d :: d in allDays ==> d in history
    ensures labels == SeriesLabels(mode, allDays)
    ensures data == if isCumulative then PrefixSums(SeriesValues(mode, allDays, history))
                    else SeriesValues(mode, allDays, history)
  {
    match mode {
      case Month =>
        labels, data := GroupByPrefix(allDays, history, 7);
      case Year =>
        labels, data := GroupByPrefix(allDays, history, 4);
      case Default =>
        labels, data := DefaultSegments(allDays, history);
        FromIsChunks(allDays, 0, ChunkSize(|allDays|), history);
        assert allDays[0..] == allDays;
    }
    if isCumulative {
      var buffer := new nat[|data|](k requires 0 <= k < |data| => data[k]);
      assert buffer[..] == data;
      Accumulate(buffer);
      data := buffer[..];
    }
  }

  /** In every mode the values add up to the words of all days: no day is lost or counted twice. */
  lemma SeriesTotal(mode: Mode, allDays: seq<string>, history: map<string, nat>)
    requires forall d :: d in allDays ==> d in history
    ensures Sum(SeriesValues(mode, allDays, history)) == SumOver(allDays, history)
  {
    match mode
    case Month => GroupTotalsSum(allDays, history, 7);
    case Year => GroupTotalsSum(allDays, history, 4);
    case Default => ChunkTotalsSum(allDays, ChunkSize(|allDays|), history);
  }

  /**
   Over the sorted keys of a history, the values of every mode add up to the
   history's total, and so does the last running total.
   */
  lemma SeriesTotalIsHistoryTotal(mode: Mode, allDays: seq<string>, history: map<string, nat>)
    requires SortedKeysOf(allDays, history)
    ensures Sum(SeriesValues(mode, allDays, history)) == MapTotal(history)
    ensures var p := PrefixSums(SeriesValues(mode, allDays, history));
      |p| > 0 ==> p[|p| - 1] == MapTotal(history)
  {
    SeriesTotal(mode, allDays, history);
    AscendingIsDistinct(allDays);
    SumOverKeys(allDays, history);
    PrefixSumsFacts(SeriesValues(mode, allDays, history));
  }

  /** Month and year labels over sorted keys are distinct and ascending. */
  lemma BucketLabelsAscending(mode: Mode, allDays: seq<string>)
    requires mode != Default
    requires StrictlyAscending(allDays)
    ensures StrictlyAscending(SeriesLabels(mode, allDays))
    ensures Distinct(SeriesLabels(mode, allDays))
  {
    GroupLabelsAscending(allDays, if mode == Month then 7 else 4);
    AscendingIsDistinct(SeriesLabels(mode, allDays));
  }

  /**
   The default segments: at most five, every one but the last exactly
   `max(1, ceil(n / 5))` days, labelled by its first and last day, and
   together exactly the days in order.
   */
  lemma DefaultSegmentsShape(allDays: seq<string>)
    ensures var seg := ChunkSize(|allDays|);
      var cs := Chunks(allDays, seg);
      && |cs| <= 5
      && Flatten(cs) == allDays
      && (forall j :: 0 <= j < |cs| - 1 ==> |cs[j]| == seg)
      && (forall j :: 0 <= j < |cs| ==> 1 <= |cs[j]| <= seg)
      && |SeriesLabels(Default, allDays)| == |cs|
      && (forall j :: 0 <= j < |cs| ==>
            SeriesLabels(Default, allDays)[j] == cs[j][0] + "~" + cs[j][|cs[j]| - 1])
  {
    AtMostFiveChunks(allDays);
    ChunksPartition(allDays, ChunkSize(|allDays|));
    ChunkSizes(allDays, ChunkSize(|allDays|));
    ChunkLabelsAt(Chunks(allDays, ChunkSize(|allDays|)));
  }

  // ---------------------------------------------------------------------------
  // Totals shown beside the chart

  /** `Object.values(history).reduce((sum, count) => sum + count, 0)`. */
  method TotalWordCount(history: map<string, nat>) returns (totalWords: nat)
    ensures totalWords == MapTotal(history)
  {
    totalWords := 0;
    var rest := history;
    while rest != map[]
      invariant totalWords + MapTotal(rest) == MapTotal(history)
      decreases |rest|
    {
      var day :| day in rest;
      MapTotalRemove(rest, day);
      totalWords := totalWords + rest[day];
      rest := rest - {day};
    }
  }

  /** The per-day series of the plain history view: each sorted key's count. */
  function DailySeries(labels: seq<string>, history: map<string, nat>): (data: seq<nat>)
    requires forall d :: d in labels ==> d in history
    ensures |data| == |labels|
    ensures forall i :: 0 <= i < |labels| ==> data[i] == history[labels[i]]
  {
    seq(|labels|, i requires 0 <= i < |labels| => history[labels[i]])
  }

  lemma {:induction false} DailySeriesSum(labels: seq<string>, history: map<string, nat>)
    requires forall d :: d in labels ==> d in history
    ensures Sum(DailySeries(labels, history)) == SumOver(labels, history)
  {
    if labels != [] {
      var init := labels[..|labels| - 1];
      DailySeriesSum(init, history);
      assert DailySeries(labels, history) == DailySeries(init, history) + [history[labels[|labels| - 1]]];
      SumSnoc(DailySeries(init, history), history[labels[|labels| - 1]]);
    }
  }

  /** Over the sorted keys, the per-day series has one point per day and adds up to the history total. */
  lemma DailySeriesTotal(labels: seq<string>, history: map<string, nat>)
    requires SortedKeysOf(labels, history)
    ensures Sum(DailySeries(labels, history)) == MapTotal(history)
  {
    DailySeriesSum(labels, history);
    AscendingIsDistinct(labels);
    SumOverKeys(labels, history);
  }
}
