/**
 * Sensor naming and sequencing shared by the sensor modes: ids
 * `"sensor_"` + the index zero-padded to three digits, topics
 * `<base>/<sensor_id>/data`, and the records published round after round,
 * each round visiting sensors 1 .. n in order with one sequence number per
 * publish attempt.
 */
module Sensors {
  import opened Wrappers
  import opened Transport
  import opened Decimals

  const SensorPrefix: string := "sensor_"

  /** `f"sensor_{i:03d}"`. */
  function SensorId(i: nat): string {
    SensorPrefix + ZeroPad(Decimal(i), 3)
  }

  /** Reads the index back out of a sensor id. */
  function ParseSensorId(s: string): Option<nat> {
    if |s| > |SensorPrefix| && s[..|SensorPrefix|] == SensorPrefix && AllDigits(s[|SensorPrefix|..])
    then Some(DigitsValue(s[|SensorPrefix|..]))
    else None
  }

  /** `f"{topic_base}/{sensor_id}/data"`. */
  function SensorTopic(base: string, sensorId: string): string {
    base + "/" + sensorId + "/data"
  }

  /** The part of a sensor payload this model keeps: the key the id is stored
      under, the id, and the `"sequence"` field. Readings and the timestamp are
      not modelled. */
  datatype SensorRecord = SensorRecord(idKey: string, sensorId: string, sequence: nat)

  /** The records of the first `n` sensors of one round whose sequence numbers
      continue after `first`. */
  function RoundRecords(idKey: string, n: nat, first: nat): seq<SensorRecord>
    decreases n
  {
    if n == 0 then [] else RoundRecords(idKey, n - 1, first) + [SensorRecord(idKey, SensorId(n), first + n)]
  }

  /** The records of `rounds` full rounds over `sensors` sensors, the sequence
      counter standing at `first` before the first. */
  function Rounds(idKey: string, rounds: nat, sensors: nat, first: nat): seq<SensorRecord>
    decreases rounds
  {
    if rounds == 0 then []
    else Rounds(idKey, rounds - 1, sensors, first) + RoundRecords(idKey, sensors, first + (rounds - 1) * sensors)
  }

  /** The transport calls that publish `recs`, each as JSON (`dumps`) on its
      sensor's topic under `base`, with QoS 1 and no retain. */
  function SensorPublishes(base: string, recs: seq<SensorRecord>, dumps: SensorRecord -> string): seq<Call>
    decreases |recs|
  {
    if |recs| == 0 then []
    else
      var last := recs[|recs| - 1];
      SensorPublishes(base, recs[..|recs| - 1], dumps)
        + [PublishCall(SensorTopic(base, last.sensorId), dumps(last), DefaultQos, false)]
  }

  /** Reading back an id gives its index. */
  lemma ParseSensorIdOfSensorId(i: nat)
    ensures ParseSensorId(SensorId(i)) == Some(i)
  {
    PaddedValue(i, 3);
    var s := SensorId(i);
    assert s[..|SensorPrefix|] == SensorPrefix;
    assert s[|SensorPrefix|..] == ZeroPad(Decimal(i), 3);
  }

  /** Distinct sensors get distinct ids. */
  lemma SensorIdsDistinct(i: nat, j: nat)
    requires i != j
    ensures SensorId(i) != SensorId(j)
  {
    ParseSensorIdOfSensorId(i);
    ParseSensorIdOfSensorId(j);
  }

  /** Below 1000 an id is always ten characters: the prefix and three digits. */
  lemma SensorIdWidth(i: nat)
    requires i < 1000
    ensures |SensorId(i)| == |SensorPrefix| + 3
    ensures AllDigits(SensorId(i)[|SensorPrefix|..])
  {
    DecimalBelowThousand(i);
    PaddedValue(i, 3);
    assert SensorId(i)[|SensorPrefix|..] == ZeroPad(Decimal(i), 3);
  }

  /** The id sits between the base and the `/data` suffix, so distinct ids
      under one base give distinct topics. */
  lemma SensorTopicsDistinct(base: string, a: string, b: string)
    requires a != b
    ensures SensorTopic(base, a) != SensorTopic(base, b)
  {
    var ta := SensorTopic(base, a);
    var tb := SensorTopic(base, b);
    assert |ta| == |base| + |a| + 6 && |tb| == |base| + |b| + 6;
    assert ta[|base| + 1..|base| + 1 + |a|] == a;
    assert tb[|base| + 1..|base| + 1 + |b|] == b;
  }

  /** Within a round, the j-th publish (from 0) is sensor j + 1's, numbered
      `first + j + 1`. */
  lemma {:induction false} RoundRecordsAt(idKey: string, n: nat, first: nat, j: nat)
    requires j < n
    ensures |RoundRecords(idKey, n, first)| == n
    ensures RoundRecords(idKey, n, first)[j] == SensorRecord(idKey, SensorId(j + 1), first + j + 1)
    decreases n
  {
    RoundRecordsLength(idKey, n - 1, first);
    if j < n - 1 {
      RoundRecordsAt(idKey, n - 1, first, j);
    }
  }

  /** The j-th record of a round carries sequence number first + j + 1. */
  lemma {:induction false} RoundRecordsSequence(idKey: string, n: nat, first: nat, j: nat)
    requires j < n
    ensures |RoundRecords(idKey, n, first)| == n
    ensures RoundRecords(idKey, n, first)[j].sequence == first + j + 1
    decreases n
  {
    RoundRecordsLength(idKey, n - 1, first);
    if j < n - 1 {
      RoundRecordsSequence(idKey, n - 1, first, j);
    }
  }

  lemma {:induction false} RoundRecordsLength(idKey: string, n: nat, first: nat)
    ensures |RoundRecords(idKey, n, first)| == n
    decreases n
  {
    if n > 0 {
      RoundRecordsLength(idKey, n - 1, first);
    }
  }

  /** After r rounds over s sensors there were r * s publishes, numbered
      consecutively from `first + 1`: the counter ends at `first + r * s`. */
  lemma {:induction false} RoundsNumbering(idKey: string, r: nat, s: nat, first: nat)
    ensures |Rounds(idKey, r, s, first)| == r * s
    ensures forall k :: 0 <= k < r * s ==> Rounds(idKey, r, s, first)[k].sequence == first + k + 1
    decreases r
  {
    if r > 0 {
      var m := (r - 1) * s;
      RoundsNumbering(idKey, r - 1, s, first);
      var prev: seq<SensorRecord> := Rounds(idKey, r - 1, s, first);
      var last: seq<SensorRecord> := RoundRecords(idKey, s, first + m);
      assert Rounds(idKey, r, s, first) == prev + last;
      NumberingContinues(idKey, prev, last, s, first, m);
      assert m + s == r * s;
    }
  }

  /** Records numbered first + 1 .. first + m, followed by a round numbered on
      from first + m, are numbered first + 1 .. first + m + s. */
  lemma NumberingContinues(idKey: string, prev: seq<SensorRecord>, last: seq<SensorRecord>, s: nat, first: nat, m: nat)
    requires |prev| == m
    requires forall k :: 0 <= k < m ==> prev[k].sequence == first + k + 1
    requires last == RoundRecords(idKey, s, first + m)
    ensures |prev + last| == m + s
    ensures forall k :: 0 <= k < m + s ==> (prev + last)[k].sequence == first + k + 1
  {
    RoundRecordsLength(idKey, s, first + m);
    forall k | 0 <= k < m + s
      ensures (prev + last)[k].sequence == first + k + 1
    {
      if k < m {
        assert (prev + last)[k] == prev[k];
      } else {
        RoundRecordsSequence(idKey, s, first + m, k - m);
        assert (prev + last)[k] == last[k - m];
      }
    }
  }

  /** Earlier rounds are a prefix of later ones. */
  lemma {:induction false} RoundsPrefix(idKey: string, q: nat, r: nat, s: nat, first: nat)
    requires q <= r
    ensures |Rounds(idKey, q, s, first)| <= |Rounds(idKey, r, s, first)|
    ensures Rounds(idKey, r, s, first)[..|Rounds(idKey, q, s, first)|] == Rounds(idKey, q, s, first)
    decreases r
  {
    if q < r {
      RoundsPrefix(idKey, q, r - 1, s, first);
      var a := Rounds(idKey, q, s, first);
      var b := Rounds(idKey, r - 1, s, first);
      var c := Rounds(idKey, r, s, first);
      assert c[..|b|] == b;
      assert c[..|a|] == b[..|a|];
    }
  }

  /** Round q (from 0) publishes sensor j + 1 at position q * s + j, and its
      sequence number is `first + q * s + j + 1`: every round visits
      sensor_001 .. in increasing order. */
  lemma RoundsAt(idKey: string, r: nat, s: nat, first: nat, q: nat, j: nat)
    requires q < r && j < s
    ensures q * s + j < |Rounds(idKey, r, s, first)|
    ensures Rounds(idKey, r, s, first)[q * s + j] == SensorRecord(idKey, SensorId(j + 1), first + q * s + j + 1)
  {
    RoundsPrefix(idKey, q + 1, r, s, first);
    RoundsNumbering(idKey, q, s, first);
    RoundsNumbering(idKey, q + 1, s, first);
    RoundRecordsAt(idKey, s, first + q * s, j);
    var upTo := Rounds(idKey, q + 1, s, first);
    assert upTo == Rounds(idKey, q, s, first) + RoundRecords(idKey, s, first + q * s);
    assert upTo[q * s + j] == RoundRecords(idKey, s, first + q * s)[j];
  }

  /** How many times `range(n)` iterates: none for a negative or zero n. */
  function Iterations(n: int): nat {
    if n < 0 then 0 else n
  }

  /** The pass count of `range(n)` is the least count that is at least n. */
  lemma IterationsLeastAbove(n: int)
    ensures n <= Iterations(n)
    ensures Iterations(n) == 0 || Iterations(n) == n
  {
  }

  /** Publishing one more record appends one call. */
  lemma SensorPublishesSnoc(base: string, recs: seq<SensorRecord>, rec: SensorRecord, dumps: SensorRecord -> string)
    ensures SensorPublishes(base, recs + [rec], dumps)
         == SensorPublishes(base, recs, dumps) + [PublishCall(SensorTopic(base, rec.sensorId), dumps(rec), DefaultQos, false)]
  {
    assert (recs + [rec])[..|recs|] == recs;
  }

  /** Publishing two batches one after the other makes the calls of each, in order. */
  lemma {:induction false} SensorPublishesAppend(base: string, a: seq<SensorRecord>, b: seq<SensorRecord>,
                                                 dumps: SensorRecord -> string)
    ensures SensorPublishes(base, a + b, dumps) == SensorPublishes(base, a, dumps) + SensorPublishes(base, b, dumps)
    decreases |b|
  {
    if |b| == 0 {
      assert a + b == a;
    } else {
      var init := b[..|b| - 1];
      var last := b[|b| - 1];
      assert a + b == (a + init) + [last];
      assert b == init + [last];
      SensorPublishesAppend(base, a, init, dumps);
      SensorPublishesSnoc(base, a + init, last, dumps);
      SensorPublishesSnoc(base, init, last, dumps);
    }
  }

  /** One more round appends the calls of that round, whose records are
      numbered on from the counter `start` as it stood after the earlier
      rounds. */
  lemma RoundsPublishesSnoc(base: string, idKey: string, r: nat, s: nat, first: nat, start: nat,
                            dumps: SensorRecord -> string)
    requires start == first + r * s
    ensures SensorPublishes(base, Rounds(idKey, r + 1, s, first), dumps)
         == SensorPublishes(base, Rounds(idKey, r, s, first), dumps) + SensorPublishes(base, RoundRecords(idKey, s, start), dumps)
  {
    assert Rounds(idKey, r + 1, s, first) == Rounds(idKey, r, s, first) + RoundRecords(idKey, s, start);
    SensorPublishesAppend(base, Rounds(idKey, r, s, first), RoundRecords(idKey, s, start), dumps);
  }

  /** A log that grew by `done` (when `live`) and then by `more` (when `live`)
      grew by `done + more`. */
  lemma ExtendLog(before: seq<Call>, prior: seq<Call>, after: seq<Call>, done: seq<Call>, more: seq<Call>, live: bool)
    requires prior == before + (if live then done else [])
    requires after == prior + (if live then more else [])
    ensures after == before + (if live then done + more else [])
  {
    if live {
      assert after == before + done + more;
    } else {
      assert after == before;
    }
  }

  /** A call log that holds the calls of r rounds (when `live`) and then grew
      by the calls of a round starting at counter `start` holds the calls of
      r + 1 rounds, provided the round started where the r rounds left off. */
  lemma NextRoundLog(before: seq<Call>, prior: seq<Call>, after: seq<Call>, live: bool,
                     base: string, idKey: string, r: nat, s: nat, first: nat, start: nat, dumps: SensorRecord -> string)
    requires start == first + r * s
    requires prior == before + (if live then SensorPublishes(base, Rounds(idKey, r, s, first), dumps) else [])
    requires after == prior + (if live then SensorPublishes(base, RoundRecords(idKey, s, start), dumps) else [])
    ensures after == before + (if live then SensorPublishes(base, Rounds(idKey, r + 1, s, first), dumps) else [])
  {
    var done := SensorPublishes(base, Rounds(idKey, r, s, first), dumps);
    var more := SensorPublishes(base, RoundRecords(idKey, s, start), dumps);
    RoundsPublishesSnoc(base, idKey, r, s, first, start, dumps);
    ExtendLog(before, prior, after, done, more, live);
  }

  /** A call log that holds the calls of the first i - 1 sensors of a round
      (when `live`) and then grew by sensor i's publish holds the calls of the
      first i. */
  lemma NextSensorLog(before: seq<Call>, prior: seq<Call>, after: seq<Call>, live: bool,
                      base: string, idKey: string, i: nat, first: nat, dumps: SensorRecord -> string)
    requires i >= 1
    requires prior == before + (if live then SensorPublishes(base, RoundRecords(idKey, i - 1, first), dumps) else [])
    requires after == prior +
               (if live then [PublishCall(SensorTopic(base, SensorId(i)), dumps(SensorRecord(idKey, SensorId(i), first + i)),
                                          DefaultQos, false)]
                else [])
    ensures after == before + (if live then SensorPublishes(base, RoundRecords(idKey, i, first), dumps) else [])
  {
    var record := SensorRecord(idKey, SensorId(i), first + i);
    assert RoundRecords(idKey, i, first) == RoundRecords(idKey, i - 1, first) + [record];
    SensorPublishesSnoc(base, RoundRecords(idKey, i - 1, first), record, dumps);
    ExtendLog(before, prior, after, SensorPublishes(base, RoundRecords(idKey, i - 1, first), dumps),
              [PublishCall(SensorTopic(base, record.sensorId), dumps(record), DefaultQos, false)], live);
  }

  /** The k-th call publishes the k-th record on its sensor's topic. */
  lemma {:induction false} SensorPublishesAt(base: string, recs: seq<SensorRecord>, dumps: SensorRecord -> string, k: nat)
    requires k < |recs|
    ensures |SensorPublishes(base, recs, dumps)| == |recs|
    ensures SensorPublishes(base, recs, dumps)[k]
         == PublishCall(SensorTopic(base, recs[k].sensorId), dumps(recs[k]), DefaultQos, false)
    decreases |recs|
  {
    var init := recs[..|recs| - 1];
    SensorPublishesLength(base, init, dumps);
    if k < |recs| - 1 {
      SensorPublishesAt(base, init, dumps, k);
    }
  }

  lemma {:induction false} SensorPublishesLength(base: string, recs: seq<SensorRecord>, dumps: SensorRecord -> string)
    ensures |SensorPublishes(base, recs, dumps)| == |recs|
    decreases |recs|
  {
    if |recs| > 0 {
      SensorPublishesLength(base, recs[..|recs| - 1], dumps);
    }
  }

  /** The publish at position k = q * s + j of r rounds goes to sensor j + 1's
      topic and carries the record with its id and sequence number
      first + k + 1, with QoS 1 and no retain. */
  lemma RoundsCallAt(base: string, idKey: string, r: nat, s: nat, first: nat, dumps: SensorRecord -> string,
                     q: nat, j: nat, k: nat)
    requires q < r && j < s && k == q * s + j
    ensures |SensorPublishes(base, Rounds(idKey, r, s, first), dumps)| == r * s
    ensures k < r * s
    ensures SensorPublishes(base, Rounds(idKey, r, s, first), dumps)[k]
         == PublishCall(SensorTopic(base, SensorId(j + 1)),
                        dumps(SensorRecord(idKey, SensorId(j + 1), first + k + 1)), DefaultQos, false)
  {
    var recs := Rounds(idKey, r, s, first);
    RoundsAt(idKey, r, s, first, q, j);
    RoundsNumbering(idKey, r, s, first);
    SensorPublishesAt(base, recs, dumps, k);
    assert recs[k] == SensorRecord(idKey, SensorId(j + 1), first + k + 1);
  }
}
