// Thresholds and timings (constants.ts), and how a timer delay is derived from the
// timing table when some of the keys read are absent from it.

module Constants {

  /** A per-axis acceleration change above this is a shake. */
  const ShakeThreshold: real := 25.0

  /** A per-axis acceleration change above this (and no shake) is a move. */
  const MoveThreshold: real := 5.0

  /** Period of the autonomous-action interval, in milliseconds. */
  const AutonomousInterval: nat := 4000

  /** EXPRESSION_TIMEOUT as written: property name to milliseconds. It has no
      GROWING_SMILE and no SHAKE property. */
  const ExpressionTimeout: map<string, nat> :=
    map[
      "SQUINT" := 300,
      "BLINK" := 150,
      "LOOK" := 1000,
      "DIZZY" := 1500,
      "ANGRY" := 2000,
      "HAPPY" := 2500,
      "SCARED" := 1000,
      "NODDING" := 1500
    ]

  /** The properties of the table that the face engine reads. */
  const KeysRead: set<string> :=
    {"SQUINT", "BLINK", "LOOK", "DIZZY", "ANGRY", "HAPPY", "GROWING_SMILE", "SHAKE"}

  /** The table with the two entries the engine reads but the source never defines:
      a growing smile lasts as long as a happy face, a shake as long as a squint. */
  const CorrectedTimeout: map<string, nat> :=
    ExpressionTimeout["GROWING_SMILE" := 2500]["SHAKE" := 300]

  /** A table every key of which that the engine reads is present and positive. */
  ghost predicate WellFormed(table: map<string, nat>)
  {
    forall k :: k in KeysRead ==> k in table && table[k] > 0
  }

  function Sum(table: map<string, nat>, keys: seq<string>): nat
    requires forall k :: k in keys ==> k in table
  {
    if keys == [] then 0 else Sum(table, keys[..|keys| - 1]) + table[keys[|keys| - 1]]
  }

  /** The delay a timer really gets when the engine passes the sum of the table
      entries `keys`: a missing property reads as undefined, a sum with undefined is
      NaN, and a timer treats both as 0 ms. */
  function TimerDelay(table: map<string, nat>, keys: seq<string>): nat
  {
    if forall k :: k in keys ==> k in table then Sum(table, keys) else 0
  }

  /** With every key present, adding one more step makes the cumulative delay
      strictly larger when that step's duration is positive. */
  lemma {:induction false} CumulativeDelayGrows(table: map<string, nat>, keys: seq<string>, k: string)
    requires forall j :: j in keys ==> j in table
    requires k in table && table[k] > 0
    ensures TimerDelay(table, keys + [k]) == TimerDelay(table, keys) + table[k]
    ensures TimerDelay(table, keys) < TimerDelay(table, keys + [k])
  {
    var ks := keys + [k];
    assert ks[..|ks| - 1] == keys;
    assert forall j :: j in ks ==> j in table;
  }

  /** A single present key gives its own entry. */
  lemma {:induction false} SingleDelay(table: map<string, nat>, k: string)
    requires k in table
    ensures TimerDelay(table, [k]) == table[k]
  {
    assert forall j :: j in [k] ==> j in table;
    assert [k][..0] == [];
    assert Sum(table, [k]) == Sum(table, []) + table[k];
  }

  /** A key missing from the table makes any sum that reads it 0 ms. */
  lemma {:induction false} MissingDelay(table: map<string, nat>, keys: seq<string>, k: string)
    requires k in keys && k !in table
    ensures TimerDelay(table, keys) == 0
  {
  }

  /** The move threshold is strictly below the shake threshold. */
  lemma ThresholdsOrdered()
    ensures 0.0 < MoveThreshold < ShakeThreshold
  {
  }

  /** The literal table: every defined entry is positive, the two entries the
      engine reads for GROWING_SMILE and SHAKE are absent, the shake chain returns
      to neutral after DIZZY + ANGRY = 3500 ms, and a squint lasts 300 ms. */
  lemma LiteralTableFacts()
    ensures forall k :: k in ExpressionTimeout ==> ExpressionTimeout[k] > 0
    ensures "GROWING_SMILE" !in ExpressionTimeout && "SHAKE" !in ExpressionTimeout
    ensures ExpressionTimeout["DIZZY"] + ExpressionTimeout["ANGRY"] == 3500
    ensures ExpressionTimeout["SQUINT"] == 300
    ensures AutonomousInterval == 4000
  {
  }

  /** The literal table does not meet the hypothesis the sequencing properties
      need; the corrected one does. */
  lemma TablesWellFormedness()
    ensures !WellFormed(ExpressionTimeout)
    ensures WellFormed(CorrectedTimeout)
  {
    assert "SHAKE" in KeysRead && "SHAKE" !in ExpressionTimeout;
  }

  /** As written, the delays of the growing smile and of the two later steps of
      the happy script are all 0 ms, while the first step waits 300 ms. */
  lemma {:induction false} LiteralDelays()
    ensures TimerDelay(ExpressionTimeout, ["GROWING_SMILE"]) == 0
    ensures TimerDelay(ExpressionTimeout, ["SQUINT"]) == 300
    ensures TimerDelay(ExpressionTimeout, ["SQUINT", "SHAKE"]) == 0
    ensures TimerDelay(ExpressionTimeout, ["SQUINT", "SHAKE", "HAPPY"]) == 0
  {
    LiteralTableFacts();
    MissingDelay(ExpressionTimeout, ["GROWING_SMILE"], "GROWING_SMILE");
    SingleDelay(ExpressionTimeout, "SQUINT");
    MissingDelay(ExpressionTimeout, ["SQUINT", "SHAKE"], "SHAKE");
    MissingDelay(ExpressionTimeout, ["SQUINT", "SHAKE", "HAPPY"], "SHAKE");
  }
}
