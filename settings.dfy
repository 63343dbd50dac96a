/** The remote unit's configuration (remoteunit/settings.py): the table of acquired
    biosignals and the tables derived from it. */
module Settings {
  import opened Python

  /** The properties of one biosignal, as written in the configuration table. */
  datatype Props = Props(fsample: real, fpacket: real, overlay: int, npacket: int, priority: int)

  /** A Python dictionary keyed by signal name, in insertion (and iteration) order. */
  type Table = seq<(string, Props)>

  /** A dictionary never holds the same key twice. */
  ghost predicate DistinctKeys(t: Table) {
    forall i, j :: 0 <= i < j < |t| ==> t[i].0 != t[j].0
  }

  function KeySet(t: Table): set<string> {
    set i | 0 <= i < |t| :: t[i].0
  }

  const BIOSIGNALS: Table := [
    ("ECG", Props(10.0, 0.5, 20, 200, 10)),
    ("PPG", Props(300.0, 2.0, 30, 100, 10)),
    ("TMP", Props(0.5, 2.0, 1, 5, 5))
  ]

  const MQTT_TOPIC_PREFIX: string := "signal/"

  /** `[f"{prefix}{biosig}" for biosig in table]`: one topic per signal, in key order. */
  function MqttTopics(prefix: string, t: Table): (r: seq<string>)
    ensures |r| == |t|
    ensures forall i :: 0 <= i < |t| ==> prefix <= r[i] && r[i][|prefix|..] == t[i].0
  {
    if t == [] then []
    else
      assert prefix <= prefix + t[0].0 && (prefix + t[0].0)[|prefix|..] == t[0].0;
      [prefix + t[0].0] + MqttTopics(prefix, t[1..])
  }

  /** `{signal: int(props['overlay']) for signal, props in table.items()}`; a later
      entry for a key overrides an earlier one, as in a dictionary comprehension. */
  function OverlaySizes(t: Table): (m: map<string, int>)
    ensures m.Keys == KeySet(t)
    ensures forall i :: 0 <= i < |t| && (forall j :: i < j < |t| ==> t[j].0 != t[i].0)
              ==> m[t[i].0] == t[i].1.overlay
  {
    if t == [] then map[]
    else
      var init := t[..|t| - 1];
      var last := t[|t| - 1];
      var m := OverlaySizes(init)[last.0 := last.1.overlay];
      assert KeySet(t) == KeySet(init) + {last.0} by {
        forall k | k in KeySet(t) ensures k in KeySet(init) + {last.0} {
          var i :| 0 <= i < |t| && t[i].0 == k;
          if i < |t| - 1 { assert init[i].0 == k; }
        }
        forall k | k in KeySet(init) ensures k in KeySet(t) {
          var i :| 0 <= i < |init| && init[i].0 == k;
          assert t[i].0 == k;
        }
      }
      assert forall i :: 0 <= i < |t| - 1 ==> init[i] == t[i];
      m
  }

  const MQTT_TOPICS: seq<string> := MqttTopics(MQTT_TOPIC_PREFIX, BIOSIGNALS)
  const OVERLAY_SIZES: map<string, int> := OverlaySizes(BIOSIGNALS)

  /** The derived topics of a dictionary are pairwise distinct. */
  lemma TopicsDistinct(prefix: string, t: Table)
    requires DistinctKeys(t)
    ensures forall i, j :: 0 <= i < j < |t| ==> MqttTopics(prefix, t)[i] != MqttTopics(prefix, t)[j]
  {
    var r := MqttTopics(prefix, t);
    forall i, j | 0 <= i < j < |t| ensures r[i] != r[j] {
      assert r[i][|prefix|..] != r[j][|prefix|..];
    }
  }

  /** Each overlay size is the integer `overlay` of the signal it is keyed by. */
  lemma OverlaySizesOfDictionary(t: Table)
    requires DistinctKeys(t)
    ensures OverlaySizes(t).Keys == KeySet(t)
    ensures forall i :: 0 <= i < |t| ==> OverlaySizes(t)[t[i].0] == t[i].1.overlay
  {
  }

  /** The tables the configuration actually derives. */
  lemma ConfiguredTables()
    ensures DistinctKeys(BIOSIGNALS)
    ensures MQTT_TOPICS == ["signal/ECG", "signal/PPG", "signal/TMP"]
    ensures OVERLAY_SIZES == map["ECG" := 20, "PPG" := 30, "TMP" := 1]
  {
    var p := MQTT_TOPIC_PREFIX;
    assert BIOSIGNALS[1..][1..][1..] == [];
    assert MqttTopics(p, BIOSIGNALS[1..][1..]) == [p + "TMP"];
    assert MqttTopics(p, BIOSIGNALS[1..]) == [p + "PPG", p + "TMP"];
    assert MQTT_TOPICS == [p + "ECG", p + "PPG", p + "TMP"];
    assert p + "ECG" == "signal/ECG" && p + "PPG" == "signal/PPG" && p + "TMP" == "signal/TMP";
    assert BIOSIGNALS[..2][..1][..0] == [];
  }
}
