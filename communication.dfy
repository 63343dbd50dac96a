/** The receiving side of the MQTT link (remoteunit/communication.py): decoding a data
    payload into 16-bit samples and the handler that stores it in the shared buffers. */
module Communication {
  import opened Python
  import opened Shared
  import Settings

  type Byte = b: int | 0 <= b < 256

  function Pow256(n: nat): (r: nat)
    ensures r >= 1
  {
    if n == 0 then 1 else 256 * Pow256(n - 1)
  }

  /** The unsigned value of `bs` read most significant byte first. */
  function BigEndian(bs: seq<Byte>): (r: nat)
    ensures r < Pow256(|bs|)
  {
    if bs == [] then 0
    else
      var high := BigEndian(bs[..|bs| - 1]);
      assert high <= Pow256(|bs| - 1) - 1;
      high * 256 + bs[|bs| - 1]
  }

  /** Python's `int.from_bytes(bs, byteorder='big', signed=signed)`. */
  function FromBytes(bs: seq<Byte>, signed: bool): (r: int)
    ensures !signed ==> 0 <= r < Pow256(|bs|)
    ensures signed && bs != [] ==> -128 * Pow256(|bs| - 1) <= r < 128 * Pow256(|bs| - 1)
  {
    var u := BigEndian(bs);
    if signed && bs != [] && u >= 128 * Pow256(|bs| - 1) then u - Pow256(|bs|) else u
  }

  /** The reference reading of one 16-bit big-endian word: `hi` is the high byte, and a
      signed word is two's complement. */
  function Word(hi: Byte, lo: Byte, signed: bool): (r: int)
    ensures !signed ==> 0 <= r <= 65535
    ensures signed ==> -32768 <= r <= 32767
  {
    var u := 256 * hi + lo;
    if signed && u >= 32768 then u - 65536 else u
  }

  /** The reference reading of a lone byte, two's complement when signed. */
  function Octet(b: Byte, signed: bool): (r: int)
    ensures !signed ==> 0 <= r <= 255
    ensures signed ==> -128 <= r <= 127
  {
    if signed && b >= 128 then b - 256 else b
  }

  lemma FromTwoBytes(hi: Byte, lo: Byte, signed: bool)
    ensures FromBytes([hi, lo], signed) == Word(hi, lo, signed)
  {
    assert [hi, lo][..1] == [hi];
    assert [hi][..0] == [];
    assert BigEndian([hi]) == hi;
    assert BigEndian([hi, lo]) == 256 * hi + lo;
    assert Pow256(1) == 256 && Pow256(2) == 65536;
  }

  lemma FromOneByte(b: Byte, signed: bool)
    ensures FromBytes([b], signed) == Octet(b, signed)
  {
    assert [b][..0] == [];
    assert Pow256(1) == 256;
  }

  /** `payloadToList`: the payload cut into consecutive byte pairs, each read as a
      big-endian integer; an odd trailing byte is read on its own. */
  function PayloadToList(pl: seq<Byte>, signed: bool): (r: seq<int>)
    ensures |pl| <= 2 * |r| <= |pl| + 1
    ensures forall i :: 0 <= i && 2 * i + 1 < |pl| ==> r[i] == Word(pl[2 * i], pl[2 * i + 1], signed)
    ensures 2 * |r| == |pl| + 1 ==> r[|r| - 1] == Octet(pl[|pl| - 1], signed)
    ensures forall i :: 0 <= i < |r| ==> InRange16(r[i], signed)
    decreases |pl|
  {
    if pl == [] then []
    else if |pl| == 1 then
      FromOneByte(pl[0], signed);
      assert pl == [pl[0]];
      [FromBytes(pl, signed)]
    else
      FromTwoBytes(pl[0], pl[1], signed);
      assert pl[..2] == [pl[0], pl[1]];
      var rest := PayloadToList(pl[2..], signed);
      [FromBytes(pl[..2], signed)] + rest
  }

  /** Whether `v` fits a 16-bit word of the given signedness. */
  predicate InRange16(v: int, signed: bool) {
    if signed then -32768 <= v <= 32767 else 0 <= v <= 65535
  }

  /** The signed reading of a payload is the two's complement of its unsigned reading:
      an element is its unsigned value, less 65536 (256 for a lone byte) when that value
      has its top bit set. */
  lemma SignedFromUnsigned(pl: seq<Byte>, i: nat)
    requires i < |PayloadToList(pl, false)|
    ensures var u := PayloadToList(pl, false)[i];
      var top := if 2 * i + 1 < |pl| then 65536 else 256;
      i < |PayloadToList(pl, true)| &&
      PayloadToList(pl, true)[i] == if 2 * u >= top then u - top else u
  {
    if 2 * i + 1 >= |pl| {
      assert 2 * |PayloadToList(pl, false)| == |pl| + 1;
    }
  }

  /** Two big-endian bytes that read back as `v`. */
  function EncodeWord(v: int, signed: bool): (bs: seq<Byte>)
    requires InRange16(v, signed)
    ensures |bs| == 2 && Word(bs[0], bs[1], signed) == v
  {
    var u := if v < 0 then v + 65536 else v;
    [u / 256, u % 256]
  }

  /** The packed payload a sender produces for a list of 16-bit samples. */
  function Encode(vs: seq<int>, signed: bool): (pl: seq<Byte>)
    requires forall i :: 0 <= i < |vs| ==> InRange16(vs[i], signed)
    ensures |pl| == 2 * |vs|
  {
    if vs == [] then [] else EncodeWord(vs[0], signed) + Encode(vs[1..], signed)
  }

  /** Decoding a packed list of in-range samples with the same signedness returns the list. */
  lemma {:induction false} DecodeEncode(vs: seq<int>, signed: bool)
    requires forall i :: 0 <= i < |vs| ==> InRange16(vs[i], signed)
    ensures PayloadToList(Encode(vs, signed), signed) == vs
  {
    if vs != [] {
      var pl := Encode(vs, signed);
      var w := EncodeWord(vs[0], signed);
      assert pl == w + Encode(vs[1..], signed);
      assert pl[2..] == Encode(vs[1..], signed);
      DecodeEncode(vs[1..], signed);
      assert PayloadToList(pl, signed)[0] == Word(pl[0], pl[1], signed) == vs[0];
    }
  }

  lemma WordEncodes(hi: Byte, lo: Byte, signed: bool)
    ensures EncodeWord(Word(hi, lo, signed), signed) == [hi, lo]
  {
  }

  /** Re-packing a decoded even-length payload gives back its bytes. */
  lemma {:induction false} EncodeDecode(pl: seq<Byte>, signed: bool)
    requires |pl| % 2 == 0
    ensures Encode(PayloadToList(pl, signed), signed) == pl
  {
    if pl != [] {
      var r := PayloadToList(pl, signed);
      EncodeDecode(pl[2..], signed);
      assert r[1..] == PayloadToList(pl[2..], signed);
      WordEncodes(pl[0], pl[1], signed);
      assert pl == [pl[0], pl[1]] + pl[2..];
    }
  }

  /** The signal a data message belongs to: its topic without the topic prefix. */
  function SignalName(topic: string, prefix: string): (s: string)
    ensures prefix <= topic ==> prefix + s == topic
    ensures !(prefix <= topic) ==> s == topic
  {
    RemovePrefix(topic, prefix)
  }

  /** Every topic derived from a settings table names, once its prefix is removed,
      the signal it was derived from. */
  lemma {:induction false} DerivedTopicNamesSignal(prefix: string, t: Settings.Table, i: nat)
    requires i < |t|
    ensures SignalName(Settings.MqttTopics(prefix, t)[i], prefix) == t[i].0
  {
    var topic := Settings.MqttTopics(prefix, t)[i];
    assert prefix <= topic && topic[|prefix|..] == t[i].0;
  }

  /** The effect of `_onDataMessage` on a snapshot of the shared buffers; `None` is the
      `KeyError` raised, before anything changes, when the signal has no `samples` entry. */
  function Receive(b: Buffers, prefix: string, topic: string, payload: seq<Byte>, signedSignals: set<string>): (r: Option<Buffers>)
    ensures var s := SignalName(topic, prefix);
      (r.Some? <==> s in b.samples) &&
      (r.Some? ==>
        r.value.samples.Keys == b.samples.Keys &&
        r.value.samples[s].previous == b.samples[s].latest &&
        r.value.samples[s].latest == PayloadToList(payload, s in signedSignals) &&
        (forall t :: t in b.samples && t != s ==> r.value.samples[t] == b.samples[t]) &&
        r.value.newData.Keys == b.newData.Keys + {s} &&
        r.value.newData[s] &&
        (forall t :: t in b.newData && t != s ==> r.value.newData[t] == b.newData[t]))
  {
    var s := SignalName(topic, prefix);
    if s !in b.samples then None
    else
      var rotated := b.samples[s := Packets(b.samples[s].latest, b.samples[s].latest)];
      var stored := rotated[s := rotated[s].(latest := PayloadToList(payload, s in signedSignals))];
      Some(Buffers(stored, b.newData[s := true]))
  }

  /** A payload of two bytes per configured sample keeps every packet at its
      configured size. */
  lemma ReceiveKeepsShape(b: Buffers, prefix: string, topic: string, payload: seq<Byte>,
                          signedSignals: set<string>, packetSizes: map<string, int>)
    requires Shaped(b, packetSizes)
    requires SignalName(topic, prefix) in packetSizes
    requires |payload| == 2 * packetSizes[SignalName(topic, prefix)]
    ensures Receive(b, prefix, topic, payload, signedSignals).Some? ==>
              Shaped(Receive(b, prefix, topic, payload, signedSignals).value, packetSizes)
  {
  }

  /** `MQTTManager`: the proxy that owns the MQTT client and writes the shared buffers. */
  class MQTTManager {
    const data: SharedData
    /** `cfg.MQTT_TOPIC_PREFIX` */
    const prefix: string
    /** `cfg.SIGNED_BIOSIGNALS`: the signals whose samples are two's complement. */
    const signedSignals: set<string>

    constructor (data: SharedData, prefix: string, signedSignals: set<string>)
      ensures this.data == data && this.prefix == prefix && this.signedSignals == signedSignals
    {
      this.data := data;
      this.prefix := prefix;
      this.signedSignals := signedSignals;
    }

    /** `_onDataMessage`; `ok` is false when it raises `KeyError`. */
    method OnDataMessage(topic: string, payload: seq<Byte>) returns (ok: bool)
      modifies data
      ensures var r := Receive(old(data.Snapshot()), prefix, topic, payload, signedSignals);
        ok == r.Some? && data.Snapshot() == if ok then r.value else old(data.Snapshot())
    {
      var s := SignalName(topic, prefix);
      if s !in data.samples {
        return false;
      }
      data.samples := data.samples[s := data.samples[s].(previous := data.samples[s].latest)];
      data.samples := data.samples[s := data.samples[s].(latest := PayloadToList(payload, s in signedSignals))];
      data.newData := data.newData[s := true];
      ok := true;
    }
  }
}
