/** The two dictionaries that remoteunit/main.py creates and hands by reference to the
    MQTT manager (which writes them from the network thread) and to every page (which reads
    them and lowers the flags): `samples` and `newData`. */
module Shared {

  /** `samples[signal]`, the inner dictionary `{'new': [...], 'old': [...]}`: the latest
      packet received for the signal and the one before it. */
  datatype Packets = Packets(latest: seq<int>, previous: seq<int>)

  /** A snapshot of both dictionaries. */
  datatype Buffers = Buffers(samples: map<string, Packets>, newData: map<string, bool>)

  /** Every signal's two packets hold exactly its configured packet size of samples. */
  ghost predicate Shaped(b: Buffers, packetSizes: map<string, int>) {
    forall s :: s in b.samples ==>
      s in packetSizes && |b.samples[s].latest| == packetSizes[s] && |b.samples[s].previous| == packetSizes[s]
  }

  /** The shared dictionaries themselves: one object, mutated in place by its holders. */
  class SharedData {
    var samples: map<string, Packets>
    var newData: map<string, bool>

    function Snapshot(): Buffers
      reads this
    {
      Buffers(samples, newData)
    }

    constructor (b: Buffers)
      ensures Snapshot() == b
    {
      samples := b.samples;
      newData := b.newData;
    }
  }
}
