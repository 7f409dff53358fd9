/** The telemetry packet: a fixed source identifier and the latest sample. */
module Telemetry {

  /** The identifier every packet carries. */
  const SourceId: int := 11

  datatype Packet = Packet(id: int, x: int, y: int, z: int)

  /** The three readings a packet carries. */
  function Payload(p: Packet): seq<int> {
    [p.x, p.y, p.z]
  }

  /** The packet built from the shared three-slot buffer. */
  function MakePacket(buffer: seq<int>): (p: Packet)
    requires |buffer| == 3
    ensures p.id == SourceId && Payload(p) == buffer
  {
    Packet(SourceId, buffer[0], buffer[1], buffer[2])
  }

  /** The packet setup sends once before it launches the tasks. */
  const TestPacket: Packet := Packet(SourceId, 5, 5, 5)
}
