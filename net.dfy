/** The LiteNetLib peer, seen only through what the modelled code reads and
    changes: its id, its connection state, its `Tag` and the data it was
    disconnected with. The library itself is not part of this model. */
module Net {
  import opened Wrappers
  import opened Wire

  /** The LiteNetLib connection states the modelled code distinguishes. */
  datatype ConnectionState = Outgoing | Connected | ShutdownRequested | Disconnected

  class Peer {
    const id: Int32
    var state: ConnectionState
    /** Whether `Tag` holds a network entity. */
    var tagged: bool
    /** The reason passed to the last `Disconnect`, if any was made. */
    var disconnectReason: Option<string>

    constructor(id: Int32, state: ConnectionState)
      ensures this.id == id && this.state == state
      ensures !tagged && disconnectReason == None
    {
      this.id := id;
      this.state := state;
      tagged := false;
      disconnectReason := None;
    }

    /** `Disconnect(data)`: the peer ends up disconnected, remembering the reason
        (the empty string for `Disconnect()` without data). */
    method Disconnect(reason: string)
      modifies this`state, this`disconnectReason
      ensures state == Disconnected && disconnectReason == Some(reason)
    {
      state := Disconnected;
      disconnectReason := Some(reason);
    }
  }
}
