/**
 * The transport the protocol writes through, reduced to what the protocol
 * relies on: whether it is connected, and the messages it has sent.
 */
module Transport {
  import opened Values
  import opened Errors

  const NOT_CONNECTED: string := "Transport not connected"

  class Transport {
    var connected: bool
    /** Every message written out, oldest first. */
    var sent: seq<PhpArray>

    constructor ()
      ensures !connected && sent == []
    {
      connected, sent := false, [];
    }

    /** `connect()`: connecting twice is the same as connecting once. */
    method Connect()
      modifies this
      ensures connected && sent == old(sent)
    {
      if connected {
        return;
      }
      connected := true;
    }

    /** `disconnect()`. */
    method Disconnect()
      modifies this
      ensures !connected && sent == old(sent)
    {
      connected := false;
    }

    /** `isConnected()`. */
    function IsConnected(): (r: bool)
      reads this
      ensures r == connected
    {
      connected
    }

    /** `send($message)`: writes the message, or throws when not connected and writes nothing. */
    method Send(message: PhpArray) returns (r: Outcome<()>)
      modifies this
      ensures connected == old(connected)
      ensures old(connected) ==> r == Ok(()) && sent == old(sent) + [message]
      ensures !old(connected) ==> r == Throw(Exception(RuntimeException, NOT_CONNECTED)) && sent == old(sent)
    {
      if !connected {
        return Throw(Exception(RuntimeException, NOT_CONNECTED));
      }
      sent := sent + [message];
      return Ok(());
    }
  }
}
