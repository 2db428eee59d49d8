/** A stand-in for the two-wire (I2C) transport the driver is generic over.
    It records every transaction issued, answers reads from a scripted queue
    of response bytes, and fails the transactions it is told to fail. */
module Bus {

  /** The transport's own error; the driver wraps it and never looks inside. */
  datatype BusError = BusError(code: nat)

  /** One transaction as issued on the bus, addressed to a 7-bit device address. */
  datatype Transaction =
    | Read(device: bv8, len: nat)                          // read `len` bytes
    | Write(device: bv8, bytes: seq<bv8>)                  // write `bytes`
    | WriteRead(device: bv8, bytes: seq<bv8>, len: nat)    // write `bytes`, then read `len` bytes
  {
    /** Number of bytes the transaction reads back. */
    function ReadLen(): nat {
      match this
      case Read(_, n) => n
      case Write(_, _) => 0
      case WriteRead(_, _, n) => n
    }
  }

  /** How a transaction ended: the bytes it read back, or the transport error. */
  datatype TxResult = Done(received: seq<bv8>) | Failed(error: BusError)

  /** The observable state of the stub bus:
      the transactions issued so far, the response bytes not yet consumed,
      and the scripted faults, keyed by the index the failing transaction
      will have in the log. */
  datatype BusState = BusState(log: seq<Transaction>, script: seq<bv8>, faults: map<nat, BusError>)

  /** A result together with the bus state after producing it. */
  datatype Step<+T> = Step(result: T, bus: BusState)

  /** The `n` bytes a read takes from `script`; past the end of the script the bus reads 0x00. */
  function Received(script: seq<bv8>, n: nat): (rx: seq<bv8>)
    ensures |rx| == n
    ensures forall k :: 0 <= k < n && k < |script| ==> rx[k] == script[k]
    ensures forall k :: |script| <= k < n ==> rx[k] == 0
  {
    seq(n, k requires 0 <= k < n => if k < |script| then script[k] else 0)
  }

  /** What is left of `script` after a read of `n` bytes. */
  function Remaining(script: seq<bv8>, n: nat): seq<bv8> {
    if n <= |script| then script[n..] else []
  }

  /** Reading `n` bytes and then `m` more takes the same bytes, and leaves the
      same script, as reading `n + m` bytes at once. */
  lemma ReceivedThenReceived(script: seq<bv8>, n: nat, m: nat)
    ensures Received(script, n) + Received(Remaining(script, n), m) == Received(script, n + m)
    ensures Remaining(Remaining(script, n), m) == Remaining(script, n + m)
  {
  }

  /** The effect of issuing transaction `t` in state `s`: it is always logged;
      a scripted fault makes it fail without consuming any response byte;
      otherwise it reads its bytes from the front of the script. */
  function Transact(s: BusState, t: Transaction): Step<TxResult> {
    var logged := s.(log := s.log + [t]);
    if |s.log| in s.faults then
      Step(Failed(s.faults[|s.log|]), logged)
    else
      Step(Done(Received(s.script, t.ReadLen())), logged.(script := Remaining(s.script, t.ReadLen())))
  }

  /** The stub bus object the device handle owns. */
  class I2cBus {
    var log: seq<Transaction>
    var script: seq<bv8>
    var faults: map<nat, BusError>

    constructor (script: seq<bv8>, faults: map<nat, BusError>)
      ensures State() == BusState([], script, faults)
    {
      this.log := [];
      this.script := script;
      this.faults := faults;
    }

    function State(): BusState
      reads this
    {
      BusState(log, script, faults)
    }

    /** Issues a write of `bytes` to `device`. */
    method Write(device: bv8, bytes: seq<bv8>) returns (r: TxResult)
      modifies this
      ensures Step(r, State()) == Transact(old(State()), Transaction.Write(device, bytes))
    {
      var faulty := |log| in faults;
      if faulty {
        r := Failed(faults[|log|]);
      } else {
        r := Done([]);
      }
      log := log + [Transaction.Write(device, bytes)];
    }

    /** Fills `buf` in place with the next response bytes, or leaves it alone if the transaction fails. */
    method Fill(buf: array<bv8>, t: Transaction) returns (r: TxResult)
      requires t.ReadLen() == buf.Length
      modifies this, buf
      ensures Step(r, State()) == Transact(old(State()), t)
      ensures r.Done? ==> buf[..] == r.received
      ensures r.Failed? ==> buf[..] == old(buf[..])
    {
      if |log| in faults {
        r := Failed(faults[|log|]);
      } else {
        var rx := Received(script, buf.Length);
        forall k | 0 <= k < buf.Length {
          buf[k] := rx[k];
        }
        r := Done(rx);
        script := Remaining(script, buf.Length);
      }
      log := log + [t];
    }

    /** Issues a read of `buf.Length` bytes from `device` into `buf`. */
    method Read(device: bv8, buf: array<bv8>) returns (r: TxResult)
      modifies this, buf
      ensures Step(r, State()) == Transact(old(State()), Transaction.Read(device, buf.Length))
      ensures r.Done? ==> buf[..] == r.received
      ensures r.Failed? ==> buf[..] == old(buf[..])
    {
      r := Fill(buf, Transaction.Read(device, buf.Length));
    }

    /** Writes `bytes` to `device`, then reads `buf.Length` bytes into `buf`. */
    method WriteRead(device: bv8, bytes: seq<bv8>, buf: array<bv8>) returns (r: TxResult)
      modifies this, buf
      ensures Step(r, State()) == Transact(old(State()), Transaction.WriteRead(device, bytes, buf.Length))
      ensures r.Done? ==> buf[..] == r.received
      ensures r.Failed? ==> buf[..] == old(buf[..])
    {
      r := Fill(buf, Transaction.WriteRead(device, bytes, buf.Length));
    }
  }
}
