/** The envelope of every register read: the chip answers each read with
    its MainEvents status byte followed by the register's value. */
module RegValues {
  import opened Flags

  datatype RegValue<+T> = RegValue(mainEvents: MainEvents, value: T) {

    /** The events and the payload, as a pair. */
    function Split(): (p: (MainEvents, T))
      ensures RegValue(p.0, p.1) == this
    {
      (mainEvents, value)
    }

    /** Converts the payload and keeps the events of the same transaction. */
    function Map<B>(f: T -> B): (r: RegValue<B>)
      ensures r.mainEvents == mainEvents
      ensures r.Split().1 == f(Split().1)
    {
      RegValue(mainEvents, f(value))
    }
  }

  /** The envelope of the two bytes a register read returns: status byte
      first, register value second. No bit of either byte is dropped. */
  function FromBytes(bytes: seq<bv8>): (rv: RegValue<bv8>)
    requires |bytes| == 2
    ensures [rv.mainEvents.bits, rv.value] == bytes
  {
    RegValue(MainEvents(bytes[0]), bytes[1])
  }

  /** Map respects identity and composition, so decoding a payload in one
      step or two gives the same envelope. */
  lemma MapIdentity<T>(rv: RegValue<T>)
    ensures rv.Map(x => x) == rv
  {
  }

  lemma MapCompose<T, U, V>(rv: RegValue<T>, f: T -> U, g: U -> V)
    ensures rv.Map(f).Map(g) == rv.Map(x => g(f(x)))
  {
  }

  /** The two bytes a read returns can be recovered from the envelope. */
  lemma FromBytesSplit(rv: RegValue<bv8>)
    ensures FromBytes([rv.mainEvents.bits, rv.value]) == rv
  {
  }
}
