/** The six one-byte bit-flag sets of the chip. Each wraps the raw byte as
    read (`from_bits_retain`): bits without a name are kept, never masked
    away, and sets are combined only bitwise. */
module Flags {

  /** Commands written to register 0x04. STANDALONE (a.k.a. warm boot)
      switches the chip's bus interface off until power is cycled. */
  datatype Commands = Commands(bits: bv8) {
    static const ATI_CH0 := Commands(0x80)
    static const DISABLE_SENSING := Commands(0x40)
    static const ENABLE_SENSING := Commands(0x20)
    static const TOGGLE_AC_FILTER := Commands(0x10)
    static const RESERVED1 := Commands(0x08)
    static const TOGGLE_ULP_MODE := Commands(0x04)
    static const RESERVED2 := Commands(0x02)
    static const STANDALONE := Commands(0x01)

    /** Every bit set in `other` is set in this set: adding `other` changes nothing. */
    predicate Contains(other: Commands)
      ensures Contains(other) <==> bits | other.bits == bits
    {
      bits & other.bits == other.bits
    }
  }

  /** The status byte the chip returns with every register read. */
  datatype MainEvents = MainEvents(bits: bv8) {
    static const SENSING_DISABLED := MainEvents(0x20)
    static const WARM_BOOT := MainEvents(0x10)
    static const COLD_BOOT := MainEvents(0x08)
    static const RELEASE := MainEvents(0x04)
    static const TOUCH := MainEvents(0x02)
    static const PROX := MainEvents(0x01)

    /** Every bit set in `other` is set in this set. */
    predicate Contains(other: MainEvents) {
      bits & other.bits == other.bits
    }

    /** Bitwise union: the smallest set containing both. */
    function Union(other: MainEvents): (u: MainEvents)
      ensures u.Contains(this) && u.Contains(other)
      ensures u.bits & !bits & !other.bits == 0
    {
      MainEvents(bits | other.bits)
    }
  }

  /** Contents of the DebugEvents register (0x02). */
  datatype DebugEvents = DebugEvents(bits: bv8) {
    static const RESERVED1 := DebugEvents(0x80)
    static const ATI_ERROR := DebugEvents(0x40)
    static const CH0_ATI := DebugEvents(0x20)
    static const RESERVED2 := DebugEvents(0x10)
    static const QUICK_RELEASE := DebugEvents(0x08)
    static const EXIT_MOV_DETECT := DebugEvents(0x04)
    static const ENTER_MOV_DETECT := DebugEvents(0x02)
    static const MOVEMENT := DebugEvents(0x01)
  }

  /** Contents of the System_Flags register (0x11). */
  datatype SystemFlags = SystemFlags(bits: bv8) {
    static const I2C := SystemFlags(0x80)
    static const TEMP := SystemFlags(0x40)
    static const CH0_ACTIVE := SystemFlags(0x20)
    static const CURRENT_CH := SystemFlags(0x10)
    static const NO_SYNC := SystemFlags(0x08)
    static const CH0_LTA_HALTED := SystemFlags(0x04)
    static const ATI_MODE := SystemFlags(0x02)
    static const ZOOM_MODE := SystemFlags(0x01)
  }

  /** Contents of the UI_Flags register (0x12). */
  datatype UiFlags = UiFlags(bits: bv8) {
    static const TEMP_CHANNEL_ATI := UiFlags(0x80)
    static const TEMPERATURE_RESEED := UiFlags(0x40)
    static const RESERVED2 := UiFlags(0x20)
    static const UI_AUTO_ATI_OFF := UiFlags(0x10)
    static const UI_SENSING_DISABLD := UiFlags(0x08)
    static const QUICK_RELEASE := UiFlags(0x04)
    static const RESERVED1 := UiFlags(0x02)
    static const OUTPUT_ACTIVE := UiFlags(0x01)
  }

  /** Contents of the EventFlags register (0x14). */
  datatype EventFlags = EventFlags(bits: bv8) {
    static const CH1_ATI_ERROR := EventFlags(0x80)
    static const RESERVED2 := EventFlags(0x40)
    static const RESERVED1 := EventFlags(0x20)
    static const CH1_MOVEMENT := EventFlags(0x10)
    static const CH0_ATI_ERROR := EventFlags(0x08)
    static const CH0_UNDEBOUNCED := EventFlags(0x04)
    static const CH0_TOUCH := EventFlags(0x02)
    static const CH0_PROX := EventFlags(0x01)
  }

  /** The union is the smallest set holding both: any set that contains
      both operands contains their union. */
  lemma UnionIsLeast(a: MainEvents, b: MainEvents, c: MainEvents)
    requires c.Contains(a) && c.Contains(b)
    ensures c.Contains(a.Union(b))
  {
  }

  /** Sending `c` through the generic command path would switch the bus off
      exactly when its lowest bit is set, whatever the other bits are. */
  lemma StandaloneIsBitZero(c: Commands)
    ensures c.Contains(Commands.STANDALONE) <==> c.bits & 0x01 == 0x01
  {
  }
}
