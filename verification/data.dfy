/**
 * Value types shared by the server and the client of KtorConnect: the
 * record both sides exchange, the server's log entries, addresses and
 * lifecycle states, WebSocket frames and Android intents.
 */
module Data {

  /** Kotlin's nullable `T?`. */
  datatype Option<+T> = None | Some(value: T) {

    /** The Elvis operator `x ?: default`. */
    function GetOr(default: T): T {
      match this
      case Some(v) => v
      case None => default
    }
  }

  const INT32_MIN: int := -0x8000_0000
  const INT32_MAX: int := 0x7FFF_FFFF

  /** JVM `Int`. */
  newtype int32 = x: int | -0x8000_0000 <= x < 0x8000_0000

  /** JVM `Long`. */
  newtype int64 = x: int | -0x8000_0000_0000_0000 <= x < 0x8000_0000_0000_0000

  /** Two's-complement wrap-around of JVM `Int` arithmetic. */
  function Wrap32(x: int): (r: int32)
    ensures INT32_MIN <= x <= INT32_MAX ==> r as int == x
    ensures (x - r as int) % 0x1_0000_0000 == 0
  {
    ((x - INT32_MIN) % 0x1_0000_0000 + INT32_MIN) as int32
  }

  /**
   * A JVM `Double`, carried as its IEEE 754 bit pattern and never
   * interpreted: no operation of the model does arithmetic on it.
   */
  datatype Float64 = Float64(bits: bv64)

  /** `SampleData`: the unit of application data, identified by `id`. */
  datatype Record = Record(id: int32, name: string, value: Float64, timestamp: int64)

  /** One line of the server log; `isError` marks failures. */
  datatype LogEntry = LogEntry(message: string, isError: bool)

  /** An address the server can be reached at, shown to the user. */
  datatype ServerAddress = ServerAddress(ip: string, isLocalNetwork: bool)

  /** The emulator's alias for the host machine, always listed first. */
  const LOCALHOST: ServerAddress := ServerAddress("10.0.2.2", true)

  /** Lifecycle state of the server, in declaration (ordinal) order. */
  datatype ServerStatus = STOPPED | STARTING | RUNNING | STOPPING | ERROR

  /** A WebSocket frame (section 5.6 of RFC 6455 for text, 5.5 for control). */
  datatype Frame = Text(text: string) | Binary(data: seq<bv8>) | Close | Ping | Pong

  /** An Android intent: an optional action and `Int` extras. */
  datatype Intent = Intent(action: Option<string>, extras: map<string, int32>) {

    /** `getIntExtra(name, default)`. */
    function IntExtra(name: string, default: int32): int32 {
      if name in extras then extras[name] else default
    }
  }
}
