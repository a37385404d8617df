/** Frames as the socketcan binding hands them to an `onMessage` listener. */
module CanFrame {

  /** One payload byte (a Node.js Buffer element). */
  newtype byte = x: int | 0 <= x < 256

  /** A received CAN frame: numeric identifier, payload bytes, data length code,
      extended-frame and remote-request flags. The `ts_sec`/`ts_usec` timestamp
      fields are floating point and are not modelled. */
  datatype Frame = Frame(id: nat, data: seq<byte>, dlc: nat, ext: bool, rtr: bool)
}
