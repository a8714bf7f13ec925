/** The events of bin/simexp/events.hpp. One record serves for every event type; the fields that a type
    does not have keep their default. The slot index of an event is its event_id. */
module Events {

  /** Device::ID; 0 is reserved for "no device". */
  type DeviceId = d: nat | d < 256

  datatype EventType = Invalid | MemoryAccess | Sequence | ClockReceipt | UpdateClockSchedule

  /** static_cast<u8>(Event::Type) */
  function TypeCode(t: EventType): nat {
    match t
    case Invalid => 0
    case MemoryAccess => 1
    case Sequence => 2
    case ClockReceipt => 3
    case UpdateClockSchedule => 4
  }

  const TYPE_COUNT: nat := 5

  /** `buffer` stands for the address of the awaiter's result, which lives in the coroutine frame of a
      CPU: it is the number of that CPU. */
  datatype Event = Event(
    etype: EventType,
    source: DeviceId,
    recurs: bool := false,
    clock: nat := 0,
    address: nat := 0,
    len: nat := 0,
    buffer: nat := 0)
}
