/** The part of a retrieved GATT database that the library itself reads. */
module Gatt {
  import opened Types

  /** Sixteen UUID bytes, as in the `uu` member of the source's UUID record. */
  type Uuid = u: seq<byte> | |u| == 16 witness seq(16, i => 0 as byte)

  /** A C `int` or enumeration. */
  type int32 = x: int | -0x8000_0000 <= x < 0x8000_0000

  datatype Descriptor = Descriptor(uuid: Uuid, handle: nat, isSet: bool, isNotify: bool)

  datatype IncludedService = IncludedService(uuid: Uuid, serviceType: int32)

  /** `descriptor` is the characteristic's single descriptor, `descriptors` its list. */
  datatype Characteristic = Characteristic(
    uuid: Uuid,
    descriptor: Descriptor,
    multiDescCount: nat,
    descriptors: seq<Descriptor>)

  datatype Service = Service(
    uuid: Uuid,
    serviceType: int32,
    included: seq<IncludedService>,
    characteristics: seq<Characteristic>)

  type GattDb = seq<Service>
}
