/** Searches over the retrieved database, and the notification request built on one. */
module GattSearch {
  import opened Types
  import opened Gatt

  /** `memcmp` over the first `len` bytes. */
  predicate Matches(c: Characteristic, uuid: Uuid, len: nat): (m: bool)
    requires len <= 16
    ensures m <==> forall i :: 0 <= i < len ==> c.uuid[i] == uuid[i]
  {
    c.uuid[..len] == uuid[..len]
  }

  /** Position (a, b) comes before (i, j): services first, then characteristics. */
  predicate Earlier(a: nat, b: nat, i: nat, j: nat) {
    a < i || (a == i && b < j)
  }

  /** The service and characteristic index of the first characteristic, in traversal
      order, whose UUID starts as asked; None exactly when there is none. */
  method FindCharRec(services: Option<GattDb>, noSvcs: nat, uuid: Uuid, uuidLen: nat)
    returns (found: Option<(nat, nat)>)
    requires uuidLen <= 16
    requires services.Some? ==> noSvcs <= |services.value|
    ensures services.None? ==> found.None?
    ensures services.Some? && found.Some? ==>
              var (i, j) := found.value;
              && i < noSvcs && j < |services.value[i].characteristics|
              && Matches(services.value[i].characteristics[j], uuid, uuidLen)
              && forall a: nat, b: nat :: Earlier(a, b, i, j) && b < |services.value[a].characteristics| ==>
                   !Matches(services.value[a].characteristics[b], uuid, uuidLen)
    ensures services.Some? && found.None? ==>
              forall a: nat, b: nat :: a < noSvcs && b < |services.value[a].characteristics| ==>
                !Matches(services.value[a].characteristics[b], uuid, uuidLen)
  {
    if services.None? {
      return None;
    }
    for i := 0 to noSvcs
      invariant forall a: nat, b: nat :: a < i && b < |services.value[a].characteristics| ==>
        !Matches(services.value[a].characteristics[b], uuid, uuidLen)
    {
      var chars := services.value[i].characteristics;
      for j := 0 to |chars|
        invariant forall b: nat :: b < j ==> !Matches(chars[b], uuid, uuidLen)
      {
        if Matches(chars[j], uuid, uuidLen) {
          return Some((i, j));
        }
      }
    }
    return None;
  }

  // ----- enabling notifications

  predicate IsCccd(d: Descriptor): (b: bool)
    ensures b <==> d.isNotify && d.isSet
  {
    d.isSet && d.isNotify
  }

  /** A descriptor write as it is handed to `bleWriteDescriptor`; a response is required. */
  datatype WriteRequest = WriteRequest(handle: nat, data: seq<byte>, offset: nat)

  /** The configuration value in a two-byte little-endian field (Bluetooth Core
      Specification, Volume 3, Part G, section 3.3.3.3: bit 0 enables notifications). */
  function ConfigurationValue(data: seq<byte>): nat
    requires |data| == 2
  {
    data[0] as nat + 256 * data[1] as nat
  }

  function LittleEndian16(v: nat): (r: seq<byte>)
    requires v < 0x1_0000
    ensures |r| == 2 && ConfigurationValue(r) == v
  {
    [(v % 256) as byte, (v / 256) as byte]
  }

  /** `pre5170_bleSetNotification`. `info` and `notify` are what the session lookup
      and the notify request answer, `memory` whether the two bytes could be
      memory, `write` how the descriptor write answers. */
  method SetNotification(info: Status, notify: Status, descriptors: seq<Descriptor>, enable: bool, memory: bool,
                         write: WriteRequest -> Status)
    returns (status: Status, attempted: Option<WriteRequest>)
    ensures info != Ok ==> status == BadParam && attempted.None?
    ensures info == Ok && notify != Ok ==> status == notify && attempted.None?
    ensures info == Ok && notify == Ok && (forall d :: d in descriptors ==> !IsCccd(d)) ==>
              status == BadParam && attempted.None?
    ensures info == Ok && notify == Ok && (exists d :: d in descriptors && IsCccd(d)) && !memory ==>
              status == OutOfMemory && attempted.None?
    ensures attempted.Some? <==>
              info == Ok && notify == Ok && memory && exists d :: d in descriptors && IsCccd(d)
    ensures attempted.Some? ==>
              && status == write(attempted.value)
              && attempted.value.offset == 0 && |attempted.value.data| == 2
              && ConfigurationValue(attempted.value.data) == (if enable then 1 else 0)
              && attempted.value.data == [if enable then 1 else 0, 0]
              && exists k :: 0 <= k < |descriptors| && IsCccd(descriptors[k])
                   && attempted.value.handle == descriptors[k].handle
                   && forall j :: 0 <= j < k ==> !IsCccd(descriptors[j])
  {
    attempted := None;
    if info != Ok {
      return BadParam, None;
    }
    if notify != Ok {
      return notify, None;
    }
    var k := 0;
    while k < |descriptors| && !IsCccd(descriptors[k])
      invariant k <= |descriptors|
      invariant forall j :: 0 <= j < k ==> !IsCccd(descriptors[j])
    {
      k := k + 1;
    }
    if k == |descriptors| {
      return BadParam, None;
    }
    assert descriptors[k] in descriptors;
    if !memory {
      return OutOfMemory, None;
    }
    var request := WriteRequest(descriptors[k].handle, LittleEndian16(if enable then 1 else 0), 0);
    status := write(request);
    attempted := Some(request);
  }
}
