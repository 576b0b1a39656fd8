/** The MySensor GATT service: its identity, its four-attribute table, the
    subscription flag written by the CCC descriptor and the guarded notify
    operation. The Bluetooth host's send is a result code passed in; each send
    it is asked to make is recorded. */
module MySensor {
  import opened CTypes

  /** A 128-bit UUID as a number. */
  datatype Uuid = Uuid128(value: nat)

  /** `BT_UUID_128_ENCODE(w32, w1, w2, w3, w48)`: the five groups of the
      textual form `w32-w1-w2-w3-w48`, most significant first. */
  function Uuid128Encode(w32: nat, w1: nat, w2: nat, w3: nat, w48: nat): (u: Uuid)
    requires w32 < 0x1_0000_0000 && w1 < 0x1_0000 && w2 < 0x1_0000 && w3 < 0x1_0000
    requires w48 < 0x1_0000_0000_0000
    ensures u.value < 0x1_0000_0000_0000_0000_0000_0000_0000_0000
  {
    Uuid128(w32 * 0x1_0000_0000_0000_0000_0000_0000 + w1 * 0x1_0000_0000_0000_0000_0000
      + w2 * 0x1_0000_0000_0000_0000 + w3 * 0x1_0000_0000_0000 + w48)
  }

  /** A number split at a place value: the high part times `base` plus a
      low part below `base` determines both parts. */
  lemma PlaceValueUnique(hi1: nat, lo1: nat, hi2: nat, lo2: nat, base: nat)
    requires lo1 < base && lo2 < base
    requires hi1 * base + lo1 == hi2 * base + lo2
    ensures hi1 == hi2 && lo1 == lo2
  {
    if hi1 < hi2 {
      MulMonotone(hi1 + 1, hi2, base);
      assert false;
    } else if hi2 < hi1 {
      MulMonotone(hi2 + 1, hi1, base);
      assert false;
    }
  }

  lemma MulMonotone(a: nat, b: nat, base: nat)
    requires a <= b
    ensures a * base <= b * base
  {
    assert b * base == a * base + (b - a) * base;
  }

  /** Different groups give different UUIDs: every group can be read back
      from the encoded value. */
  lemma Uuid128EncodeInjective(a32: nat, a1: nat, a2: nat, a3: nat, a48: nat, b32: nat, b1: nat, b2: nat, b3: nat, b48: nat)
    requires a32 < 0x1_0000_0000 && a1 < 0x1_0000 && a2 < 0x1_0000 && a3 < 0x1_0000 && a48 < 0x1_0000_0000_0000
    requires b32 < 0x1_0000_0000 && b1 < 0x1_0000 && b2 < 0x1_0000 && b3 < 0x1_0000 && b48 < 0x1_0000_0000_0000
    requires Uuid128Encode(a32, a1, a2, a3, a48) == Uuid128Encode(b32, b1, b2, b3, b48)
    ensures a32 == b32 && a1 == b1 && a2 == b2 && a3 == b3 && a48 == b48
  {
    var a64 := a3 * 0x1_0000_0000_0000 + a48;
    var b64 := b3 * 0x1_0000_0000_0000 + b48;
    var a80 := a2 * 0x1_0000_0000_0000_0000 + a64;
    var b80 := b2 * 0x1_0000_0000_0000_0000 + b64;
    var a96 := a1 * 0x1_0000_0000_0000_0000_0000 + a80;
    var b96 := b1 * 0x1_0000_0000_0000_0000_0000 + b80;
    PlaceValueUnique(a32, a96, b32, b96, 0x1_0000_0000_0000_0000_0000_0000);
    PlaceValueUnique(a1, a80, b1, b80, 0x1_0000_0000_0000_0000_0000);
    PlaceValueUnique(a2, a64, b2, b64, 0x1_0000_0000_0000_0000);
    PlaceValueUnique(a3, a48, b3, b48, 0x1_0000_0000_0000);
  }

  /** `BT_UUID_MYSENSOR_SERVICE`, 12345678-9abc-def0-1234-56789abcdef0. */
  const ServiceUuid: Uuid := Uuid128Encode(0x12345678, 0x9abc, 0xdef0, 0x1234, 0x56789abcdef0)

  /** `BT_UUID_MYSENSOR_CHARACTERISTIC`, 12345679-9abc-def0-1234-56789abcdef0. */
  const CharacteristicUuid: Uuid := Uuid128Encode(0x12345679, 0x9abc, 0xdef0, 0x1234, 0x56789abcdef0)

  datatype Property = NotifyProperty
  datatype Permission = ReadPermission | WritePermission

  /** The attributes `BT_GATT_SERVICE_DEFINE` lays out. */
  datatype Attribute =
    | PrimaryService(service: Uuid)
    | CharacteristicDeclaration(valueUuid: Uuid, properties: set<Property>)
    | CharacteristicValue(uuid: Uuid, permissions: set<Permission>)
    | ClientConfiguration(permissions: set<Permission>)

  /** `my_sensor_service.attrs`: the primary service, the characteristic
      (a declaration followed by its value attribute, notify only, no client
      access) and its CCC descriptor (readable and writable). */
  const ServiceTable: seq<Attribute> := [
    PrimaryService(ServiceUuid),
    CharacteristicDeclaration(CharacteristicUuid, {NotifyProperty}),
    CharacteristicValue(CharacteristicUuid, {}),
    ClientConfiguration({ReadPermission, WritePermission})
  ]

  /** The attribute notifications are addressed to: `attrs[2]`. */
  const NotifyAttrIndex: nat := 2

  /** `BT_GATT_CCC_NOTIFY`, the "notifications enabled" bit of the Client
      Characteristic Configuration descriptor (Bluetooth Core Specification
      Vol 3, Part G, section 3.3.3.3). */
  const CccNotify: uint16 := 0x0001

  /** Index 2 of the table is the value attribute of the characteristic the
      table declares at index 1, which is notify-only; the CCC descriptor
      follows it. */
  lemma NotifyTargetIsCharacteristicValue()
    ensures |ServiceTable| == 4 && NotifyAttrIndex < |ServiceTable|
    ensures ServiceTable[0] == PrimaryService(ServiceUuid)
    ensures ServiceTable[NotifyAttrIndex].CharacteristicValue?
    ensures ServiceTable[NotifyAttrIndex - 1].CharacteristicDeclaration?
    ensures ServiceTable[NotifyAttrIndex].uuid == ServiceTable[NotifyAttrIndex - 1].valueUuid
    ensures ServiceTable[NotifyAttrIndex - 1].properties == {NotifyProperty}
    ensures ServiceTable[NotifyAttrIndex].permissions == {}
    ensures ServiceTable[NotifyAttrIndex + 1].ClientConfiguration?
    ensures CharacteristicUuid != ServiceUuid
  {
  }

  /** One call the Bluetooth host was asked to make: notify the attribute at
      `attrIndex` of the table with `data`, to every connection (the `NULL`
      connection argument). */
  datatype Send = Send(attrIndex: nat, data: seq<char>)

  /** What `ccc_cfg_changed_handler` makes of the flag when `value` is
      written: the previous state plays no part, and the flag is set exactly
      when the notifications bit (bit 0) is set and every other bit, the
      indications bit included, is clear. */
  function CccStep(enabled: bool, value: uint16): (r: bool)
    ensures r <==> value % 2 == 1 && value / 2 == 0
  {
    value == CccNotify
  }

  /** The flag after replaying a series of CCC writes, in order, onto the
      initial state `enabled`. */
  function Replay(enabled: bool, writes: seq<uint16>): bool
    decreases writes
  {
    if writes == [] then enabled else Replay(CccStep(enabled, writes[0]), writes[1..])
  }

  /** Replaying one more write is one more handler step. */
  lemma {:induction false} ReplayAppend(enabled: bool, writes: seq<uint16>, value: uint16)
    ensures Replay(enabled, writes + [value]) == CccStep(Replay(enabled, writes), value)
    decreases writes
  {
    if writes != [] {
      assert (writes + [value])[1..] == writes[1..] + [value];
      ReplayAppend(CccStep(enabled, writes[0]), writes[1..], value);
    }
  }

  /** Only the most recent write matters: after any history the flag is set
      exactly when the last value written is `CccNotify`. Indications (0x0002)
      and notifications-plus-indications (0x0003) both clear it. */
  lemma {:induction false} LastWriteDecides(enabled: bool, writes: seq<uint16>)
    requires writes != []
    ensures Replay(enabled, writes) <==> writes[|writes| - 1] == CccNotify
    decreases writes
  {
    if |writes| > 1 {
      LastWriteDecides(CccStep(enabled, writes[0]), writes[1..]);
    }
  }

  /** Disabling (0x0000), indications (0x0002) and notifications together
      with indications (0x0003) all leave the central unsubscribed, whatever
      came before. */
  lemma OnlyNotifyValueSubscribes(writes: seq<uint16>)
    ensures Replay(false, writes + [CccNotify])
    ensures !Replay(false, writes + [0x0000])
    ensures !Replay(false, writes + [0x0002])
    ensures !Replay(false, writes + [0x0003])
  {
    LastWriteDecides(false, writes + [CccNotify]);
    LastWriteDecides(false, writes + [0x0000]);
    LastWriteDecides(false, writes + [0x0002]);
    LastWriteDecides(false, writes + [0x0003]);
  }

  /** Writing the same value twice leaves the same state as writing it once. */
  lemma RepeatedWriteIdempotent(writes: seq<uint16>, value: uint16)
    ensures Replay(false, writes + [value, value]) == Replay(false, writes + [value])
  {
    LastWriteDecides(false, writes + [value, value]);
    LastWriteDecides(false, writes + [value]);
  }

  /** The service's state: the subscription flag and the sends it has asked
      the host to make. `cccWrites` is the history of CCC writes, kept for the
      invariant that the flag always reflects it. */
  class SensorService {
    var notifyEnabled: bool
    var sends: seq<Send>
    ghost var cccWrites: seq<uint16>

    ghost predicate Valid()
      reads this
    {
      && notifyEnabled == Replay(false, cccWrites)
      && forall i :: 0 <= i < |sends| ==> sends[i].attrIndex == NotifyAttrIndex
    }

    /** The static flag is zero-initialised: no central is subscribed before
        the first CCC write, and nothing has been sent. */
    constructor ()
      ensures Valid()
      ensures !notifyEnabled && sends == [] && cccWrites == []
    {
      notifyEnabled := false;
      sends := [];
      cccWrites := [];
    }

    /** `ccc_cfg_changed_handler`: a central wrote `value` to the CCC
        descriptor. */
    method CccCfgChanged(value: uint16)
      requires Valid()
      modifies this`notifyEnabled, this`cccWrites
      ensures Valid()
      ensures cccWrites == old(cccWrites) + [value]
      ensures notifyEnabled <==> value == CccNotify
    {
      ReplayAppend(false, cccWrites, value);
      notifyEnabled := value == CccNotify;
      cccWrites := cccWrites + [value];
    }

    /** `my_sensor_notify_string`: refuses with `-EACCES` while no central is
        subscribed, and otherwise asks the host once to notify the
        characteristic value with the string's `strlen` characters (no
        terminator), returning the host's result code unchanged. */
    method NotifyString(str: seq<char>, hostResult: int) returns (err: int)
      requires Valid() && CString(str)
      modifies this`sends
      ensures Valid()
      ensures !notifyEnabled ==> err == -EACCES && sends == old(sends)
      ensures notifyEnabled ==> err == hostResult && sends == old(sends) + [Send(NotifyAttrIndex, Visible(str))]
    {
      if !notifyEnabled {
        return -EACCES;
      }
      sends := sends + [Send(NotifyAttrIndex, str[..StrLen(str)])];
      err := hostResult;
    }
  }
}
