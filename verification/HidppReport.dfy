/** HID++ reports as byte strings: construction, field access and error decoding
    (src/logid/backend/hidpp/Report.cpp). */
module HidppReport {
  import opened Common

  type Byte = b: int | 0 <= b < 256

  /** `(b >> 4) & 0x0f`. */
  function HighNibble(b: Byte): (n: Byte)
    ensures n < 16
  {
    b / 16
  }

  /** `b & 0x0f`. */
  function LowNibble(b: Byte): (n: Byte)
    ensures n < 16
  {
    b % 16
  }

  /** `(high << 4) | (low & 0x0f)`, stored in one byte. */
  function Pack(high: Byte, low: Byte): Byte {
    (high * 16) % 256 + LowNibble(low)
  }

  lemma PackUnpack(b: Byte)
    ensures Pack(HighNibble(b), LowNibble(b)) == b
  {
  }

  lemma UnpackPack(high: Byte, low: Byte)
    ensures HighNibble(Pack(high, low)) == LowNibble(high)
    ensures LowNibble(Pack(high, low)) == LowNibble(low)
  {
  }

  const SHORT: Byte := 0x10
  const LONG: Byte := 0x11
  const HIDPP20_ERROR: Byte := 0xff
  const HEADER_LENGTH := 4
  const SHORT_PARAM_LENGTH := 3
  const LONG_PARAM_LENGTH := 16

  type Bytes = seq<Byte>

  /** Number of bytes a report of the given type carries; None for an unknown type. */
  function LengthOf(reportType: Byte): Option<nat> {
    if reportType == SHORT then Some(HEADER_LENGTH + SHORT_PARAM_LENGTH)
    else if reportType == LONG then Some(HEADER_LENGTH + LONG_PARAM_LENGTH)
    else None
  }

  /** What every constructor establishes and every setter keeps. */
  predicate Valid(data: Bytes) {
    |data| >= HEADER_LENGTH && LengthOf(data[0]) == Some(|data|)
  }

  /** vector::resize: truncate, or pad with zero bytes. */
  function Resize(data: Bytes, n: nat): (r: Bytes)
    ensures |r| == n
    ensures forall i :: 0 <= i < n ==> r[i] == if i < |data| then data[i] else 0
  {
    if n <= |data| then data[..n] else data + seq(n - |data|, _ => 0)
  }

  /** Report(const std::vector&): the bytes are padded or truncated to the length the type asks for. */
  function FromRaw(raw: Bytes): Option<Bytes> {
    var padded := Resize(raw, HEADER_LENGTH + LONG_PARAM_LENGTH);
    var n :- LengthOf(padded[0]);
    Some(Resize(padded, n))
  }

  /** Parsing accepts exactly the two report types, always yields a valid report,
      and changes no byte of one that is already valid. */
  lemma FromRawSound(raw: Bytes)
    ensures FromRaw(raw).Some? <==> raw != [] && (raw[0] == SHORT || raw[0] == LONG)
    ensures FromRaw(raw).Some? ==> Valid(FromRaw(raw).value)
    ensures FromRaw(raw).Some? ==> |FromRaw(raw).value| == if raw[0] == 0x10 then 7 else 20
    ensures FromRaw(raw).Some? ==>
              forall i :: 0 <= i < |FromRaw(raw).value| ==>
                FromRaw(raw).value[i] == if i < |raw| then raw[i] else 0
    ensures Valid(raw) ==> FromRaw(raw) == Some(raw)
  {
    if Valid(raw) {
      assert FromRaw(raw).value == raw;
    }
  }

  function Feature(data: Bytes): Byte
    requires Valid(data)
  {
    data[2]
  }

  function Address(data: Bytes): Byte
    requires Valid(data)
  {
    data[3]
  }

  function FunctionOf(data: Bytes): Byte
    requires Valid(data)
  {
    HighNibble(data[3])
  }

  function SwId(data: Bytes): Byte
    requires Valid(data)
  {
    LowNibble(data[3])
  }

  datatype Hidpp20Error = Hidpp20Error(
    deviceIndex: Byte, featureIndex: Byte, function_: Byte, softwareId: Byte, errorCode: Byte)

  function IsError20(data: Bytes): Option<Hidpp20Error>
    requires Valid(data)
  {
    if data[0] != LONG || data[2] != HIDPP20_ERROR then None
    else Some(Hidpp20Error(data[1], data[3], HighNibble(data[4]), LowNibble(data[4]), data[5]))
  }

  /** A report buffer, changed in place by its setters. */
  class Report {
    var data: Bytes

    ghost predicate Ok()
      reads this
    {
      Valid(data)
    }

    /** Report(type, device_index, feature_index, function, sw_id). */
    constructor Request(reportType: Byte, device: Byte, feature: Byte, function_: Byte, swId: Byte)
      requires reportType == SHORT || reportType == LONG
      requires function_ < 16 && swId < 16
      ensures Ok() && data[0] == reportType && data[1] == device
      ensures Feature(data) == feature && FunctionOf(data) == function_ && SwId(data) == swId
      ensures forall i :: HEADER_LENGTH <= i < |data| ==> data[i] == 0
    {
      data := Resize([reportType, device, feature, Pack(function_, swId)], LengthOf(reportType).value);
      UnpackPack(function_, swId);
    }

    method SetType(reportType: Byte) returns (ok: bool)
      requires Ok()
      modifies this
      ensures Ok()
      ensures ok <==> reportType == SHORT || reportType == LONG
      ensures !ok ==> data == old(data)
      ensures ok ==> data[0] == reportType &&
                     data[1..] == Resize(old(data), |data|)[1..]
    {
      if LengthOf(reportType).None? {
        return false;
      }
      data := Resize(data, LengthOf(reportType).value);
      data := data[0 := reportType];
      return true;
    }

    method SetSwId(swId: Byte)
      requires Ok()
      modifies this
      ensures Ok() && |data| == |old(data)|
      ensures SwId(data) == LowNibble(swId) && FunctionOf(data) == FunctionOf(old(data))
      ensures forall i :: 0 <= i < |data| && i != 3 ==> data[i] == old(data)[i]
    {
      UnpackPack(HighNibble(data[3]), swId);
      data := data[3 := Pack(HighNibble(data[3]), swId)];
    }

    method SetFunction(function_: Byte)
      requires Ok()
      modifies this
      ensures Ok() && |data| == |old(data)|
      ensures FunctionOf(data) == LowNibble(function_) && SwId(data) == SwId(old(data))
      ensures forall i :: 0 <= i < |data| && i != 3 ==> data[i] == old(data)[i]
    {
      UnpackPack(function_, LowNibble(data[3]));
      data := data[3 := Pack(function_, LowNibble(data[3]))];
    }
  }
}
