/** How a (sub)device is mapped to its queue of waiting processes. */
module Devices {

  const DEV_REG_START := 0x10000054
  const DEV_REG_SIZE := 16
  const N_DEV_PER_IL := 8
  const N_EXT_IL := 5
  const MAXDEVICE := 48
  const DEV_IL_START := 17
  const IL_TERMINAL := 21
  const TWO32 := 0x1_0000_0000

  /** C's unsigned 32-bit value of an integer. */
  function U32(x: int): int {
    x % TWO32
  }

  function ExtIlIndex(line: int): int {
    line - DEV_IL_START
  }

  function DevRegAddr(line: int, number: int): int {
    DEV_REG_START + (ExtIlIndex(line) * N_DEV_PER_IL + number) * DEV_REG_SIZE
  }

  /** Offsets in a device register block: a terminal has status/command pairs for reception
      and transmission, every other device has status, command, data0, data1. */
  const RECV_COMMAND := 4
  const TRANSM_COMMAND := 12

  function HashFromDeviceTypeNumber(kind: int, number: int, transm: bool): int {
    (if kind == ExtIlIndex(IL_TERMINAL) && transm then kind + 1 else kind) * N_DEV_PER_IL + number
  }

  function CommAddToNumber(commandAddr: int): int {
    var block := U32(commandAddr - DEV_REG_START) / DEV_REG_SIZE;
    var il := block / N_DEV_PER_IL;
    var number := block - il * N_DEV_PER_IL;
    var transm := commandAddr != DevRegAddr(il + DEV_IL_START, number) + RECV_COMMAND;
    HashFromDeviceTypeNumber(il, number, transm)
  }

  /** The interrupt handler's 32-bit message to the SSI: four bytes, first field lowest. */
  function Pack(service: int, status: int, kind: int, number: int): int {
    service % 256 + 0x100 * (status % 256) + 0x1_0000 * (kind % 256) + 0x100_0000 * (number % 256)
  }

  function Field(payload: int, k: nat): int
    requires k < 4
  {
    if k == 0 then payload % 256
    else if k == 1 then payload / 0x100 % 256
    else if k == 2 then payload / 0x1_0000 % 256
    else payload / 0x100_0000 % 256
  }

  /** Bit 7 of the device-number byte says "transmitting half of a terminal". */
  function SetBit7(b: int): int {
    if b / 128 % 2 == 1 then b else b + 128
  }

  predicate TestBit7(b: int) {
    b / 128 % 2 == 1
  }

  function ClearBit7(b: int): int {
    if TestBit7(b) then b - 128 else b
  }

  /** Registers of one device, as the interrupt handler reads them. */
  datatype DevReg = DevReg(pending: bool, status: int, recvStatus: int, transmStatus: int)

  type Bank = b: seq<DevReg> | |b| == N_DEV_PER_IL
    witness seq(N_DEV_PER_IL, _ => DevReg(false, 0, 0, 0))

  /** A terminal raised its interrupt for the transmitting half. */
  predicate Transmitting(line: int, reg: DevReg) {
    line == IL_TERMINAL && reg.transmStatus % 256 != 1 && reg.transmStatus % 256 != 3
  }

  function StatusCode(line: int, reg: DevReg): int {
    if line != IL_TERMINAL then reg.status % 256
    else if Transmitting(line, reg) then reg.transmStatus % 256
    else reg.recvStatus % 256
  }

  function IrqPayload(line: int, number: int, reg: DevReg): int {
    Pack(0, StatusCode(line, reg), ExtIlIndex(line), if Transmitting(line, reg) then SetBit7(number) else number)
  }

  const CLOCK_PAYLOAD := Pack(1, 0, 0, 0)

  /** The queue the SSI answers for a device message. */
  function AnswerQueue(payload: int): int {
    HashFromDeviceTypeNumber(Field(payload, 2), ClearBit7(Field(payload, 3)), TestBit7(Field(payload, 3)))
  }

  /** The 48 (sub)devices. */
  datatype SubDevice = SubDevice(line: int, number: int, transm: bool) {
    predicate Valid() {
      DEV_IL_START <= line < DEV_IL_START + N_EXT_IL && 0 <= number < N_DEV_PER_IL && (transm ==> line == IL_TERMINAL)
    }

    /** Where a process writes the command that starts an operation on this (sub)device. */
    function CommandAddr(): int {
      DevRegAddr(line, number) + if transm then TRANSM_COMMAND else RECV_COMMAND
    }
  }

  lemma LowByte(lo: int, hi: int)
    requires 0 <= lo < 0x100
    ensures (lo + 0x100 * hi) % 0x100 == lo && (lo + 0x100 * hi) / 0x100 == hi
  {
  }

  lemma HighHalf(lo: int, hi: int)
    requires 0 <= lo < 0x1_0000
    ensures (lo + 0x1_0000 * hi) / 0x1_0000 == hi
  {
  }

  lemma HighByte(lo: int, hi: int)
    requires 0 <= lo < 0x100_0000
    ensures (lo + 0x100_0000 * hi) / 0x100_0000 == hi
  {
  }

  /** Shifting the payload right by 8, 16 and 24 bits leaves the higher fields. */
  lemma Shifted(a: int, b: int, c: int, d: int)
    requires 0 <= a < 256 && 0 <= b < 256 && 0 <= c < 256 && 0 <= d < 256
    ensures var x := a + 0x100 * b + 0x1_0000 * c + 0x100_0000 * d;
      x % 256 == a && x / 0x100 == b + 0x100 * (c + 0x100 * d) && x / 0x1_0000 == c + 0x100 * d && x / 0x100_0000 == d
  {
    LowByte(a, b + 0x100 * (c + 0x100 * d));
    HighHalf(a + 0x100 * b, c + 0x100 * d);
    HighByte(a + 0x100 * b + 0x1_0000 * c, d);
  }

  lemma PackUnpack(service: int, status: int, kind: int, number: int)
    requires 0 <= service < 256 && 0 <= status < 256 && 0 <= kind < 256 && 0 <= number < 256
    ensures 0 <= Pack(service, status, kind, number) < TWO32
    ensures Field(Pack(service, status, kind, number), 0) == service
    ensures Field(Pack(service, status, kind, number), 1) == status
    ensures Field(Pack(service, status, kind, number), 2) == kind
    ensures Field(Pack(service, status, kind, number), 3) == number
  {
    Shifted(service, status, kind, number);
    LowByte(status, kind + 0x100 * number);
    LowByte(kind, number);
  }

  /** Any register address of a device other than a terminal names that device's queue, and a terminal's
      two command addresses name two different queues. */
  lemma CommandRoutes(d: SubDevice, offset: int)
    requires d.Valid()
    requires 0 <= offset < DEV_REG_SIZE
    requires d.line == IL_TERMINAL ==> offset == if d.transm then TRANSM_COMMAND else RECV_COMMAND
    ensures CommAddToNumber(DevRegAddr(d.line, d.number) + offset)
            == (ExtIlIndex(d.line) + if d.transm then 1 else 0) * N_DEV_PER_IL + d.number
  {
    BlockOf(ExtIlIndex(d.line), d.number, offset);
  }

  lemma BlockOf(il: int, number: int, offset: int)
    requires 0 <= il < N_EXT_IL && 0 <= number < N_DEV_PER_IL && 0 <= offset < DEV_REG_SIZE
    ensures var a := DevRegAddr(il + DEV_IL_START, number) + offset;
      && U32(a - DEV_REG_START) / DEV_REG_SIZE == il * N_DEV_PER_IL + number
      && (il * N_DEV_PER_IL + number) / N_DEV_PER_IL == il
  {
    var block := il * N_DEV_PER_IL + number;
    assert U32(block * DEV_REG_SIZE + offset) == block * DEV_REG_SIZE + offset;
  }

  lemma Bit7(number: int, on: bool)
    requires 0 <= number < N_DEV_PER_IL
    ensures var b := if on then SetBit7(number) else number;
      0 <= b < 256 && TestBit7(b) == on && ClearBit7(b) == number
  {
  }

  /** What the SSI reads back from the message of an interrupt. */
  lemma IrqFields(line: int, number: int, reg: DevReg)
    requires DEV_IL_START <= line < DEV_IL_START + N_EXT_IL && 0 <= number < N_DEV_PER_IL
    ensures var p := IrqPayload(line, number, reg);
      && Field(p, 0) == 0 && Field(p, 2) == line - 17 && ClearBit7(Field(p, 3)) == number
      && (line != 21 ==> Field(p, 1) == reg.status % 256 && !TestBit7(Field(p, 3)))
      && (line == 21 ==>
            var status := reg.transmStatus % 256;
            if status != 1 && status != 3 then Field(p, 1) == status && TestBit7(Field(p, 3))
            else Field(p, 1) == reg.recvStatus % 256 && !TestBit7(Field(p, 3)))
  {
    var on := Transmitting(line, reg);
    var status := StatusCode(line, reg);
    assert 0 <= status < 256;
    Bit7(number, on);
    PackUnpack(0, status, ExtIlIndex(line), if on then SetBit7(number) else number);
  }

  /** A process that started an operation on `d` waits in exactly the queue that the SSI answers when `d` interrupts. */
  lemma RoutingRoundTrip(d: SubDevice, reg: DevReg)
    requires d.Valid()
    requires d.line == 21 ==> (d.transm <==> reg.transmStatus % 256 != 1 && reg.transmStatus % 256 != 3)
    ensures var p := IrqPayload(d.line, d.number, reg);
      && AnswerQueue(p) == CommAddToNumber(d.CommandAddr())
      && 0 <= AnswerQueue(p) < MAXDEVICE
      && Field(p, 0) == 0 && (d.line != 21 ==> Field(p, 1) == reg.status % 256)
      && (d.line == 21 ==> Field(p, 1) == (if d.transm then reg.transmStatus else reg.recvStatus) % 256)
  {
    CommandRoutes(d, if d.transm then TRANSM_COMMAND else RECV_COMMAND);
    IrqFields(d.line, d.number, reg);
  }

  /** Different (sub)devices have different queues. */
  lemma RoutingInjective(d: SubDevice, e: SubDevice)
    requires d.Valid() && e.Valid()
    requires CommAddToNumber(d.CommandAddr()) == CommAddToNumber(e.CommandAddr())
    ensures d == e
  {
    CommandRoutes(d, if d.transm then TRANSM_COMMAND else RECV_COMMAND);
    CommandRoutes(e, if e.transm then TRANSM_COMMAND else RECV_COMMAND);
  }
}
