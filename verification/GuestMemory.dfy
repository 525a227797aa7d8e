/** Guest memory and registers as the introspection layer sees them. */
module GuestMemory {
  import opened Options

  const TWO64 := 0x1_0000_0000_0000_0000

  type Addr = a: nat | a < TWO64

  type Byte = b: nat | b < 0x100

  /** The mapped bytes of the guest's address space. */
  type Mem = map<Addr, Byte>

  /** One vCPU. `rest` stands for every register the callbacks never mention. */
  datatype Regs = Regs(rip: Addr, rdi: Addr, rsi: Addr, rdx: Addr, rsp: Addr, rbp: Addr, rest: seq<Addr>)

  const BREAK: Byte := 0xCC

  /** 64-bit wrap-around; `a` and `b` may be negative. */
  function Wrap(a: int): Addr {
    a % 0x1_0000_0000_0000_0000
  }

  /** A read of an unmapped address fails and leaves the caller's variable alone. */
  function ReadByte(m: Mem, at: Addr, previous: Byte): Byte {
    if at in m then m[at] else previous
  }

  /** A write to an unmapped address fails and changes nothing. */
  function WriteByte(m: Mem, at: Addr, value: Byte): Mem {
    if at in m then m[at := value] else m
  }

  /** What the guest itself does to an address: store to it or map it, or, with None, unmap it. */
  function GuestWrite(m: Mem, at: Addr, value: Option<Byte>): Mem {
    match value
    case Some(b) => m[at := b]
    case None => m - {at}
  }
}
