/** The timer stub (src/timer.rs): it claims the register at 0xFF07, answers
    reads there with its one field, and ignores what is written. */
module Timer {

  import opened Wrappers
  import opened MemoryMap
  import opened Utils

  const TAC_ADDRESS: Address := 0xFF07

  /** Timer::read: the field at 0xFF07, None elsewhere. */
  function TimerRead(NR11: Byte, address: Address): (r: Option<Byte>)
    ensures r.Some? <==> address == TAC_ADDRESS
    ensures r.Some? ==> r.value == NR11
  {
    if address == TAC_ADDRESS then Some(NR11) else None
  }

  /** Timer::write: claims 0xFF07 and nothing else; the field is never
      assigned, so only the claim flag is a result. */
  function TimerWrite(address: Address, value: Byte): (handled: bool)
    ensures handled <==> address == TAC_ADDRESS
  {
    match address
    case 0xFF07 => true
    case _ => false
  }

  class Timer {
    var NR11: Byte

    constructor()
      ensures NR11 == 0
    {
      NR11 := 0;
    }

    method Read(address: Address) returns (r: Option<Byte>)
      ensures r == TimerRead(NR11, address)
    {
      if address == TAC_ADDRESS {
        r := Some(NR11);
      } else {
        r := None;
      }
    }

    /** No `modifies` clause: a write cannot change the timer. */
    method Write(address: Address, value: Byte) returns (handled: bool)
      ensures handled == TimerWrite(address, value)
    {
      if address == TAC_ADDRESS {
        handled := true;
      } else {
        handled := false;
      }
    }
  }

  /** Whatever is written, to whatever address, every read of any timer
      returns after the write what it returned before. */
  method ReadUnchangedByWrite(t: Timer, address: Address, value: Byte, at: Address) returns (before: Option<Byte>, after: Option<Byte>)
    ensures before == TimerRead(t.NR11, at) && after == before
  {
    before := t.Read(at);
    var _ := t.Write(address, value);
    after := t.Read(at);
  }

  /** So a new timer reads 0 at 0xFF07 after a write, as after any number
      of them. */
  method ReadZeroAfterWrite(address: Address, value: Byte) returns (r: Option<Byte>)
    ensures r == Some(0)
  {
    var t := new Timer();
    var before;
    before, r := ReadUnchangedByWrite(t, address, value, TAC_ADDRESS);
  }
}
