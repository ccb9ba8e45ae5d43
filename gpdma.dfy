/**
 * Register-level values of the LPC43xx general-purpose DMA controller (GPDMA) as
 * the GPIO DMA helper uses them: the link word, control word and configuration word
 * of a channel, the linked-list descriptor held in memory, and the register bank of
 * one channel together with the channel calls the helper makes.
 *
 * The bit layouts of these words belong to the vendor headers, which are not part
 * of this model: every word is a record with one field per macro argument.
 */
module Gpdma {

  /** A one-bit field of a register word. */
  type Bit = b: nat | b < 2

  /** A link word (the channel's CLLI register, or a descriptor's clli field): the LM
      field, which selects the bus master the next descriptor is fetched through, and
      the rest of the word, which holds the address of the next descriptor. */
  datatype LinkWord = LinkWord(lm: Bit, next: nat)

  /** A control word (CCONTROL, or a descriptor's ccontrol field). */
  datatype Control = Control(
    transferSize: nat,
    sbSize: nat,
    dbSize: nat,
    sWidth: nat,
    dWidth: nat,
    s: Bit,
    d: Bit,
    si: Bit,
    di: Bit,
    prot1: Bit,
    prot2: Bit,
    prot3: Bit,
    i: Bit)

  /** A configuration word (CCONFIG); its field `e` is the channel-enable bit. */
  datatype Config = Config(
    e: Bit,
    srcPeripheral: nat,
    destPeripheral: nat,
    flowCntrl: nat,
    ie: Bit,
    itc: Bit,
    l: Bit,
    h: Bit)

  /** One linked-list item in memory: source address, destination address, link
      word and control word, four 32-bit words in this order. */
  datatype Descriptor = Descriptor(csrcaddr: nat, cdestaddr: nat, clli: LinkWord, ccontrol: Control)

  /** Size in bytes of one descriptor in memory. */
  const DescriptorBytes: nat := 16

  /** The contents of one channel: its four transfer registers, its configuration
      register and its two latched interrupt flags (terminal count and error). */
  datatype Registers = Registers(
    srcAddr: nat,
    destAddr: nat,
    clli: LinkWord,
    control: Control,
    config: Config,
    tcPending: bool,
    errPending: bool)
  {
    predicate Enabled() { config.e == 1 }
  }

  /** The registers with the channel-enable bit cleared: what disabling a channel
      leaves. Only the enable bit changes. */
  function Disabled(r: Registers): (s: Registers)
    ensures !s.Enabled()
    ensures s.(config := r.config) == r
    ensures s.config.(e := r.config.e) == r.config
  {
    r.(config := r.config.(e := 0))
  }

  /** One GPDMA channel, whose registers the helper writes in place. */
  class Channel {
    const number: nat
    var srcAddr: nat
    var destAddr: nat
    var clli: LinkWord
    var control: Control
    var config: Config
    var tcPending: bool
    var errPending: bool

    function Regs(): Registers
      reads this
    {
      Registers(srcAddr, destAddr, clli, control, config, tcPending, errPending)
    }

    predicate Enabled()
      reads this
    {
      Regs().Enabled()
    }

    /** Channel `number` holding the register contents `regs`. */
    constructor (number: nat, regs: Registers)
      ensures this.number == number && Regs() == regs
    {
      this.number := number;
      srcAddr, destAddr, clli, control, config := regs.srcAddr, regs.destAddr, regs.clli, regs.control, regs.config;
      tcPending, errPending := regs.tcPending, regs.errPending;
    }

    /** gpdma_channel_disable: clears the channel-enable bit. */
    method Disable()
      modifies this
      ensures Regs() == Disabled(old(Regs()))
    {
      config := config.(e := 0);
    }

    /** gpdma_channel_enable: sets the channel-enable bit. */
    method Enable()
      modifies this
      ensures Enabled()
      ensures Regs() == old(Regs()).(config := old(config).(e := 1))
    {
      config := config.(e := 1);
    }

    /** gpdma_channel_interrupt_tc_clear: clears the latched terminal-count flag. */
    method InterruptTcClear()
      modifies this
      ensures Regs() == old(Regs()).(tcPending := false)
    {
      tcPending := false;
    }

    /** gpdma_channel_interrupt_error_clear: clears the latched error flag. */
    method InterruptErrorClear()
      modifies this
      ensures Regs() == old(Regs()).(errPending := false)
    {
      errPending := false;
    }
  }
}
