/**
 * The GPIO DMA helper: it fills a caller-owned ring of GPDMA descriptors, starts
 * and stops the fixed DMA channel that streams the ring to a GPIO register,
 * acknowledges that channel's interrupts, and finds which descriptor the channel
 * is working on.
 */
module GpioDma {
  import opened Gpdma
  import opened DescriptorRing

  const BytesPerWord: nat := 4

  /** The channel the helper drives. */
  const DmaChannelGpio: nat := 5

  /** Whole words needed to hold `transferBytes` bytes: the byte count rounded up. */
  function TransferWords(transferBytes: nat): (words: nat)
    ensures transferBytes <= words * BytesPerWord < transferBytes + BytesPerWord
  {
    (transferBytes + BytesPerWord - 1) / BytesPerWord
  }

  /** Distance in bytes between the source addresses of consecutive descriptors. */
  function Stride(transferBytes: nat): (stride: nat)
    ensures stride % BytesPerWord == 0
    ensures transferBytes <= stride < transferBytes + BytesPerWord
  {
    TransferWords(transferBytes) * BytesPerWord
  }

  /** The control word of every descriptor of the ring: one transfer per descriptor,
      single-element bursts, byte-wide source and destination, source address
      incremented, destination address fixed, terminal-count interrupt enabled. */
  const RingControl: Control := Control(
    transferSize := 1,
    sbSize := 0,
    dbSize := 0,
    sWidth := 0,
    dWidth := 0,
    s := 1,
    d := 1,
    si := 1,
    di := 0,
    prot1 := 0,
    prot2 := 0,
    prot3 := 0,
    i := 1)

  /** The configuration word written when the channel is started: the channel not
      yet enabled, no source or destination peripheral, memory-to-memory flow
      control, error and terminal-count interrupts unmasked, no lock, no halt. */
  const StartConfig: Config := Config(
    e := 0,
    srcPeripheral := 0,
    destPeripheral := 0,
    flowCntrl := 0,
    ie := 1,
    itc := 1,
    l := 0,
    h := 0)

  /** gpio_dma_config_lli: fills descriptors 0 .. lliCount-1 of `lli` in place.
      `looped` stands for the link words that gpdma_lli_create_loop leaves in
      those descriptors, and `base` for the address of lli[0]; the requirement on
      them is the postcondition assumed of that call. */
  method ConfigLli(
    lli: array<Descriptor>,
    lliCount: nat,
    buffer: nat,
    targetBuffer: nat,
    transferBytes: nat,
    looped: seq<LinkWord>,
    ghost base: nat)
    requires lliCount <= lli.Length
    requires |looped| == lliCount && LoopLinked(looped, base)
    modifies lli
    ensures forall i :: 0 <= i < lliCount ==> lli[i].csrcaddr == buffer + Stride(transferBytes) * i
    ensures forall i :: 0 <= i < lliCount ==> lli[i].cdestaddr == targetBuffer
    ensures forall i :: 0 <= i < lliCount ==> lli[i].clli == looped[i].(lm := 1)
    ensures forall i :: 0 <= i < lliCount ==> lli[i].ccontrol == RingControl
    ensures forall i :: lliCount <= i < lli.Length ==> lli[i] == old(lli[i])
    ensures Links(lli[..lliCount]) == RingLinks(looped)
    ensures LoopLinked(Links(lli[..lliCount]), base)
  {
    // The call to gpdma_lli_create_loop: its effect on the link words is `looped`.
    forall i | 0 <= i < lliCount {
      lli[i] := lli[i].(clli := looped[i]);
    }
    var transferWords := TransferWords(transferBytes);
    for i := 0 to lliCount
      invariant forall j :: 0 <= j < i ==> lli[j].csrcaddr == buffer + Stride(transferBytes) * j
      invariant forall j :: 0 <= j < i ==> lli[j].cdestaddr == targetBuffer
      invariant forall j :: 0 <= j < i ==> lli[j].clli == looped[j].(lm := 1)
      invariant forall j :: 0 <= j < i ==> lli[j].ccontrol == RingControl
      invariant forall j :: i <= j < lliCount ==> lli[j].clli == looped[j]
      invariant forall j :: lliCount <= j < lli.Length ==> lli[j] == old(lli[j])
    {
      var peripheralAddress := targetBuffer;
      var memoryAddress := buffer + transferWords * BytesPerWord * i;
      lli[i] := lli[i].(csrcaddr := memoryAddress);
      lli[i] := lli[i].(cdestaddr := peripheralAddress);
      lli[i] := lli[i].(clli := lli[i].clli.(lm := 1));
      lli[i] := lli[i].(ccontrol := RingControl);
    }
    assert Links(lli[..lliCount]) == RingLinks(looped);
    LoopLinkedByNext(looped, Links(lli[..lliCount]), base);
  }

  /** The chunks of the buffer that different descriptors read do not overlap:
      the `transferBytes` read from descriptor i's source address end no later
      than descriptor j's source address, for i < j. */
  lemma ChunksDisjoint(transferBytes: nat, i: nat, j: nat)
    requires i < j
    ensures Stride(transferBytes) * i + transferBytes <= Stride(transferBytes) * j
  {
    StrideStep(Stride(transferBytes), i, j);
  }

  /** Every chunk of a ring of n descriptors lies within the n strides from `buffer`. */
  lemma ChunkInBuffer(transferBytes: nat, j: nat, n: nat)
    requires j < n
    ensures Stride(transferBytes) * j + transferBytes <= Stride(transferBytes) * n
  {
    StrideStep(Stride(transferBytes), j, n);
  }

  /** s * a + s <= s * b when a < b. */
  lemma StrideStep(s: nat, a: nat, b: nat)
    requires a < b
    ensures s * a + s <= s * b
  {
    var m := b - a - 1;
    assert s * b == s * a + s + s * m;
  }

  /** The specification of the progress lookup: the index of the first link word
      equal to `nextLli`, or 0 when there is none. */
  function TransferIndex(links: seq<LinkWord>, nextLli: LinkWord): (index: nat)
    ensures index == 0 || index < |links|
  {
    var p := Position(links, nextLli);
    if p < |links| then p else 0
  }

  /** The position of the first occurrence of `w` in `links`, or |links| if none. */
  function Position(links: seq<LinkWord>, w: LinkWord): (p: nat)
  {
    if links == [] then 0
    else if links[0] == w then 0
    else 1 + Position(links[1..], w)
  }

  /** Position finds the first occurrence, and only misses when there is none. */
  lemma {:induction false} PositionIsFirst(links: seq<LinkWord>, w: LinkWord)
    ensures Position(links, w) <= |links|
    ensures forall j :: 0 <= j < Position(links, w) ==> links[j] != w
    ensures Position(links, w) < |links| ==> links[Position(links, w)] == w
  {
    if links != [] && links[0] != w {
      PositionIsFirst(links[1..], w);
      assert forall j :: 1 <= j <= |links[1..]| ==> links[j] == links[1..][j - 1];
    }
  }

  /** TransferIndex is the least index of a match when there is one, and 0 when no
      link word matches (in particular for an empty ring). */
  lemma TransferIndexIsFirstMatch(links: seq<LinkWord>, nextLli: LinkWord)
    ensures (exists k :: 0 <= k < |links| && links[k] == nextLli) ==>
              var index := TransferIndex(links, nextLli);
              index < |links| && links[index] == nextLli &&
              forall j :: 0 <= j < index ==> links[j] != nextLli
    ensures (forall k :: 0 <= k < |links| ==> links[k] != nextLli) ==> TransferIndex(links, nextLli) == 0
  {
    PositionIsFirst(links, nextLli);
  }

  /** The link words the ring fill leaves: those of the loop with LM set to 1. */
  function RingLinks(looped: seq<LinkWord>): (links: seq<LinkWord>)
    ensures |links| == |looped|
  {
    seq(|looped|, i requires 0 <= i < |looped| => looped[i].(lm := 1))
  }

  /** On a ring the fill leaves, the lookup of descriptor k's link word returns k. */
  lemma RingIndexExact(looped: seq<LinkWord>, base: nat, k: nat)
    requires LoopLinked(looped, base) && k < |looped|
    ensures TransferIndex(RingLinks(looped), RingLinks(looped)[k]) == k
  {
    var filled := RingLinks(looped);
    LoopLinkedByNext(looped, filled, base);
    LinksDistinct(filled, base);
    TransferIndexIsFirstMatch(filled, filled[k]);
  }

  /** gpio_dma_current_transfer_index: the first descriptor among lli[0 .. lliCount-1]
      whose link word equals the channel's link register `nextLli`, or 0 if none
      does. The descriptor array is only read. */
  method CurrentTransferIndex(lli: array<Descriptor>, lliCount: nat, nextLli: LinkWord) returns (index: nat)
    requires lliCount <= lli.Length
    ensures index == TransferIndex(Links(lli[..lliCount]), nextLli)
    ensures (exists k :: 0 <= k < lliCount && lli[k].clli == nextLli) ==>
              index < lliCount && lli[index].clli == nextLli &&
              forall j :: 0 <= j < index ==> lli[j].clli != nextLli
    ensures (forall k :: 0 <= k < lliCount ==> lli[k].clli != nextLli) ==> index == 0
  {
    ghost var links := Links(lli[..lliCount]);
    TransferIndexIsFirstMatch(links, nextLli);
    for i := 0 to lliCount
      invariant forall j :: 0 <= j < i ==> lli[j].clli != nextLli
    {
      if lli[i].clli == nextLli {
        assert links[i] == nextLli;
        return i;
      }
    }
    return 0;
  }

  /** gpio_dma_enable: stops the channel, clears its latched flags, loads its four
      transfer registers from `lli`, writes the start configuration and enables it. */
  method EnableChannel(channel: Channel, lli: Descriptor)
    modifies channel
    ensures channel.srcAddr == lli.csrcaddr && channel.destAddr == lli.cdestaddr
    ensures channel.clli == lli.clli && channel.control == lli.ccontrol
    ensures !channel.tcPending && !channel.errPending
    ensures channel.config == StartConfig.(e := 1) && channel.Enabled()
  {
    channel.Disable();
    channel.InterruptTcClear();
    channel.InterruptErrorClear();

    channel.srcAddr := lli.csrcaddr;
    channel.destAddr := lli.cdestaddr;
    channel.clli := lli.clli;
    channel.control := lli.ccontrol;

    channel.config := StartConfig;

    channel.Enable();
  }

  /** gpio_dma_tx_start: starts the GPIO channel on the ring at `startLli`. */
  method TxStart(gpio: Channel, startLli: Descriptor)
    requires gpio.number == DmaChannelGpio
    modifies gpio
    ensures gpio.Regs() == Registers(
              startLli.csrcaddr, startLli.cdestaddr, startLli.clli, startLli.ccontrol,
              StartConfig.(e := 1), false, false)
    ensures gpio.Enabled()
  {
    EnableChannel(gpio, startLli);
  }

  /** gpio_dma_irq_err_clear: clears the GPIO channel's latched error flag. */
  method IrqErrClear(gpio: Channel)
    requires gpio.number == DmaChannelGpio
    modifies gpio
    ensures gpio.Regs() == old(gpio.Regs()).(errPending := false)
  {
    gpio.InterruptErrorClear();
  }

  /** gpio_dma_irq_tc_acknowledge: clears the GPIO channel's latched terminal-count flag. */
  method IrqTcAcknowledge(gpio: Channel)
    requires gpio.number == DmaChannelGpio
    modifies gpio
    ensures gpio.Regs() == old(gpio.Regs()).(tcPending := false)
  {
    gpio.InterruptTcClear();
  }

  /** gpio_dma_stop: disables the GPIO channel; nothing else changes. */
  method Stop(gpio: Channel)
    requires gpio.number == DmaChannelGpio
    modifies gpio
    ensures gpio.Regs() == Disabled(old(gpio.Regs()))
    ensures !gpio.Enabled()
    ensures !old(gpio.Enabled()) ==> gpio.Regs() == old(gpio.Regs())
  {
    ghost var before := gpio.Regs();
    gpio.Disable();
    if !before.Enabled() {
      DisabledWhenStopped(before);
    }
  }

  /** Stopping is idempotent: disabling leaves a state that disabling again keeps. */
  lemma DisabledIdempotent(r: Registers)
    ensures Disabled(Disabled(r)) == Disabled(r)
  {
  }

  /** Disabling a channel that is already disabled changes nothing. */
  lemma DisabledWhenStopped(r: Registers)
    requires !r.Enabled()
    ensures Disabled(r) == r
  {
    assert r.config.e == 0;
  }

  /** Stopping twice leaves the state that stopping once leaves. */
  method StopTwice(gpio: Channel)
    requires gpio.number == DmaChannelGpio
    modifies gpio
    ensures gpio.Regs() == Disabled(old(gpio.Regs()))
  {
    Stop(gpio);
    ghost var once := gpio.Regs();
    Stop(gpio);
    DisabledIdempotent(once);
  }

  /** A client: a four-descriptor ring of 512-byte chunks, started and looked up. */
  method RingScenario(gpio: Channel, base: nat, buffer: nat, target: nat)
    requires gpio.number == DmaChannelGpio
    modifies gpio
  {
    var n := 4;
    var looped := seq(n, i requires 0 <= i < n => LinkWord(0, DescriptorAddress(base, (i + 1) % n)));
    var lli := new Descriptor[n];
    ConfigLli(lli, n, buffer, target, 512, looped, base);
    assert lli[2].csrcaddr == buffer + 1024;
    assert lli[3].clli.next == DescriptorAddress(base, 0);

    TxStart(gpio, lli[0]);
    var index := CurrentTransferIndex(lli, n, gpio.clli);
    RingIndexExact(looped, base, 0);
    assert index == 0;

    // The channel, working on descriptor 2, has loaded descriptor 2's link word.
    index := CurrentTransferIndex(lli, n, lli[2].clli);
    RingIndexExact(looped, base, 2);
    assert index == 2;

    // A link register holding the address of descriptor 2 is descriptor 1's link word.
    index := CurrentTransferIndex(lli, n, LinkWord(1, DescriptorAddress(base, 2)));
    RingIndexExact(looped, base, 1);
    assert index == 1;

    Stop(gpio);
    assert !gpio.Enabled();
  }
}
