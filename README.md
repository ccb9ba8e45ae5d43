# GPIO DMA descriptor ring

A model of the GPIO DMA helper of the GreatFET firmware, `firmware/common/gpio_dma.c`.
The helper streams a memory buffer to a GPIO register. It uses one general-purpose DMA
(GPDMA) channel of the LPC43xx, channel 5, driven by a ring of linked-list descriptors
("LLIs").

- `GpioDma.ConfigLli` fills a caller-owned array of `lli_count` descriptors in place. Descriptor
  `i` gets these four fields:
  - source address `buffer + 4 * ceil(transfer_bytes / 4) * i`;
  - the fixed destination address;
  - the link word that `gpdma_lli_create_loop` left, with its LM field forced to 1;
  - one constant control word. That word asks for a single byte-wide transfer per
    descriptor, with source increment on, destination increment off, and the
    terminal-count interrupt enabled.
- `GpioDma.CurrentTransferIndex` searches for progress. It returns the first descriptor
  whose link word equals the channel's live link register, or 0 when none does.
- `GpioDma.EnableChannel`, `TxStart`, `Stop`, `IrqErrClear` and `IrqTcAcknowledge`
  update one channel's registers. The channel is a `Gpdma.Channel` object.

Modules:

- `Gpdma` (gpdma.dfy) holds the register-level values and the `Channel` class. The
  values are the link, control and configuration words and the descriptor record.
  `Channel` methods stand for the vendor channel calls the helper makes
  (`gpdma_channel_disable`, `gpdma_channel_enable`,
  `gpdma_channel_interrupt_tc_clear`, `gpdma_channel_interrupt_error_clear`). Each
  one has exactly the effect its name states:
  - disable clears the enable bit E of CCONFIG;
  - enable sets E;
  - each clear resets one latched flag.
- `DescriptorRing` (descriptor_ring.dfy) holds where descriptors sit in memory. A
  descriptor is four 32-bit words, so descriptor `i` is at `base + 16 * i`. The module
  also holds the postcondition assumed of `gpdma_lli_create_loop` (`LoopLinked`) and
  the DMA engine's walk around the ring.
- `GpioDma` (gpio_dma.dfy) holds the functions of `gpio_dma.c`.

Three modelling choices:

- A link word is `LinkWord(lm, next)`: the LM field, and every other bit of the word
  (the next descriptor's address). Whole-word equality, as in the lookup, is datatype
  equality.
- Addresses are natural numbers. One-bit fields (LM, E and the other flag bits of the control
  and configuration words) have the type `Bit`, so "not enabled" means E = 0.
- The live link register read by `gpio_dma_current_transfer_index` is the parameter
  `nextLli`, a snapshot.

Two behaviours of the code are worth stating plainly:

- With `lli_count == 0` the lookup returns 0, which is not below `lli_count`.
- The lookup returns the index of the descriptor whose *link word* equals the
  register. So when the register holds the address of descriptor 2, the result is 1,
  the descriptor being worked on. `GpioDma.RingScenario` shows both cases.

## Model

| member | source | states |
|---|---|---|
| `GpioDma.TransferWords` | firmware/common/gpio_dma.c:40-41 | the word count is the byte count rounded up to whole 4-byte words: `transfer_bytes <= 4 * words < transfer_bytes + 4` |
| `GpioDma.Stride` | firmware/common/gpio_dma.c:47 | the distance between consecutive source addresses is a multiple of 4, at least `transfer_bytes` and less than `transfer_bytes + 4` |
| `GpioDma.ChunksDisjoint` | firmware/common/gpio_dma.c:47-49 | the `transfer_bytes` read from descriptor i's source end no later than descriptor j's source address, for every i < j |
| `GpioDma.ChunkInBuffer` | firmware/common/gpio_dma.c:47-49 | the chunk of every descriptor j < lli_count, chunk 0 and a one-descriptor ring included, ends within `lli_count` strides of the buffer |
| `GpioDma.ConfigLli` | firmware/common/gpio_dma.c:33-68 | after the fill, each slot i < lli_count has source `buffer + stride * i`, the given destination, the loop's link word with LM = 1 and the ring control word; slots at or beyond lli_count are unchanged; the array's link words are `RingLinks` of the loop's and still form the loop |
| `DescriptorRing.LoopLinked` | firmware/common/gpio_dma.c:43 | the postcondition assumed of `gpdma_lli_create_loop`: descriptor i's link word holds the address of descriptor (i + 1) mod n; so the last descriptor links back to the first (a one-descriptor ring links to itself) |
| `DescriptorRing.LoopLinkedByNext` | firmware/common/gpio_dma.c:51 | changing only the non-address fields of the link words (as forcing LM does) keeps descriptor i linked to descriptor (i + 1) mod n |
| `DescriptorRing.Successor` | firmware/common/gpio_dma.c:43 | in a loop, the descriptor at the address in slot i's link word is slot i + 1, or slot 0 after the last |
| `DescriptorRing.Walk` | firmware/common/gpio_dma.c:43 | following k links from a slot always stays inside the array |
| `DescriptorRing.WalkSplit` | firmware/common/gpio_dma.c:43 | following a + b links is following a links and then b more |
| `DescriptorRing.WalkFromBelowEnd` | firmware/common/gpio_dma.c:43 | following k links from slot i, with i + k < n, reaches slot i + k |
| `DescriptorRing.WalkValue` | firmware/common/gpio_dma.c:43 | following k < n links from slot i reaches slot i + k, wrapping to i + k - n past the end |
| `DescriptorRing.SingleCycle` | firmware/common/gpio_dma.c:43 | the links form one cycle through all n descriptors: n steps return to the start, no earlier step does, the first n steps visit distinct slots, and every slot is reached |
| `DescriptorRing.LinksDistinct` | firmware/common/gpio_dma.c:43 | the link words of a loop are pairwise distinct |
| `GpioDma.TransferIndex` | firmware/common/gpio_dma.c:127-133 | the specified lookup result is 0 or an index of the ring |
| `GpioDma.PositionIsFirst` | firmware/common/gpio_dma.c:128-131 | the first-occurrence search skips only non-matching link words and stops on a match |
| `GpioDma.TransferIndexIsFirstMatch` | firmware/common/gpio_dma.c:127-133 | the lookup gives the least index whose link word equals the register when one exists, and 0 when none does (including an empty ring) |
| `GpioDma.RingIndexExact` | firmware/common/gpio_dma.c:128-131 | on a filled ring, looking up descriptor k's link word gives exactly k |
| `GpioDma.CurrentTransferIndex` | firmware/common/gpio_dma.c:123-134 | returns the first i < lli_count with `lli[i].clli == next_lli`, else 0; equals the specified lookup; reads the array without modifying it |
| `Gpdma.Disabled` | firmware/common/gpio_dma.c:120 | disabling a channel clears its enable bit and changes nothing else |
| `Gpdma.Channel.Disable` | firmware/common/gpio_dma.c:71 | the channel's registers become `Disabled` of the old ones |
| `Gpdma.Channel.Enable` | firmware/common/gpio_dma.c:91 | the channel is enabled and only the enable bit changed |
| `Gpdma.Channel.InterruptTcClear` | firmware/common/gpio_dma.c:72 | the terminal-count flag is clear and nothing else changed |
| `Gpdma.Channel.InterruptErrorClear` | firmware/common/gpio_dma.c:73 | the error flag is clear and nothing else changed |
| `GpioDma.EnableChannel` | firmware/common/gpio_dma.c:70-92 | afterwards the channel's source, destination, link and control registers equal the descriptor's four fields, both flags are clear, CCONFIG is the start configuration and the channel is enabled |
| `GpioDma.TxStart` | firmware/common/gpio_dma.c:103-105 | the GPIO channel's whole register state is loaded from the start descriptor, with flags clear, and the channel is enabled |
| `GpioDma.IrqErrClear` | firmware/common/gpio_dma.c:107-109 | the GPIO channel's error flag is clear and nothing else changed |
| `GpioDma.IrqTcAcknowledge` | firmware/common/gpio_dma.c:111-113 | the GPIO channel's terminal-count flag is clear and nothing else changed |
| `GpioDma.Stop` | firmware/common/gpio_dma.c:119-121 | the GPIO channel is disabled and nothing else changed; stopping a channel that is already stopped changes nothing at all |
| `GpioDma.DisabledIdempotent` | firmware/common/gpio_dma.c:119-121 | disabling twice equals disabling once |
| `GpioDma.DisabledWhenStopped` | firmware/common/gpio_dma.c:119-121 | disabling a channel whose enable bit is already clear changes nothing |
| `GpioDma.StopTwice` | firmware/common/gpio_dma.c:119-121 | stopping twice leaves the state that stopping once leaves |

## Left out

- `firmware/greatfet_usb/usb_device.c`: static USB descriptor and configuration tables with no behaviour.
- `gpio_dma_init`: a DMAMUX register read-modify-write and a controller-enable call; hardware plumbing with nothing to prove.
- `gpio_dma_irq_is_error`: its body calls the vendor status query but has no `return`, so the value it gives its caller is undefined in C. This is a defect of the source. It is not modelled, and no return value is invented for it.
- Bodies of `gpdma_lli_create_loop`, `gpdma_channel_*` and `gpdma_controller_enable`: these are vendor calls, not part of this model.
  - The loop call's effect is the input `looped` of `ConfigLli`. Its assumed postcondition is `LoopLinked`: descriptor i links to descriptor (i + 1) mod n. Distinctness of the links is proved from it, not assumed.
  - The channel calls are reduced to the effect their names state.
- Bit layouts of the `GPDMA_CCONTROL_*`, `GPDMA_CCONFIG_*` and `GPDMA_CLLI_*` macros: these come from vendor headers. Every word is a record of named fields. The reserved bit of the link word is folded into its `next` part.
- `ConfigLli`: addresses and byte counts are unbounded naturals. The 32-bit wrap-around of `buffer + transfer_words * 4 * i` and of `transfer_bytes + 3` is not modelled, nor are the `(uint32_t)` casts.
- `TransferWords`: does not model the 32-bit wrap of `transfer_bytes + 3` for byte counts within 3 of 2^32.
- The hardware's own advance of the link register, interrupt delivery and concurrency between the engine and software are not modelled. `CurrentTransferIndex` takes the register value as a parameter.
- Stopping is modelled as clearing the enable bit. What happens to a unit already in flight is not modelled.
- `Gpdma.Channel.constructor` only builds a channel holding the given register values, for clients. The hardware's reset state is not modelled.
