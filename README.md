# UninaSoC core, modelled in Dafny

UninaSoC is a RISC-V system-on-chip for FPGAs. This project models and
proves properties of three parts of it.

**Interrupt-path firmware.**
- The vector-table installer encodes a `jal x0` J-type instruction into a slot of the table. The immediate encoding follows section 2.3 of the RISC-V Unprivileged ISA 20191213; the jump follows section 2.5.1 of the same document.
- The PLIC driver comes in two copies, the runtime library one and the common-devices one.
- The external-interrupt handler also comes in two versions.
- The AXI timer drivers and the AXI GPIO drivers.

Memory-mapped registers are a map from register to word (`Mmio.Bus`), and every access is logged. So each driver is a method whose contract gives the exact words written and the exact order of the accesses.

**Bare-metal leaves and HLS kernels.**
- `memcpy` and `memset` over byte arrays.
- The tinyIO `scanf`, with its one-character pushback slot.
- The naive 2-D convolution kernel, the 4 x 4 matrix-multiplication kernel, and the host utilities that fill the tensors, compute the reference result and compare it with the kernel's.
- Arithmetic is `uint32_t`, written out modulo 2^32.

**The configuration flow.** These Python scripts turn each bus's CSV file into a checked configuration and then into RTL and a linker script:
- the `Configuration` object and its guarded setters;
- the property parsers and the older crossbar reader;
- the property dispatcher;
- the two configuration checkers;
- the two bus-declaration generators, one writing a whole file and one rewriting marked sections of an RTL file in place;
- the linker-script generator.

The model follows the form of each script. Each parser and loop is a method on the configuration, or on the lists it builds. Each method is proved equal to a function on values. The promised properties are lemmas about those functions. Python's exceptions are values (`Builtins.Exception`). Python's `int()` is a parameter or a decimal parser (`Builtins.ParseInt`).

## Model

| member | source | states |
|---|---|---|
| VectorTable.Code | sw/SoC/examples/interrupts/src/interrupts.c:7-31 | the function returns 0, 1 or 2, and 0 exactly when the handler was installed |
| VectorTable.JalFields | sw/SoC/examples/interrupts/src/interrupts.c:20-24 | every encoded word carries the JAL opcode 0x6f and a zero rd field (bits 11:7), i.e. it is `jal x0` |
| VectorTable.RoundTripNonNegative | sw/SoC/examples/interrupts/src/interrupts.c:19-23 | for a non-negative in-range offset, decoding the J-immediate of the encoded word gives the offset with bit 0 cleared |
| VectorTable.RoundTripNegative | sw/SoC/examples/interrupts/src/interrupts.c:19-23 | the same for a negative in-range offset, through sign extension from bit 20 |
| VectorTable.JalRoundTrip | sw/SoC/examples/interrupts/src/interrupts.c:15-23 | for every offset the range check lets through, decode(encode(off)) is off with bit 0 cleared, and exactly off when off is even |
| VectorTable.PlanInstall | sw/SoC/examples/interrupts/src/interrupts.c:7-27 | index >= 32 rejects with 1; otherwise an offset (handler minus slot base + 4·index, as signed 32 bits) outside [-2^19, 2^19) rejects with 2; otherwise the word stored is the encoding of that offset into that slot |
| VectorTable.InstalledWordDecodes | sw/SoC/examples/interrupts/src/interrupts.c:12-27 | a stored word is `jal x0` whose immediate decodes to the slot-to-handler distance (bit 0 cleared), exactly when that distance is even |
| VectorTable.PlanAccesses | sw/SoC/examples/interrupts/src/interrupts.c:7-27 | a rejection performs no access; an installation writes exactly the planned slot |
| VectorTable.InstallExceptionHandler | sw/SoC/examples/interrupts/src/interrupts.c:5-32 | the intended installer: returns the plan's code, and its only access is the single write of the planned word, nothing else of memory changes |
| VectorTable.PlanInstallAsWritten | sw/SoC/examples/interrupts/src/interrupts.c:9 | the installer as written: the slot is computed from the table's first WORD (the value of the `const volatile uint32_t` symbol), not from its address; index >= 32 still rejects with 1 |
| VectorTable.InstallExceptionHandlerAsWritten | sw/SoC/examples/interrupts/src/interrupts.c:5-32 | as written: after the index check it reads the table's first word, then performs the planned write (if any); memory changes only there |
| VectorTable.AsWrittenPatchesWrongSlot | sw/SoC/examples/interrupts/src/interrupts.c:9-27 | counterexample: a table at 0 holding `jal x0, 0`, cause 11, handler 0x100: the code stores into 0x9b, the intended slot is 0x2c |
| Plic.NextSources | sw/SoC/lib/uninasoc/src/plic.c:27-28 | the new source count is the requested one exactly when it is below MAX_SOURCES (or already equal); otherwise the current count is kept, so the count never exceeds 3 |
| Plic.PriorityWrites | sw/SoC/lib/uninasoc/src/plic.c:31-33 | one priority write per source 1..n, n writes in all |
| Plic.ConfiguredIsApplied | sw/SoC/lib/uninasoc/src/plic.c:31-33 | performing the priority writes in order yields exactly the configured register state |
| Plic.PriorityZeroIgnored | sw/SoC/lib/uninasoc/src/plic.c:31-33 | `priorities[0]` is never read: changing it changes no write |
| Plic.PriorityRegisterSet | sw/SoC/lib/uninasoc/src/plic.c:31-33 | after configuring, the priority register base+4·i of each source i in 1..n holds `priorities[i]` |
| Plic.PriorityRegsAre | sw/SoC/lib/uninasoc/src/plic.c:31-32 | the registers written are exactly base+4·i for i in 1..n |
| Plic.ConfiguredLeavesOthers | sw/SoC/lib/uninasoc/src/plic.c:31-33 | configuring leaves every other register as it was |
| Plic.PriorityWritten | sw/SoC/lib/uninasoc/src/plic.c:31-33 | the write set of configure is exactly the priority registers of sources 1..n |
| Plic.EnableSumClosedForm | sw/SoC/lib/uninasoc/src/plic.c:39-46 | the sum of 2^i for i = 1..n is 2^(n+1) - 2 |
| Plic.EnableWordBits | sw/SoC/lib/uninasoc/src/plic.c:39-47 | for every reachable count n <= 3, bit b of the enable word is set iff 1 <= b <= n; bit 0 is clear; the word is 0xE for n = 3 |
| Plic.Controller.constructor | sw/SoC/lib/uninasoc/src/plic.c:13-17 | the source count starts at MAX_SOURCES = 3 |
| Plic.Controller.Init | sw/SoC/lib/uninasoc/src/plic.c:19-23 | `plic_init` returns OK and touches no register |
| Plic.Controller.Configure | sw/SoC/lib/uninasoc/src/plic.c:25-35 | as written: it needs an entry at index count, one more than the array of source_num entries documented at sw/SoC/lib/uninasoc/inc/plic.h:30-32 (see Findings); the count becomes NextSources(old count, source_num); the log gains exactly the priority writes for 1..count and memory becomes the configured state; the copy at sw/SoC/common/devices/src/plic.c:11-21 is the same code |
| Plic.ConfigureReadsPastDocumentedEnd | sw/SoC/lib/uninasoc/src/plic.c:27-32 | the last entry the loop reads, index count, is at or past the end of an array of source_num entries exactly when source_num is accepted (below MAX_SOURCES) or equals the count kept; with the default count 3 and source_num 3 it reads index 3 of a 3-entry array |
| Plic.IntendedWrites | sw/SoC/lib/uninasoc/inc/plic.h:30-32 | one priority write per source 1..n, of the array entry i-1, n writes in all |
| Plic.IntendedIsPadded | sw/SoC/lib/uninasoc/src/plic.c:31-33 | writing `priorities[i-1]` to source i is exactly the code's loop on the array shifted by one entry, for the writes and the register state alike |
| Plic.IntendedIsApplied | sw/SoC/lib/uninasoc/src/plic.c:31-33 | performing the intended writes in order yields exactly the intended register state |
| Plic.IntendedRegisterSet | sw/SoC/lib/uninasoc/inc/plic.h:30-32 | with an array of source_num entries, the priority register of each source i in 1..count holds `priorities[i-1]` |
| Plic.Controller.ConfigureIntended | sw/SoC/lib/uninasoc/src/plic.c:25-35 | with only as many entries as the count, the count becomes NextSources(old count, source_num), the log gains exactly the intended priority writes and memory becomes the intended configured state |
| Plic.Controller.EnableAll | sw/SoC/lib/uninasoc/src/plic.c:37-48 | exactly one write, of EnableWord(count) to the context-0 enable register; the copy at sw/SoC/common/devices/src/plic.c:23-34 is the same code, and its header sw/SoC/common/devices/inc/plic.h:13 defines the enable register |
| Plic.Controller.Claim | sw/SoC/lib/uninasoc/src/plic.c:50-52 | one read of the claim register, whose value (0 included) is returned; memory unchanged; the copy at sw/SoC/common/devices/src/plic.c:36-38 has the same body, but its header sw/SoC/common/devices/inc/plic.h defines only PLIC and PLIC_INT_ENABLE_CTX0, not the PLIC_CLAIM_CTX0 it reads, so that copy does not build as shipped |
| Plic.Controller.Complete | sw/SoC/lib/uninasoc/src/plic.c:54-56 | one write of the id to the claim/complete register; the copy at sw/SoC/common/devices/src/plic.c:40-42 has the same body, but its header sw/SoC/common/devices/inc/plic.h does not define the PLIC_COMPLETE_CTX0 it writes, so that copy does not build as shipped |
| Dispatch.HandlingShape | sw/SoC/common/devices/src/interrupts.c:32-58 | one run claims exactly once, first; initialises the output GPIO right after; completes exactly once, last, with the claimed id; ids other than 1 (when embedded) and 2 cause no device action |
| Dispatch.ActionsKeepServing | sw/SoC/common/devices/src/interrupts.c:37-55 | the device calls of each `switch` case (toggle PIN_0 and clear the GPIO-in interrupt for id 1, toggle PIN_1 and clear the timer interrupt for id 2) are allowed while serving that id |
| Dispatch.HandlingFollowsProtocol | sw/SoC/common/devices/src/interrupts.c:32-58 | from idle, a run of the handler follows the claim/complete protocol and ends idle, for every id |
| Dispatch.RunsFollowProtocol | sw/SoC/common/devices/src/interrupts.c:32-58 | any sequence of handler runs keeps the protocol: every claim is completed, with its own id, before the next |
| Dispatch.PlaceholderFollowsProtocol | sw/SoC/lib/uninasoc/src/irq_handlers.c:27-46 | the placeholder handler's trace is claim then complete of the same id, follows the protocol, and drives no device |
| Dispatch.Board.constructor | sw/SoC/common/devices/src/interrupts.c:32-58 | a board starts with an empty trace of device calls |
| Dispatch.Board.Claim | sw/SoC/common/devices/src/interrupts.c:32 | one read of the claim register; the claimed id is recorded |
| Dispatch.Board.Complete | sw/SoC/common/devices/src/interrupts.c:58 | one write of the id to the claim/complete register; the completion is recorded |
| Dispatch.Board.Call | sw/SoC/common/devices/src/interrupts.c:35-50 | a device routine outside the model only appends its call to the trace |
| Dispatch.Board.ExtHandler | sw/SoC/common/devices/src/interrupts.c:24-59 | `_ext_handler`: the trace gains exactly Handling(id) for the claimed id; the PLIC sees one read of the claim register and one write of the same id, and nothing else of memory changes |
| Dispatch.Board.PlaceholderExtHandler | sw/SoC/lib/uninasoc/src/irq_handlers.c:18-47 | the runtime library's `_ext_handler`: the trace gains exactly [claim id, complete id]; one read and one write of the claim register |
| Timer.Check | sw/SoC/lib/uninasoc/src/xlnx_tim.c:30-36 | the assert accepts a descriptor exactly when its base is TIM0's or TIM1's |
| Timer.ConfigWord | sw/SoC/lib/uninasoc/src/xlnx_tim.c:54-68 | the mode word always has LOAD0 (bit 5); it has ARHT0 (bit 4) iff the reload mode is AUTO and UDT0 (bit 1) iff counting down; no other bit is set |
| Timer.EnableIntWord | sw/SoC/lib/uninasoc/src/xlnx_tim.c:82-83 | ENIT0 (bit 6) is set and every other bit is kept |
| Timer.ClearIntWord | sw/SoC/lib/uninasoc/src/xlnx_tim.c:95-97 | T0INT (bit 8) is set and every other bit is kept |
| Timer.StartWord | sw/SoC/lib/uninasoc/src/xlnx_tim.c:108-112 | LOAD0 (bit 5) is cleared, ENT0 (bit 7) set, every other bit kept |
| Timer.BringUp | sw/SoC/lib/uninasoc/src/xlnx_tim.c:45-115 | configure, enable_int and start in a row leave the configured modes, interrupts enabled, the timer enabled, LOAD0 down and T0INT clear |
| Timer.Init | sw/SoC/lib/uninasoc/src/xlnx_tim.c:39-43 | `xlnx_tim_init` returns OK and performs no access |
| Timer.Configure | sw/SoC/lib/uninasoc/src/xlnx_tim.c:45-73 | on a failed assert: ERROR and no access; otherwise exactly TLR0 := counter then TCSR0 := ConfigWord, nothing else |
| Timer.EnableInt | sw/SoC/lib/uninasoc/src/xlnx_tim.c:75-86 | ERROR with no access, or one read of TCSR0 and one write of EnableIntWord of what was read |
| Timer.ClearInt | sw/SoC/lib/uninasoc/src/xlnx_tim.c:88-100 | ERROR with no access, or one read of TCSR0 and one write of ClearIntWord of what was read |
| Timer.Start | sw/SoC/lib/uninasoc/src/xlnx_tim.c:102-115 | ERROR with no access, or one read of TCSR0 and one write of StartWord of what was read |
| TimerCommon.FixedConfigIsAutoReloadDown | sw/SoC/common/devices/src/xlnx_tim.c:5-15 | the fixed word 0x32 is bits 1, 4 and 5, the library's word for auto reload counting down |
| TimerCommon.Configure | sw/SoC/common/devices/src/xlnx_tim.c:12-16 | TIM0 only: TLR0 := counter, then TCSR0 := 0x32, nothing else |
| TimerCommon.EnableInt | sw/SoC/common/devices/src/xlnx_tim.c:18-23 | one read of TCSR0 and one write with ENIT0 set and the other bits kept |
| TimerCommon.Start | sw/SoC/common/devices/src/xlnx_tim.c:25-32 | one read of TCSR0 and one write with LOAD0 cleared, ENT0 set and the other bits kept |
| GpioIn.HalfWord.constructor | sw/SoC/lib/uninasoc/src/xlnx_gpio_in.c:53 | the `uint16_t` cell `data` points to, holding the given value |
| GpioIn.Check | sw/SoC/lib/uninasoc/src/xlnx_gpio_in.c:27-33 | the assert accepts a descriptor exactly when its base is GPIO_IN_BASEADDR |
| GpioIn.InitWritesTouch | sw/SoC/lib/uninasoc/src/xlnx_gpio_in.c:41-49 | init writes nothing iff interrupts are disabled; otherwise it writes IER (0x128) first and GIER (0x11C) last, and no other register |
| GpioIn.InitEnables | sw/SoC/lib/uninasoc/src/xlnx_gpio_in.c:44-49 | after an enabling init, channel 1's interrupt bit is set in IER and the global enable bit in GIER |
| GpioIn.Init | sw/SoC/lib/uninasoc/src/xlnx_gpio_in.c:35-51 | on a failed assert: ERROR and no access; otherwise exactly the init writes (IER := 1, GIER := 0x80000000 when enabling, nothing otherwise) |
| GpioIn.Read | sw/SoC/lib/uninasoc/src/xlnx_gpio_in.c:53-62 | ERROR and no access, or one 16-bit read of the data register whose value is stored through `data`; memory unchanged |
| GpioIn.ClearInt | sw/SoC/lib/uninasoc/src/xlnx_gpio_in.c:64-75 | ERROR and no access, or one write of 0x1 to ISR (0x120) |
| Gpio.StructOffset | sw/SoC/common/devices/inc/xlnx_gpio.h:22-31 | the `GPIO_Peripheral` offsets agree with the register map except `ier`, which lands 4 bytes before IP_IER |
| Gpio.StructOffsetIsLayout | sw/SoC/common/devices/inc/xlnx_gpio.h:22-31 | those offsets are the ones a C compiler assigns to the declared 32-bit members in order |
| Gpio.PinMask | sw/SoC/common/devices/src/xlnx_gpio.c:18-20 | the 16-bit pin mask is zero-extended to 32 bits before the bit operations |
| Gpio.SetPins | sw/SoC/common/devices/src/xlnx_gpio.c:17-18 | INPUT mode: the selected tri bits become set and every other bit is kept |
| Gpio.ClearPins | sw/SoC/common/devices/src/xlnx_gpio.c:19-20 | other modes: the selected tri bits become clear and every other bit, the upper half included, is kept |
| Gpio.DocumentedEnable | sw/SoC/common/devices/src/xlnx_gpio.c:7-13 | corrected: with the data-sheet register map, enabling sets IER to 1 and GIER to 0x80000000 and writes nothing else |
| Gpio.DeclaredEnableMissesIer | sw/SoC/common/devices/src/xlnx_gpio.c:7-13 | as written: through the declared struct, enabling leaves IP_IER (0x128) as it was and stores 1 into 0x124 |
| Gpio.ConfigureEffect | sw/SoC/common/devices/src/xlnx_gpio.c:15-24 | configuring leaves the new direction word in tri and writes nothing but tri and, when enabling, ier and gier |
| Gpio.EnableInt | sw/SoC/common/devices/src/xlnx_gpio.c:7-13 | exactly two writes: ier := 1, then gier := 0x80000000, at the offsets of the chosen layout |
| Gpio.Configure | sw/SoC/common/devices/src/xlnx_gpio.c:15-24 | one read-modify-write of tri (set or clear the pins by mode), then the interrupt enable writes when asked for |
| Gpio.Handler | sw/SoC/common/devices/src/xlnx_gpio.c:26-38 | reads the input data word, writes it to the output data register, then writes 1 to the input's ISR; nothing else changes |
| Stdlib.ToUnsignedChar | sw/SoC/common/stdlib.h:20-22 | the stored byte is the one congruent to `val` modulo 256 (the `int` to `unsigned char` conversion) |
| Stdlib.Memcpy | sw/SoC/common/stdlib.h:12-16 | the first n bytes of dest equal the first n bytes src held on entry, which src still holds (also when dest and src are the same array); every byte of dest beyond n is unchanged |
| Stdlib.Memset | sw/SoC/common/stdlib.h:19-24 | each of the first len bytes holds `(unsigned char) val`, every byte beyond is unchanged, and dest is returned |
| Matmul.AccumulateStep | hw/units/custom_hls_gemm_v1_1/assets/hls_backup/krnl_matmul.cpp:50-54 | one wrapping `outsum +=` step adds the next term of the row-by-column dot product, modulo 2^32 |
| Matmul.LoadRow | hw/units/custom_hls_gemm_v1_1/assets/hls_backup/krnl_matmul.cpp:33-35 | the local row buffer holds row i of A |
| Matmul.LoadColumn | hw/units/custom_hls_gemm_v1_1/assets/hls_backup/krnl_matmul.cpp:45 | the local column buffer holds column j of B (stride DATA_SIZE) |
| Matmul.RowTimesColumn | hw/units/custom_hls_gemm_v1_1/assets/hls_backup/krnl_matmul.cpp:49-54 | the accumulator, starting at zero, ends at the product entry (i, j) wrapped to 32 bits |
| Matmul.KrnlMatmul | hw/units/custom_hls_gemm_v1_1/assets/hls_backup/krnl_matmul.cpp:6-66 | every C[i·4 + j] is the wrapped entry (i, j) of A×B; the stores hit each of the first 16 words once, in row-major order; nothing beyond changes |
| ConvNaive.IndexIInBounds | hw/units/custom_hls_conv_naive/assets/conv_naive/hw/src/krnl_conv_naive.cpp:68-69 | with N_input <= N and C_input <= C, every input index INDEX_I the loops form lies inside SIZE_I |
| ConvNaive.IndexWInBounds | hw/units/custom_hls_conv_naive/assets/conv_naive/hw/src/krnl_conv_naive.cpp:67-69 | with K_input <= K and C_input <= C, every weight index INDEX_W lies inside SIZE_W |
| ConvNaive.IndexOInBounds | hw/units/custom_hls_conv_naive/assets/conv_naive/hw/src/krnl_conv_naive.cpp:76-78 | every output index INDEX_O of a visited pixel lies below N_input·K_input·Y1·X1, which is at most SIZE_O |
| ConvNaive.IndexOInjective | hw/units/custom_hls_conv_naive/assets/conv_naive/hw/src/krnl_conv_naive.cpp:76-78 | distinct visited pixels store to distinct output words |
| ConvNaive.StepS | hw/units/custom_hls_conv_naive/assets/conv_naive/hw/src/krnl_conv_naive.cpp:69 | one wrapping `accumulator +=` adds the next weight-times-input term, modulo 2^32 |
| ConvNaive.AccumulateRow | hw/units/custom_hls_conv_naive/assets/conv_naive/hw/src/krnl_conv_naive.cpp:66-72 | the s loop adds one filter row of one input channel to the accumulator, wrapped |
| ConvNaive.Accumulate | hw/units/custom_hls_conv_naive/assets/conv_naive/hw/src/krnl_conv_naive.cpp:61-74 | a fresh accumulator ends at the pixel's convolution (sum over C_input channels and the 3×3 window, wrapped to 32 bits) |
| ConvNaive.StoreRow | hw/units/custom_hls_conv_naive/assets/conv_naive/hw/src/krnl_conv_naive.cpp:59-79 | the x1 loop stores the row's pixels in increasing index order, each word holding its convolution |
| ConvNaive.StorePlane | hw/units/custom_hls_conv_naive/assets/conv_naive/hw/src/krnl_conv_naive.cpp:58-80 | the y1 loop stores the plane's pixels in increasing index order, each holding its convolution |
| ConvNaive.KrnlConvNaive | hw/units/custom_hls_conv_naive/assets/conv_naive/hw/src/krnl_conv_naive.cpp:10-86 | every visited pixel's output word holds its convolution; the stores go once each to the indices below N_input·K_input·Y1·X1, in increasing order; the words beyond are untouched |
| ConvUtils.InitInputPlane | sw/SoC/examples/custom_hls_conv_naive/inc/utils.h:20-22 | the y and x loops give every word of input plane (n, c) the value y·x + 1 and change no word outside the plane |
| ConvUtils.InitWeightColumn | sw/SoC/examples/custom_hls_conv_naive/inc/utils.h:28-29 | the s loop with the swapped store `W[k][c][s][r]` fills column r of weight plane (k, c), one word per filter row, and nothing else |
| ConvUtils.InitWeightPlane | sw/SoC/examples/custom_hls_conv_naive/inc/utils.h:27-29 | despite the swapped indices, every word of weight plane (k, c) ends as r·s + 1, and no word outside the plane changes |
| ConvUtils.InputPlaneKept | sw/SoC/examples/custom_hls_conv_naive/inc/utils.h:18-22 | filling one input plane keeps the pattern of every other plane |
| ConvUtils.WeightPlaneKept | sw/SoC/examples/custom_hls_conv_naive/inc/utils.h:25-29 | filling one weight plane keeps the pattern of every other plane |
| ConvUtils.InitInput | sw/SoC/examples/custom_hls_conv_naive/inc/utils.h:17-22 | every word of I at (n, c, y, x) holds y·x + 1 |
| ConvUtils.InitWeights | sw/SoC/examples/custom_hls_conv_naive/inc/utils.h:24-29 | every word of W at (k, c, r, s) holds r·s + 1 |
| ConvUtils.InitOutput | sw/SoC/examples/custom_hls_conv_naive/inc/utils.h:31-36 | every word of O holds 0x55555555 |
| ConvUtils.InitData | sw/SoC/examples/custom_hls_conv_naive/inc/utils.h:11-38 | `init_data` leaves the three tensors, which do not alias, holding the three patterns together |
| ConvUtils.AddStep | sw/SoC/examples/custom_hls_conv_naive/inc/utils.h:55 | one wrapping `+=` of a 32-bit product advances the word by the next term of the filter row, modulo 2^32 |
| ConvUtils.AddWindowRow | sw/SoC/examples/custom_hls_conv_naive/inc/utils.h:53-56 | the s loop adds one filter row's products into the pixel's word, wrapped, and touches no other word |
| ConvUtils.NextRow | sw/SoC/examples/custom_hls_conv_naive/inc/utils.h:52-57 | the window sum up to row r + 1 is the sum up to row r plus the products of row r |
| ConvUtils.AddWindow | sw/SoC/examples/custom_hls_conv_naive/inc/utils.h:52-57 | the r and s loops add channel c's 3×3 window into pixel p's word and change nothing else |
| ConvUtils.RowDoneStep | sw/SoC/examples/custom_hls_conv_naive/inc/utils.h:51-58 | adding the window of pixel x1 extends the finished part of the row by one word |
| ConvUtils.AddChannelRow | sw/SoC/examples/custom_hls_conv_naive/inc/utils.h:51-58 | the x1 loop adds its window to every word of row y1 of plane (n, k), and nothing else changes |
| ConvUtils.ChannelDoneStep | sw/SoC/examples/custom_hls_conv_naive/inc/utils.h:50-59 | finishing row y1 extends the finished part of the channel by one row |
| ConvUtils.AddChannel | sw/SoC/examples/custom_hls_conv_naive/inc/utils.h:50-59 | the y1 and x1 loops add channel c's windows to every word of plane (n, k), and nothing else changes |
| ConvUtils.ChannelSumIsSumC | sw/SoC/examples/custom_hls_conv_naive/inc/utils.h:49-60 | summing the windows channel by channel gives the reference sum over the channels |
| ConvUtils.PlaneDoneStep | sw/SoC/examples/custom_hls_conv_naive/inc/utils.h:49-60 | adding one channel's windows to the whole plane extends the plane's sums by one channel |
| ConvUtils.AddPlane | sw/SoC/examples/custom_hls_conv_naive/inc/utils.h:49-60 | the c loop adds all C windows to every word of plane (n, k), and nothing else changes |
| ConvUtils.PlaneONext | sw/SoC/examples/custom_hls_conv_naive/inc/utils.h:47-48 | the output plane after (n, k) in loop order starts right where (n, k) ends, also across a change of n |
| ConvUtils.InPlane | sw/SoC/examples/custom_hls_conv_naive/inc/utils.h:47-48 | a visited pixel whose word lies inside plane (n, k) belongs to that plane |
| ConvUtils.SummedStep | sw/SoC/examples/custom_hls_conv_naive/inc/utils.h:47-62 | finishing plane (n, k) extends the summed prefix of the tensor by that plane |
| ConvUtils.MakeWindow | sw/SoC/examples/custom_hls_conv_naive/inc/utils.h:52-57 | the per-channel window sums exist as a function, and over all channels they add up to the reference sum |
| ConvUtils.SummedAll | sw/SoC/examples/custom_hls_conv_naive/inc/utils.h:47-62 | once every plane is summed, every visited pixel holds its starting value plus its reference sum |
| ConvUtils.ComputeExpected | sw/SoC/examples/custom_hls_conv_naive/inc/utils.h:41-63 | `compute_expected` leaves every output word equal to its starting value plus the sum over c, r and s of the products, each `+=` wrapping modulo 2^32 |
| ConvUtils.CheckRow | sw/SoC/examples/custom_hls_conv_naive/inc/utils.h:75-90 | the x1 loop returns true exactly when row y1 of plane (n, k) agrees word for word |
| ConvUtils.CheckPlane | sw/SoC/examples/custom_hls_conv_naive/inc/utils.h:74-91 | true exactly when plane (n, k) agrees word for word |
| ConvUtils.CheckValues | sw/SoC/examples/custom_hls_conv_naive/inc/utils.h:66-98 | `check_values` returns true exactly when the two output tensors are equal, and false at the first difference |
| ConvUtils.PixelAt | sw/SoC/examples/custom_hls_conv_naive/inc/utils.h:72-75 | every flat output word belongs to a pixel the loops visit |
| ConvUtils.AgreeEverywhere | sw/SoC/examples/custom_hls_conv_naive/inc/utils.h:72-76 | the flat tensors are equal if and only if they agree at every visited pixel |
| ConvUtils.ExpectedIsConv | sw/SoC/examples/custom_hls_conv_naive/inc/utils.h:41-63 | accumulating into a zeroed tensor, as the host does, yields the reference convolution at every pixel |
| ConvUtils.KernelMatchesExpected | sw/SoC/examples/custom_hls_conv_naive/inc/utils.h:66-98 | a kernel output that holds the convolution at every pixel equals the expected tensor, so `check_values` returns true |
| Scan.IsSpace | sw/SoC/examples/tinyIO/src/scan.c:10-24 | true exactly for the six white-space characters of the C locale |
| Scan.IsDigit | sw/SoC/examples/tinyIO/src/scan.c:27-33 | true exactly for the ten decimal digits |
| Scan.DigitValue | sw/SoC/examples/tinyIO/src/scan.c:129 | the value of a digit is below ten |
| Scan.Take | sw/SoC/examples/tinyIO/src/scan.c:179-190 | a character is available unless the slot is empty and the UART has nothing; taking one empties the slot and shrinks the input by one |
| Scan.TakeAfterPushBack | sw/SoC/examples/tinyIO/src/scan.c:180-201 | a pushed-back character is the next one taken, except a zero character, which leaves the slot empty and is lost |
| Scan.Next | sw/SoC/examples/tinyIO/src/scan.c:41 | advancing to the next character strictly shrinks the remaining input |
| Scan.Width | sw/SoC/examples/tinyIO/src/scan.c:72-81 | the width digits run from k to the first non-digit of the format |
| Scan.CloseBracket | sw/SoC/examples/tinyIO/src/scan.c:86-97 | the '[' loop finds the first ']' at or after k, or runs past the terminator when there is none |
| Scan.DirectiveAt | sw/SoC/examples/tinyIO/src/scan.c:63-98 | the specification ends inside the format, and the value is stored exactly when there is no '*' |
| Scan.Convert | sw/SoC/examples/tinyIO/src/scan.c:100-160 | a conversion stores a value exactly for the characters c, u, d, s and ']'; any other character converts nothing |
| Scan.StoredIntIsLow32 | sw/SoC/examples/tinyIO/src/scan.c:134-135 | the `int` that `%d`/`%u` stores is a signed 32-bit value congruent to the `long` result modulo 2^32, and is that result itself whenever it fits in 32 bits |
| Scan.Conversions | sw/SoC/examples/tinyIO/src/scan.c:59-172 | the count of values stored never exceeds the count of conversions |
| Scan.PercentStep | sw/SoC/examples/tinyIO/src/scan.c:61-171 | one '%' conversion that neither blocks nor overruns parses its specification, converts, and the loop goes on from after it |
| Scan.LoopCounts | sw/SoC/examples/tinyIO/src/scan.c:59-172 | the returned count grows by one per conversion, suppressed or not, and one value is stored per conversion without '*', whatever the input |
| Scan.ScanCounts | sw/SoC/examples/tinyIO/src/scan.c:43-176 | `c_scanf` returns the number of conversions in the format and stores one value per unsuppressed conversion |
| Scan.LiteralsConsumeNothing | sw/SoC/examples/tinyIO/src/scan.c:59-172 | characters of the format outside conversions consume no input |
| Scan.LiteralFormat | sw/SoC/examples/tinyIO/src/scan.c:51-176 | a format without '%' returns 0 having taken only the character read before the loop |
| Scan.TrailingPercent | sw/SoC/examples/tinyIO/src/scan.c:61-100 | a format ending right after '%' reads past its terminator |
| Scan.AfterSpacesNotSpace | sw/SoC/examples/tinyIO/src/scan.c:103-106 | `%c` stores a character that is not white space |
| Scan.AfterSignDigit | sw/SoC/examples/tinyIO/src/scan.c:116-124 | the sign loop stops on a digit and the sign stays 1 or -1 |
| Scan.MinusBeforeDigits | sw/SoC/examples/tinyIO/src/scan.c:117-124 | a '-' before the digits makes the sign -1 |
| Scan.DigitsStep | sw/SoC/examples/tinyIO/src/scan.c:126-132 | without a width, one turn of the digit loop multiplies by ten, adds the digit and moves on |
| Scan.DigitsDecimal | sw/SoC/examples/tinyIO/src/scan.c:125-132 | without a width, the digit loop reads the whole digit string, yields its decimal value and stops on the first non-digit |
| Scan.DigitsWithinWidth | sw/SoC/examples/tinyIO/src/scan.c:126-132 | with a width, the digit loop takes at most `len` characters |
| Scan.StringShape | sw/SoC/examples/tinyIO/src/scan.c:144-153 | the string loop stores no new-line, stores at most `len` characters when a width is given, and stops on a new-line or an exhausted width |
| Scan.Console.constructor | sw/SoC/examples/tinyIO/src/scan.c:179 | the push-back slot starts empty |
| Scan.Console.GetCh | sw/SoC/examples/tinyIO/src/scan.c:180-190 | the pushed-back character first, clearing the slot; otherwise the next UART character; the pending input shrinks only in the second case |
| Scan.Console.GetBackCh | sw/SoC/examples/tinyIO/src/scan.c:193-201 | the slot holds b afterwards, and the result is true exactly when a character was there and is now lost |
| Scan.Console.SkipSpaces | sw/SoC/examples/tinyIO/src/scan.c:103-104 | the white-space loop of `%c` agrees with its specification function |
| Scan.Console.SkipToDigit | sw/SoC/examples/tinyIO/src/scan.c:116-124 | the sign loop agrees with its specification function |
| Scan.Console.ReadDigits | sw/SoC/examples/tinyIO/src/scan.c:125-132 | the digit loop agrees with its specification function |
| Scan.Console.ReadString | sw/SoC/examples/tinyIO/src/scan.c:144-153 | the string loop agrees with its specification function |
| Scan.Console.ReadConversion | sw/SoC/examples/tinyIO/src/scan.c:100-160 | the switch agrees with its specification function |
| Scan.Console.ScanDirective | sw/SoC/examples/tinyIO/src/scan.c:61-171 | one '%' turn of the format loop either ends the scan as the specification does or leaves the format pointer further on with the same remaining result |
| Scan.Console.Scanf | sw/SoC/examples/tinyIO/src/scan.c:43-176 | `c_scanf` returns the outcome its specification gives for the format and the input, and leaves the console state the outcome names |
| Scan.ScanWidth | sw/SoC/examples/tinyIO/src/scan.c:72-81 | the width loop agrees with `Width` |
| Scan.ScanSet | sw/SoC/examples/tinyIO/src/scan.c:86-97 | the '[' loop agrees with `CloseBracket` |
| Scan.ParseDirective | sw/SoC/examples/tinyIO/src/scan.c:63-98 | the parsing of a specification agrees with `DirectiveAt` |
| Configuration.DataWidthsArePowersOfTwo | config/scripts/configuration.py:79-88 | the data widths the search finds are exactly the powers of two from 2^5 to 2^10 |
| Configuration.LiteDataWidthsAreAxi4Widths | config/scripts/configuration.py:89-92 | every data width AXI4LITE admits is admitted by AXI4 as well |
| Configuration.SearchDataWidth | config/scripts/configuration.py:83-88 | the doubling search from 32 up to 1024 finds the value exactly when it is one of 32, 64, 128, 256, 512, 1024 |
| Configuration.Configuration.constructor | config/scripts/configuration.py:12-51 | a new configuration holds the documented defaults: no name, core or protocol, 32-bit widths, ID width 4, no interfaces, one address range, empty lists, main clock 100 |
| Configuration.Configuration.SetAddrWidth | config/scripts/configuration.py:58-75 | a DISABLE bus keeps its address width; every other protocol stores the value, admitted or not (the rejected case only warns), and nothing else changes |
| Configuration.Configuration.SetDataWidth | config/scripts/configuration.py:77-96 | the data width is stored exactly when the protocol admits it (32 or 64 for AXI4LITE, a power of two from 32 to 1024 for AXI4 and AXI3); otherwise nothing changes |
| PropertyLists.Parsed | config/axi_memory_map/parse_properties_impl.py:200-203 | one `int()` result per value, in order, `None` where `int()` raises |
| PropertyLists.Clamp | config/axi_memory_map/parse_properties_impl.py:204-207 | the entry kept for a number is the number when it lies in lo..hi and the default otherwise |
| PropertyLists.Repeat | config/axi_memory_map/parse_properties_impl.py:212-214 | n copies of the default, as the loop over a wrong count of values appends them |
| PropertyLists.GridFrom | config/axi_memory_map/parse_properties_impl.py:553-577 | the grid loop appends at most one entry per remaining value |
| PropertyLists.GridFromEntries | config/axi_memory_map/parse_properties_impl.py:553-577 | grid entry k comes from value start + k, which `int()` reads: its number when in lo..hi, its column's default otherwise |
| PropertyLists.GridFromCount | config/axi_memory_map/parse_properties_impl.py:553-577 | the grid loop appends one entry per value exactly when `int()` reads every value |
| PropertyLists.EntriesFrom | config/axi_memory_map/parse_properties_impl.py:202-211 | the per-interface loop appends at most one entry per remaining value |
| PropertyLists.EntriesFromEntries | config/axi_memory_map/parse_properties_impl.py:202-211 | entry k is the number of value start + k when it lies in lo..hi, the default otherwise |
| PropertyLists.EntriesFromCount | config/axi_memory_map/parse_properties_impl.py:202-211 | one entry per value exactly when `int()` accepts every value |
| PropertyLists.GridDefaults | config/axi_memory_map/parse_properties_impl.py:532-538 | the default grid has rows·cols entries |
| PropertyLists.AppendRow | config/axi_memory_map/parse_properties_impl.py:497-512 | the inner loop over one row appends that row's clamped numbers, or stops at the first value `int()` rejects, which then shows the values are not all integers |
| PropertyLists.AppendEntries | config/axi_memory_map/parse_properties_impl.py:201-211 | the per-interface loop appends the clamped entries, and raises `ValueError` exactly when some value is not an integer |
| PropertyLists.AppendRepeat | config/axi_memory_map/parse_properties_impl.py:212-214 | the default loop appends n copies of the default |
| PropertyLists.AppendGrid | config/axi_memory_map/parse_properties_impl.py:553-577 | the nested loop appends the clamped grid entries, and raises `ValueError` exactly when some value is not an integer |
| PropertyLists.AppendGridDefaults | config/axi_memory_map/parse_properties_impl.py:532-538 | the nested default loop appends the default grid |
| PropertyLists.AppendAll | config/axi_memory_map/parse_properties_impl.py:354-356 | the copying loop appends the first n values unchanged |
| PropertyLists.EntriesShape | config/axi_memory_map/parse_properties_impl.py:201-211 | entry k is the clamped number of value k, and there is one entry per value exactly when `int()` reads them all |
| PropertyLists.GridShape | config/axi_memory_map/parse_properties_impl.py:553-577 | grid entry (i, j) is the clamped number of value cols·i + j with the column's default; one entry per value exactly when `int()` reads them all |
| PropertyLists.GridDefaultsShape | config/axi_memory_map/parse_properties_impl.py:532-538 | in the default grid, column 0 of every row holds the first default and every other column the second |
| PropertyLists.PerInterfaceShape | config/axi_memory_map/parse_properties_impl.py:192-216 | a per-interface parser keeps the old list as a prefix; on success it appends exactly n entries, each the value's number when in lo..hi and the default otherwise; a wrong count appends n defaults; `ValueError` is raised exactly when the count is right and some value is not an integer |
| PropertyLists.AppendPerInterface | config/axi_memory_map/parse_properties_impl.py:200-215 | the per-interface loops agree with `PerInterface` |
| PropertyLists.PerGridShape | config/axi_memory_map/parse_properties_impl.py:541-587 | a per-connection parser keeps the old list as a prefix, appends rows·cols entries on success, and raises `ValueError` exactly when the count is right and some value is not an integer |
| PropertyLists.PerGridEntry | config/axi_memory_map/parse_properties_impl.py:484-539 | entry (i, j) is the clamped number of value cols·i + j with the column's default, or that default outright when the count of values is wrong |
| PropertyLists.AppendPerGrid | config/axi_memory_map/parse_properties_impl.py:551-586 | the per-connection loops agree with `PerGrid` |
| ParseProperties.Interfaces | config/axi_memory_map/parse_properties_impl.py:16-33 | NUM_SI or NUM_MI takes the number when `int()` reads it and it lies in 0..16, otherwise keeps its value; `ValueError` exactly when the text is not an integer; no other field changes |
| ParseProperties.Strategy | config/axi_memory_map/parse_properties_impl.py:35-51 | STRATEGY takes the number when it lies in 0..2, otherwise keeps its value; `ValueError` exactly when the text is not an integer |
| ParseProperties.RRegister | config/axi_memory_map/parse_properties_impl.py:53-71 | R_REGISTER is forced to 0 when STRATEGY is 2, otherwise takes a number in 0..1; the text is read with `int()` in every case |
| ParseProperties.Protocol | config/axi_memory_map/parse_properties_impl.py:73-85 | PROTOCOL takes the value exactly when it is AXI4, AXI4LITE or AXI3; nothing else changes |
| ParseProperties.AddrWidth | config/axi_memory_map/parse_properties_impl.py:87-104 | `int(value)` raises ValueError on a non-integer; ADDR_WIDTH takes the number exactly when the protocol admits it (1..64 for AXI4LITE, 12..64 for AXI4 and AXI3), and otherwise the whole configuration is unchanged; no other field ever changes |
| ParseProperties.DataWidth | config/axi_memory_map/parse_properties_impl.py:106-129 | `int(value)` raises ValueError on a non-integer; DATA_WIDTH takes the number exactly when the protocol admits it (32 or 64 for AXI4LITE, a power of two from 32 to 1024 for AXI4 and AXI3), and otherwise the whole configuration is unchanged; no other field ever changes |
| ParseProperties.Widths | config/axi_memory_map/parse_properties_impl.py:131-167 | `int(value)` raises ValueError on a non-integer; each of the seven width fields (ID, the five user widths, ADDR_RANGES) takes the number exactly when it is the named field and the number lies in lo..hi, and otherwise keeps its value; no other field changes, and the configuration changes only when the number is in range |
| ParseProperties.ConnectivityMode | config/axi_memory_map/parse_properties_impl.py:169-190 | SASD when STRATEGY or R_REGISTER is 1, SAMD when STRATEGY is 2, otherwise the value when it is SASD or SAMD; nothing else changes |
| ParseProperties.ConnectivityModeIsAMode | config/axi_memory_map/parse_properties_impl.py:169-190 | a configuration in SASD or SAMD mode stays in one of the two modes after the parser |
| ParseProperties.AcceptanceInSasd | config/axi_memory_map/parse_properties_impl.py:218-235 | in SASD mode the acceptance lists ignore the values and gain a 1 per slave interface |
| ParseProperties.ThreadIdWidth | config/axi_memory_map/parse_properties_impl.py:267-298 | `ValueError` exactly when there is no slave interface (the logarithm of 0); otherwise a 0 per slave interface is appended whatever the values say |
| ParseProperties.CheckHexWords | config/axi_memory_map/parse_properties_impl.py:337-352 | the format check accepts exactly when the property is non-empty, has one value per interface and each is `0x` followed by eight lower-case hexadecimal digits |
| ParseProperties.BaseId | config/axi_memory_map/parse_properties_impl.py:328-360 | parse_BASE_ID changes only BASE_ID |
| ParseProperties.BaseIdAllOrNothing | config/axi_memory_map/parse_properties_impl.py:328-360 | BASE_ID grows by exactly one well-formed ID per slave interface: the given values when all are well-formed, the default 0x00000000 otherwise |
| ParseProperties.IssuingSingleTransaction | config/axi_memory_map/parse_properties_impl.py:362-381 | under AXI3 and AXI4LITE the issuing lists ignore the values and gain a 1 per master interface |
| ParseProperties.AddrFormatAccepts | config/axi_memory_map/parse_properties_impl.py:454-471 | when the format check returns, it accepts exactly when every value is `0x` or `0X` followed by at most 16 lower-case hexadecimal digits |
| ParseProperties.AddrFormatOfWellFormed | config/axi_memory_map/parse_properties_impl.py:454-471 | on well-formed values the format check never raises |
| ParseProperties.CheckRangeBaseAddrs | config/axi_memory_map/parse_properties_impl.py:451-471 | the check loop agrees with its specification, `None` standing for the `IndexError` of a value shorter than two characters |
| ParseProperties.RangeBaseAddrAllOrNothing | config/axi_memory_map/parse_properties_impl.py:439-482 | RANGE_BASE_ADDR either gains one well-formed address per master and range, in order, or stays as it was; a full, well-formed list is always stored |
| ParseProperties.RangeBaseAddrIntended | config/axi_memory_map/parse_properties_impl.py:439-482 | the intended parser never raises, and stores the values exactly when they are all well-formed and one per master and range |
| ParseProperties.RangeBaseAddrMatchesIntended | config/axi_memory_map/parse_properties_impl.py:439-482 | the parser as written stores what the intended one stores whenever it returns, and when it raises the intended one rejects the values |
| ParseProperties.RangeBaseAddrRaisesOnShortValue | config/axi_memory_map/parse_properties_impl.py:458-462 | for one master with one range, the value "0" makes the parser as written raise `IndexError`, where the intended parser reports a format error |
| ParseProperties.RangeAddrWidthBound | config/axi_memory_map/parse_properties_impl.py:493-531 | a range width is kept exactly when it lies in the protocol's range and does not exceed ADDR_WIDTH |
| ParseProperties.ParseInterfaces | config/axi_memory_map/parse_properties_impl.py:16-33 | the parser on a configuration object agrees with `Interfaces` |
| ParseProperties.ParseStrategy | config/axi_memory_map/parse_properties_impl.py:35-51 | agrees with `Strategy` |
| ParseProperties.ParseRRegister | config/axi_memory_map/parse_properties_impl.py:53-71 | agrees with `RRegister` |
| ParseProperties.ParseProtocol | config/axi_memory_map/parse_properties_impl.py:73-85 | agrees with `Protocol` |
| ParseProperties.ParseAddrWidth | config/axi_memory_map/parse_properties_impl.py:87-104 | agrees with `AddrWidth` |
| ParseProperties.ParseDataWidth | config/axi_memory_map/parse_properties_impl.py:106-129 | agrees with `DataWidth`, whose search for the width is the doubling loop |
| ParseProperties.ParseWidths | config/axi_memory_map/parse_properties_impl.py:131-167 | agrees with `Widths` for the field the property name selects |
| ParseProperties.ParseConnectivityMode | config/axi_memory_map/parse_properties_impl.py:169-190 | agrees with `ConnectivityMode` |
| ParseProperties.ParseSlavePriority | config/axi_memory_map/parse_properties_impl.py:192-216 | agrees with the per-interface pattern with priorities 0..16 and default 0, whose shape `PerInterfaceShape` states |
| ParseProperties.ParseAcceptance | config/axi_memory_map/parse_properties_impl.py:218-265 | agrees with the acceptance parser: a 1 per slave in SASD mode, else the per-interface pattern with 1..32 and default 2 |
| ParseProperties.ParseThreadIdWidth | config/axi_memory_map/parse_properties_impl.py:267-298 | agrees with `ThreadIdWidth` |
| ParseProperties.ParseSingleThread | config/axi_memory_map/parse_properties_impl.py:300-326 | agrees with the per-interface pattern with flags 0..1 and default 0 |
| ParseProperties.ParseBaseId | config/axi_memory_map/parse_properties_impl.py:328-360 | agrees with `BaseId` |
| ParseProperties.ParseIssuing | config/axi_memory_map/parse_properties_impl.py:362-408 | agrees with the issuing parser: a 1 per master under AXI3 and AXI4LITE, else the per-interface pattern with 1..32 and default 4 |
| ParseProperties.ParseSecure | config/axi_memory_map/parse_properties_impl.py:410-437 | agrees with the per-interface pattern with flags 0..1 and default 0 |
| ParseProperties.ParseRangeBaseAddr | config/axi_memory_map/parse_properties_impl.py:439-482 | agrees with the parser as written, including its `IndexError` |
| ParseProperties.ParseRangeAddrWidth | config/axi_memory_map/parse_properties_impl.py:484-539 | agrees with the per-range grid with the protocol's lower bound, ADDR_WIDTH as upper bound, and defaults 12 for a master's first range and 0 for the others |
| ParseProperties.ParseConnectivity | config/axi_memory_map/parse_properties_impl.py:541-587 | agrees with the per-connection grid with flags 0..1 and default 1, stored in the list the property name selects |
| Builtins.SplitSpacedRoundTrip | config/axi_memory_map/parse_properties_impl.py:200 | `split()` of non-empty, white-space-free words joined by single spaces gives the words back |
| CrossbarReader.Values | config/axi_memory_map/CrossbarConfigReader.py:190-192 | splitting only a non-empty cell gives the same words as splitting it outright |
| CrossbarReader.ReadPerInterface | config/axi_memory_map/CrossbarConfigReader.py:189-207 | the reader's per-interface loops, guarded by a non-empty cell, agree with the parsers' per-interface pattern |
| CrossbarReader.ReadPerGrid | config/axi_memory_map/CrossbarConfigReader.py:515-560 | the reader's per-connection loops agree with the parsers' grid pattern |
| CrossbarReader.ReadInterfaces | config/axi_memory_map/CrossbarConfigReader.py:11-28 | the reader agrees with the parser `Interfaces`, an empty cell raising `ValueError` in `int()` |
| CrossbarReader.ReadStrategy | config/axi_memory_map/CrossbarConfigReader.py:30-46 | agrees with `Strategy` |
| CrossbarReader.ReadRRegister | config/axi_memory_map/CrossbarConfigReader.py:48-66 | agrees with `RRegister` |
| CrossbarReader.ReadProtocol | config/axi_memory_map/CrossbarConfigReader.py:68-80 | agrees with `Protocol` |
| CrossbarReader.ReadAddrWidth | config/axi_memory_map/CrossbarConfigReader.py:82-99 | agrees with `AddrWidth` |
| CrossbarReader.ReadDataWidth | config/axi_memory_map/CrossbarConfigReader.py:101-124 | agrees with `DataWidth` |
| CrossbarReader.ReadWidths | config/axi_memory_map/CrossbarConfigReader.py:126-160 | agrees with `Widths` for the field the reader's parameter name selects |
| CrossbarReader.ReadConnectivityMode | config/axi_memory_map/CrossbarConfigReader.py:162-183 | agrees with `ConnectivityMode` |
| CrossbarReader.ReadSlavePriority | config/axi_memory_map/CrossbarConfigReader.py:185-208 | agrees with the parsers' slave-priority pattern (0..16, default 0) |
| CrossbarReader.ReadAcceptance | config/axi_memory_map/CrossbarConfigReader.py:210-254 | agrees with the parsers' acceptance pattern (a 1 per slave in SASD mode, else 1..32, default 2) |
| CrossbarReader.ReadThreadIdWidth | config/axi_memory_map/CrossbarConfigReader.py:256-286 | agrees with `ThreadIdWidth` |
| CrossbarReader.ReadSingleThread | config/axi_memory_map/CrossbarConfigReader.py:288-313 | agrees with the single-thread pattern (0..1, default 0) |
| CrossbarReader.ReadBaseId | config/axi_memory_map/CrossbarConfigReader.py:315-346 | agrees with `BaseId` |
| CrossbarReader.ReadIssuing | config/axi_memory_map/CrossbarConfigReader.py:348-392 | agrees with the issuing pattern (a 1 per master under AXI3 and AXI4LITE, else 1..32, default 4) |
| CrossbarReader.ReadSecure | config/axi_memory_map/CrossbarConfigReader.py:394-419 | agrees with the secure pattern (0..1, default 0) |
| CrossbarReader.ReaderRangeBaseAddr | config/axi_memory_map/CrossbarConfigReader.py:421-457 | the reader changes only the range base addresses |
| CrossbarReader.ReaderRangeBaseAddrShape | config/axi_memory_map/CrossbarConfigReader.py:421-457 | the base addresses always grow by one `0x`-and-sixteen-digit address per master and range: the given values when all are well-formed |
| CrossbarReader.ReaderRangeBaseAddrDefaults | config/axi_memory_map/CrossbarConfigReader.py:449-455 | with malformed values, a master's first range gets 0x0000000000100000 and every other range 0xffffffffffffffff |
| CrossbarReader.ReaderAddrIsRangeBaseAddr | config/axi_memory_map/CrossbarConfigReader.py:436-444 | every address the reader accepts, the property parser accepts too |
| CrossbarReader.ReaderAgreesOnWellFormedAddrs | config/axi_memory_map/CrossbarConfigReader.py:445-448 | on well-formed 64-bit addresses the reader and the property parser store the same list |
| CrossbarReader.ReadRangeBaseAddr | config/axi_memory_map/CrossbarConfigReader.py:421-457 | the reader's loops agree with `ReaderRangeBaseAddr` |
| CrossbarReader.ReadRangeWidth | config/axi_memory_map/CrossbarConfigReader.py:459-513 | agrees with the parser's per-range widths |
| CrossbarReader.ReadConnectivity | config/axi_memory_map/CrossbarConfigReader.py:515-560 | agrees with the parser's per-connection flags, in the list the parameter name selects |
| PropertyDispatch.Property | config/axi_memory_map/parse_properties_wrapper.py:14-80 | an empty list, SLAVE_NAMES or an unsupported name leaves the configuration as it was, without error |
| PropertyDispatch.RoutesMatchFields | config/axi_memory_map/parse_properties_wrapper.py:33-63 | every name a shared parser is dispatched for is one that parser stores under |
| PropertyDispatch.DispatchedWidthsAccepted | config/axi_memory_map/parse_properties_wrapper.py:44-54 | for a width property the configuration changes only when the value is an integer within the bounds the dispatcher passes |
| PropertyDispatch.IdWidthInRange | config/axi_memory_map/parse_properties_wrapper.py:44-46 | ID_WIDTH ends in 1..32 unless it keeps its value |
| PropertyDispatch.AddrRangesInRange | config/axi_memory_map/parse_properties_wrapper.py:52-54 | ADDR_RANGES ends in 1..16 unless it keeps its value |
| PropertyDispatch.NumSIInRange | config/axi_memory_map/parse_properties_wrapper.py:35-36 | NUM_SI ends at most 16 unless it keeps its value |
| PropertyDispatch.ParseProperty | config/axi_memory_map/parse_properties_wrapper.py:14-80 | the dispatcher on a configuration object agrees with `Property` |
| AddressRanges.AcceptedWidthsArePositive | config/scripts/check_config.py:93-102 | under AXI4 or AXI4LITE every width the minimum-width loop accepts is at least 1, so the range size 2^width is a whole number |
| AddressRanges.CheckMinWidths | config/scripts/check_config.py:94-102 | the minimum-width loop passes exactly when no width is below 12 under AXI4 or below 1 under AXI4LITE; a width above ADDR_WIDTH only prints an error |
| AddressRanges.LastAddr | config/scripts/check_config.py:110 | `base + ~(~1 << (width - 1))` is base + 2^width - 1, never below the base |
| AddressRanges.OverlapsByIsIntersection | config/axi_memory_map/check_config.py:91-106 | both checkers' overlap tests, the four inclusive clauses and the four strict clauses plus shared endpoints, hold exactly when the two closed ranges intersect |
| AddressRanges.OverlapsEarlier | config/scripts/check_config.py:119-126 | the inner loop finds an overlap exactly when the new range meets one of the earlier ranges |
| AddressRanges.HexParsed | config/scripts/check_config.py:109 | `int(base, 16)` of every base address, in order, `None` where it raises |
| AddressRanges.CheckRanges | config/scripts/check_config.py:106-128 | the range loop agrees with its specification: `ValueError` on a base that is not hexadecimal, `False` on an unaligned base or an overlap, falling off the end otherwise |
| AddressRanges.RangeCheckFromAccepts | config/scripts/check_config.py:106-128 | from any well-formed prefix, the loop falls off the end exactly when all ranges are well formed |
| AddressRanges.RangeCheckAccepts | config/scripts/check_config.py:104-128 | the range loop never returns `True`; it falls off the end exactly when every base parses, is aligned to its size and no two ranges intersect |
| AddressRanges.RangeChecksAgreeFrom | config/axi_memory_map/check_config.py:80-110 | from any point, the inclusive and the strict-or-shared loops reach the same verdict |
| AddressRanges.RangeChecksAgree | config/axi_memory_map/check_config.py:80-110 | the two checkers' range loops reach the same verdict on every bus |
| CheckConfig.IntraConfigAccepts | config/scripts/check_config.py:63-128 | `check_intra_config` falls off the end (its success) exactly when the core selection, protocol, list lengths, minimum widths and ranges are valid, and otherwise returns `False` or raises `ValueError`; it never returns `True` |
| CheckConfig.RangeCheckEnds | config/scripts/check_config.py:106-128 | the range loop ends in `None`, `False` or `ValueError` and nothing else |
| CheckConfig.CheckIntraConfig | config/scripts/check_config.py:63-128 | the checker on a configuration object agrees with `IntraConfig` |
| CheckConfig.Mask | config/scripts/check_config.py:147 | the range mask of a width of at least 1 is 2^width - 1 |
| CheckConfig.Contained | config/scripts/check_config.py:145-158 | the containment test of one child bus stops only with `False` or an exception |
| CheckConfig.ChildrenFrom | config/scripts/check_config.py:143-158 | the loop over the child buses stops only with `False` or an exception |
| CheckConfig.RangesFrom | config/scripts/check_config.py:139-158 | the loop over a parent's ranges stops only with `False` or an exception |
| CheckConfig.InterFrom | config/scripts/check_config.py:135-159 | `check_inter_config` returns `True`, `False` or raises, never `None` |
| CheckConfig.ContainedIntended | config/scripts/check_config.py:145-158 | with the child's last range sized by its own width, the test passes exactly when the child's span lies inside the parent range |
| CheckConfig.ChildrenFromIntended | config/scripts/check_config.py:143-158 | the intended child loop passes exactly when every child named by the range lies inside it |
| CheckConfig.RangesFromIntended | config/scripts/check_config.py:139-158 | the intended range loop passes exactly when every child bus of the parent lies inside its range |
| CheckConfig.InterFromIntended | config/scripts/check_config.py:137-159 | the intended bus loop returns `True` exactly when every parent's children lie inside their ranges |
| CheckConfig.InterConfigIntendedAccepts | config/scripts/check_config.py:135-159 | the intended cross-bus check returns `True` exactly when every child bus lies inside its parent's range |
| CheckConfig.InterConfigIndexesChildByParentRange | config/scripts/check_config.py:152 | a main bus whose second range is the peripheral bus, and a one-range peripheral bus filling it: the check as written reads the child's width at the parent's index 1 and raises `IndexError`; the intended check accepts |
| CheckConfig.Maps | config/scripts/check_config.py:164-185 | one address map per configuration object, in order |
| CheckConfig.CheckChildren | config/scripts/check_config.py:143-158 | the child loop agrees with `ChildrenFrom` as written |
| CheckConfig.CheckRangesOfParent | config/scripts/check_config.py:139-158 | the range loop agrees with `RangesFrom` as written |
| CheckConfig.CheckInterConfig | config/scripts/check_config.py:135-159 | `check_inter_config` agrees with the check as written |
| MemoryMapCheck.SingleConfigAccepts | config/axi_memory_map/check_config.py:47-110 | `check_single_config` falls off the end exactly when protocol, list lengths, minimum widths and ranges are valid, and otherwise returns `False` or raises `ValueError` |
| MemoryMapCheck.SingleConfigAgreesWithIntraConfig | config/axi_memory_map/check_config.py:47-110 | on a bus whose core selection is valid, both checkers give the same verdict |
| MemoryMapCheck.CheckSingleConfig | config/axi_memory_map/check_config.py:47-110 | the checker on a configuration object agrees with `SingleConfig` |
| MemoryMapCheck.StatusIsLastVerdict | config/axi_memory_map/check_config.py:117-120 | as written, the status after the loop is the last bus's verdict, whatever the others returned |
| MemoryMapCheck.FailsFromSomeBus | config/axi_memory_map/check_config.py:119-123 | some bus from i on fails exactly when the intended fold reports a failure |
| MemoryMapCheck.IntendedStatusFromFails | config/axi_memory_map/check_config.py:117-123 | as intended, the status is `False` exactly when it already was or some later bus fails |
| MemoryMapCheck.Basename | config/axi_memory_map/check_config.py:130 | `split('/')[-1]` contains no slash and is no longer than the path |
| MemoryMapCheck.BasenameIsSuffix | config/axi_memory_map/check_config.py:130 | `split('/')[-1]` is the whole path when it has no slash, and otherwise the text after the last slash |
| MemoryMapCheck.WarnChildren | config/axi_memory_map/check_config.py:129-133 | every warning issued for range j names that range's bus |
| MemoryMapCheck.WarnRanges | config/axi_memory_map/check_config.py:127-133 | every warning names a bus of `BUS_NAMES` |
| MemoryMapCheck.WarnFrom | config/axi_memory_map/check_config.py:126-133 | every warning of the pass names a bus of `BUS_NAMES` |
| MemoryMapCheck.Finish | config/axi_memory_map/check_config.py:122-135 | the check never returns `True`; a failing status returns `False` before any warning |
| MemoryMapCheck.ConfigsCheckedFollowsLastBus | config/axi_memory_map/check_config.py:116-135 | as written, the whole check fails exactly when the last bus fails |
| MemoryMapCheck.ConfigsCheckedIntendedFails | config/axi_memory_map/check_config.py:116-135 | as intended, the whole check fails exactly when some bus fails |
| MemoryMapCheck.ConfigsCheckedKeepsOnlyLastStatus | config/axi_memory_map/check_config.py:119-123 | a main bus with protocol AXI3 followed by a valid empty peripheral bus passes the check as written and fails the intended one |
| MemoryMapCheck.WarnForRange | config/axi_memory_map/check_config.py:129-133 | the file-name loop agrees with `WarnChildren` |
| MemoryMapCheck.WarnForBus | config/axi_memory_map/check_config.py:127-133 | the range loop agrees with `WarnRanges` |
| MemoryMapCheck.WarnForAll | config/axi_memory_map/check_config.py:126-133 | the warning pass agrees with `WarnFrom` |
| MemoryMapCheck.CheckConfigs | config/axi_memory_map/check_config.py:116-135 | `check_configs` agrees with the check as written |
| BusMacros.BusNames | config/scripts/declare_and_concat_buses_rtl.py:119-146 | the buses of a side exist exactly when the name list covers the count (otherwise `IndexError`), one per interface in index order, named `<master>_to_<bus>` or `<bus>_to_<slave>` |
| BusMacros.BusNamesDistinct | config/scripts/declare_and_concat_buses_rtl.py:132-138 | distinct peers give distinct bus names, so no bus is declared twice |
| BusMacros.DeclaredNameOfLine | config/scripts/declare_and_concat_buses_rtl.py:140-145 | every declaration line carries its bus's name between the macro prefix and suffix, and the name reads back from the line |
| BusMacros.DeclareLines | config/scripts/declare_and_concat_buses_rtl.py:132-145 | one declaration line per bus, in the order of the buses |
| BusMacros.Reversed | config/scripts/declare_and_concat_buses_rtl.py:105-108 | the reverse of a list, element by element |
| BusMacros.ListedAppend | config/scripts/declare_and_concat_buses_rtl.py:105-108 | the argument text of two lists joined is the two texts joined |
| BusMacros.ListedReversedAppend | config/scripts/declare_and_concat_buses_rtl.py:105-108 | one more bus puts it at the head of the concatenation's arguments |
| BusMacros.ListedLastFirstReversed | config/scripts/declare_and_concat_buses_rtl.py:105-108 | listing the buses last first, as the concatenation macro does, is listing the reversed list |
| BusMacros.ListReversed | config/scripts/declare_and_concat_buses_rtl.py:105-108 | the loop builds the argument list of the buses in reverse order, `, <last>, ..., <first>` |
| BusMacros.ConcatLines | config/scripts/declare_and_concat_buses_rtl.py:111-114 | a side's concatenation is two lines, the array declaration and the macro |
| BusMacros.NumberThenParen | config/scripts/declare_and_concat_buses_rtl.py:114 | the decimal digits of a count followed by '(' read back as the count |
| BusMacros.ConcatCountReadsBack | config/scripts/declare_and_concat_buses_rtl.py:114 | the number in the concatenation macro's name is the number of buses concatenated, and reads back from the line |
| BusMacros.DeclareBusLines | config/scripts/declare_and_concat_buses_rtl.py:119-146 | `declare_buses` appends one declaration per bus of the side and returns the buses, or raises `IndexError` on a short name list |
| BusMacros.ConcatBusLines | config/scripts/declare_and_concat_buses_rtl.py:73-114 | `concat_buses` appends the side's array declaration and concatenation macro |
| DeclareBuses.Layout | config/scripts/declare_and_concat_buses_rtl.py:150-172 | where each section of the assembled file lies: the header lines, then masters, slaves and both concatenations |
| DeclareBuses.FileLinesLayout | config/scripts/declare_and_concat_buses_rtl.py:150-172 | the file is nine fixed lines plus one per master and one per slave; the headers sit between the sections and each side's array declaration and concatenation macro close the file, masters before slaves |
| DeclareBuses.FileLinesDeclareMasters | config/scripts/declare_and_concat_buses_rtl.py:158-160 | line `2 + i` declares the bus of master `i`, for every master, in index order |
| DeclareBuses.FileLinesDeclareSlaves | config/scripts/declare_and_concat_buses_rtl.py:162-164 | line `3 + numMasters + j` declares the bus of slave `j`, for every slave, in index order |
| DeclareBuses.BusesFileExists | config/scripts/declare_and_concat_buses_rtl.py:150-172 | the file is produced exactly when both name lists cover their counts, and it is then the file of `NUM_SI` master buses and `NUM_MI` slave buses |
| DeclareBuses.DeclareAndConcatBuses | config/scripts/declare_and_concat_buses_rtl.py:150-176 | `declare_and_concat_buses` writes the lines `BusesFile` gives for the configuration, or raises `IndexError` |
| DeclareBuses.WriteBusesFile | config/scripts/declare_and_concat_buses_rtl.py:150-172 | the body, for any headers and macros, agrees with `BusesFile` |
| RewriteBuses.SectionOf | config/axi_memory_map/declare_and_concat_buses_rtl.py:125-176 | a line opens no section exactly when it contains none of the four headers |
| RewriteBuses.FindTrailing | config/axi_memory_map/declare_and_concat_buses_rtl.py:133-134 | the scan stops at the first line from j on that holds the trailer; `None` (the `IndexError`) exactly when no later line holds it |
| RewriteBuses.SectionStep | config/axi_memory_map/declare_and_concat_buses_rtl.py:125-174 | one section: its kept lines, the generated lines and its trailer line, then the rest of the file from after the trailer |
| RewriteBuses.SectionFails | config/axi_memory_map/declare_and_concat_buses_rtl.py:125-174 | a section raises `IndexError` when its header is too close to the end, its trailer is missing or a name list is short |
| RewriteBuses.PlainStep | config/axi_memory_map/declare_and_concat_buses_rtl.py:176-178 | a line that opens no section is copied |
| RewriteBuses.PlainLinesCopied | config/axi_memory_map/declare_and_concat_buses_rtl.py:176-178 | runs of lines that open no section are copied unchanged and in order |
| RewriteBuses.NoSectionUnchanged | config/axi_memory_map/declare_and_concat_buses_rtl.py:115-180 | a file in which no line opens a section comes out unchanged |
| RewriteBuses.OneSectionRewritten | config/axi_memory_map/declare_and_concat_buses_rtl.py:115-180 | a file with one section keeps everything up to the section's kept lines and from its trailer on, and the generated lines replace the old body |
| RewriteBuses.SkipToTrailer | config/axi_memory_map/declare_and_concat_buses_rtl.py:133-134 | the trailer scan stops at the first line that holds it |
| RewriteBuses.ScanTrailer | config/axi_memory_map/declare_and_concat_buses_rtl.py:133-134 | the scan loop agrees with `FindTrailing` |
| RewriteBuses.GenerateSection | config/axi_memory_map/declare_and_concat_buses_rtl.py:65-112 | a section's generated lines are its side's declarations or its side's array and concatenation, appended after the kept lines; it records the buses a declare section declares |
| RewriteBuses.RewriteSection | config/axi_memory_map/declare_and_concat_buses_rtl.py:125-174 | one section of the loop either raises as the specification does or writes its lines and leaves the rest of the rewrite to the specification from after its trailer |
| RewriteBuses.RewriteSections | config/axi_memory_map/declare_and_concat_buses_rtl.py:117-178 | the line loop agrees with `Rewrite`, `None` standing for the `IndexError` |
| RewriteBuses.LineLength | config/axi_memory_map/declare_and_concat_buses_rtl.py:122 | the first line runs up to and including the first newline, or to the end of the text |
| RewriteBuses.ReadLines | config/axi_memory_map/declare_and_concat_buses_rtl.py:122 | `readlines()` cuts the text into lines that, joined, give the text back |
| RewriteBuses.ReadLinesOfConcat | config/axi_memory_map/declare_and_concat_buses_rtl.py:122 | reading back well-formed lines after joining them gives the same lines |
| RewriteBuses.WrittenFile | config/axi_memory_map/declare_and_concat_buses_rtl.py:179-180 | after `seek(0)` and `writelines` on a file opened "r+", the file starts with the text written and keeps whatever old text lay beyond it |
| RewriteBuses.StaleTailSurvives | config/axi_memory_map/declare_and_concat_buses_rtl.py:179-180 | when the new text is shorter than the old, the file left behind is not the new text and does not read back as its lines |
| RewriteBuses.ShrinkingSectionLeavesStaleTail | config/axi_memory_map/declare_and_concat_buses_rtl.py:179-180 | a file whose one section's generated text is shorter than the body it replaces is left with a stale tail of the old text |
| RewriteBuses.TruncatedFile | config/axi_memory_map/declare_and_concat_buses_rtl.py:179-180 | a file truncated at the end of what was written holds exactly the text written and nothing of the old text |
| RewriteBuses.TruncatedFileReadsBack | config/axi_memory_map/declare_and_concat_buses_rtl.py:179-180 | a truncated file reads back as exactly the lines written |
| RewriteBuses.CompleteAfter | config/axi_memory_map/declare_and_concat_buses_rtl.py:32-50 | text without a newline followed by a complete line is a complete line |
| RewriteBuses.MacrosEndLines | config/axi_memory_map/declare_and_concat_buses_rtl.py:32-50 | every macro prefix and width of the generator holds no newline and every suffix ends its line with its only newline |
| RewriteBuses.BusNamesOneLine | config/axi_memory_map/declare_and_concat_buses_rtl.py:92-111 | bus names built from newline-free names hold no newline |
| RewriteBuses.ListedLastFirstOneLine | config/axi_memory_map/declare_and_concat_buses_rtl.py:66-88 | the listed buses hold no newline when no bus name does |
| RewriteBuses.DeclareLineComplete | config/axi_memory_map/declare_and_concat_buses_rtl.py:96-111 | a declaration line is one complete line |
| RewriteBuses.ConcatLinesComplete | config/axi_memory_map/declare_and_concat_buses_rtl.py:66-88 | the array declaration and the concatenation are each one complete line |
| RewriteBuses.GeneratedComplete | config/axi_memory_map/declare_and_concat_buses_rtl.py:65-112 | every line a section generates is one complete line |
| RewriteBuses.DeclaredOneLine | config/axi_memory_map/declare_and_concat_buses_rtl.py:125-148 | the bus lists a section leaves each side with hold no newline |
| RewriteBuses.WellFormedAppend | config/axi_memory_map/declare_and_concat_buses_rtl.py:122 | two runs of lines join into lines `readlines()` could give when the first run ends with a newline |
| RewriteBuses.SectionWellFormed | config/axi_memory_map/declare_and_concat_buses_rtl.py:125-174 | a section's kept lines, complete generated lines, trailer and a well-formed rest are well formed together |
| RewriteBuses.PlainRewriteWellFormed | config/axi_memory_map/declare_and_concat_buses_rtl.py:176-178 | a copied line ahead of a well-formed rest of the output keeps the output well formed |
| RewriteBuses.SectionRewriteWellFormed | config/axi_memory_map/declare_and_concat_buses_rtl.py:125-174 | a rewritten section ahead of a well-formed rest of the output keeps the output well formed |
| RewriteBuses.RewriteFromWellFormed | config/axi_memory_map/declare_and_concat_buses_rtl.py:117-178 | the rewrite of lines `readlines()` could give, from any line on, is again lines `readlines()` could give |
| RewriteBuses.SectionFromWellFormed | config/axi_memory_map/declare_and_concat_buses_rtl.py:125-174 | the rewrite from a section header whose trailer is found at k is well formed |
| RewriteBuses.RewrittenFileReadsBack | config/axi_memory_map/declare_and_concat_buses_rtl.py:115-180 | when no bus or module name holds a newline, the file rewritten and then truncated reads back as exactly the rewritten lines |
| RewriteBuses.DeclareAndConcatBuses | config/axi_memory_map/declare_and_concat_buses_rtl.py:115-180 | `declare_and_concat_buses` on a file opened "r+" leaves the rewritten text followed by any stale tail of the old text, or raises `IndexError` before writing |
| LinkerScript.ParseWidths | config/scripts/create_linker_script.py:77-81 | the widths are converted exactly when every word converts, one integer per word in order; otherwise the `ValueError` |
| LinkerScript.ReadAll | config/scripts/create_linker_script.py:59-81 | the reading loop raises nothing but `ValueError` |
| LinkerScript.ReadAllStops | config/scripts/create_linker_script.py:59-81 | once a bus raises, the buses after it are not read |
| LinkerScript.Enabled | config/scripts/create_linker_script.py:61-63 | the buses kept are exactly those whose protocol is not DISABLE, in order |
| LinkerScript.ReadEachReadsEvery | config/scripts/create_linker_script.py:65-81 | when reading succeeds, there is one entry per bus and each is what reading that bus alone gives |
| LinkerScript.ReadEachAppend | config/scripts/create_linker_script.py:59-81 | reading one more bus appends its entry, or raises its error |
| LinkerScript.ReadAllSkipsDisabled | config/scripts/create_linker_script.py:59-81 | the loop with its `continue` reads exactly the enabled buses, in order |
| LinkerScript.ConvertWidths | config/scripts/create_linker_script.py:80-81 | the in-place conversion loop agrees with `ParseWidths` |
| LinkerScript.ReadOneBus | config/scripts/create_linker_script.py:65-81 | reading one bus's count, names, bases and widths agrees with the specification of one bus |
| LinkerScript.ReadBuses | config/scripts/create_linker_script.py:59-81 | the reading loop agrees with `ReadAll` |
| LinkerScript.SanityCheck | config/scripts/create_linker_script.py:91-94 | the check passes exactly when every bus lists as many names, bases and widths as its count of slaves |
| LinkerScript.KindOfName | config/scripts/create_linker_script.py:110-119 | BRAM, DDR and HBM are memory blocks; any other name whose last three characters are BUS is a bus; the rest are peripherals |
| LinkerScript.BlockAt | config/scripts/create_linker_script.py:113 | a block has the slave's name, its base read in hexadecimal and a range of 2 to the power of its width; `IndexError` exactly when the bus has too few bases, or a base converts and there are too few widths |
| LinkerScript.BusDevicesGrows | config/scripts/create_linker_script.py:108-125 | sorting a bus keeps the blocks already sorted and adds one block per slave that is not a bus |
| LinkerScript.BusDevicesWellSorted | config/scripts/create_linker_script.py:108-125 | sorting a bus keeps memory blocks and peripherals apart, each on its own side |
| LinkerScript.AllDevicesWellSorted | config/scripts/create_linker_script.py:106-125 | after sorting, every memory block is BRAM, DDR or HBM and every peripheral is neither memory nor a bus |
| LinkerScript.BusDevicesStops | config/scripts/create_linker_script.py:108-125 | once a slave raises, the slaves after it are not sorted |
| LinkerScript.AllDevicesStops | config/scripts/create_linker_script.py:106-125 | once a bus raises, the buses after it are not sorted |
| LinkerScript.ConsistentBusIndexInRange | config/scripts/create_linker_script.py:91-94 | a bus that passes the sanity check raises no `IndexError` when sorted |
| LinkerScript.ConsistentBusesIndexInRange | config/scripts/create_linker_script.py:91-125 | once the sanity check has passed, sorting raises no `IndexError` |
| LinkerScript.SortSlave | config/scripts/create_linker_script.py:109-125 | one iteration of the sorting loop agrees with the specification of one slave |
| LinkerScript.SortBus | config/scripts/create_linker_script.py:109-125 | the loop over a bus, with its counter reset at the bus's end, agrees with `BusDevices` |
| LinkerScript.SortDevices | config/scripts/create_linker_script.py:106-125 | the sorting loop agrees with `AllDevices` |
| LinkerScript.SymbolsOf | config/scripts/create_linker_script.py:151-153 | one pair of symbols per peripheral, in order, starting at its base and ending its range later |
| LinkerScript.Symbols | config/scripts/create_linker_script.py:144-204 | the symbols are produced exactly when there is a memory block; without one the lookup of the boot memory raises `IndexError` |
| LinkerScript.BootMemoryLayout | config/scripts/create_linker_script.py:161-190 | the vector table is 32 words at the base of the first memory block, the stack starts 8 bytes below that block's end, and it lies inside the block exactly when the block holds at least 8 bytes |
| LinkerScript.LinkerScriptAssertion | config/scripts/create_linker_script.py:59-94 | the script raises `AssertionError` exactly when every enabled bus reads well and one of them is inconsistent |
| LinkerScript.BlockErrors | config/scripts/create_linker_script.py:106-125 | sorting raises only `ValueError` or `IndexError` |
| LinkerScript.BusBlockErrors | config/scripts/create_linker_script.py:108-125 | sorting one bus raises only `ValueError` or `IndexError` |
| LinkerScript.LinkerScriptIndexError | config/scripts/create_linker_script.py:91-175 | after a passed sanity check an `IndexError` comes only from a configuration with no memory block |
| LinkerScript.LinkerScriptSorted | config/scripts/create_linker_script.py:106-153 | when the script succeeds, its memory blocks are BRAM, DDR or HBM and its peripheral symbols name slaves that are neither memory nor a bus |
| LinkerScript.CreateLinkerScript | config/scripts/create_linker_script.py:49-204 | the script agrees with its specification from the CSV cells to the symbols it writes |
| LinkerScript.WriteSymbols | config/scripts/create_linker_script.py:144-204 | the peripheral loop and the global symbols agree with `Symbols` |

## Left out

- Console and file I/O are not modelled. This covers pandas' CSV reading, `sys.argv`, file names, `open`/`close`, and the scripts' `print` and logging; warnings and errors are returned as lists where the caller uses them. A script's input is the CSV cells as text, and its output is the lines or values it would write.
- The `read_config` functions of the two generators and their `BUS_NAMES` lookup (a `KeyError` on an unknown file name) are not modelled; a generator starts from one `Configuration`.
- The linker script's text formatting (`format(…, "016x")`, `hex()`) is not modelled; the model stops at the values of the symbols and the order of the blocks. A file opened with "w" and left half written by an exception is not modelled either.
- Builtins.Split: `str.split()` and `str.strip()` are modelled with the ASCII white space (space, `\t`, `\n`, `\r`, `\v`, `\f`) and the separators `\x1c`-`\x1f` only (Builtins.IsWhite). Python also splits on and strips the non-ASCII white space (U+0085, U+00A0, U+1680, U+2000-U+200A, U+2028, U+2029, U+202F, U+205F, U+3000), so the model agrees with Python only on text without those characters. Builtins.Strip and Builtins.ParseInt share this assumption.
- Builtins.ParseInt: Python's `int()` is modelled as ASCII decimal digits with an optional sign, after stripping surrounding white space. Underscores between digits and non-ASCII digits are rejected, although Python accepts them. `int(s, 16)` (Builtins.ParseHex) also takes both letter cases and an optional `0x` or `0X`.
- Python lists passed to and mutated by a helper are values that the helper returns. Aliasing between them is not modelled.
- The crossbar reader acts on the same `Configuration` as the parsers. The defaults of the older `ConfigurationClass` it was written against are not part of this model.
- The interrupt attribute, `mret`, `fence.i` and the CSR inline assembly around the handlers are target-specific and are not modelled. The handlers start at the claim.
- Device routines the external-interrupt handler calls (GPIO toggle, GPIO and timer acknowledge) are recorded as events in order; their own register effects are modelled in the driver modules.
- The common-devices PLIC header (`sw/SoC/common/devices/inc/plic.h`) defines only `PLIC` and `PLIC_INT_ENABLE_CTX0`; the `PLIC_CLAIM_CTX0` and `PLIC_COMPLETE_CTX0` its `plic.c` uses are not defined there, so that copy does not build on its own. Its claim and complete are modelled once, on the runtime library's register map.
- `xlnx_tim_clear_int` is declared by the common-devices timer header but defined nowhere in its source file, so that driver has no clear operation in the model.
- Scan.Console.Scanf: only the default build of `scan.c`, `c_scanf` reading the UART, is modelled. The `C_SSCANF` build compiles a different function instead, `c_sscanf(buff, format, ...)` (sw/SoC/examples/tinyIO/src/scan.c:36-52). It reads a caller's buffer through `PointBuf`, takes no character before the loop, and never pushes a character back after a conversion (scan.c:162-167). Nothing in the repository defines `C_SSCANF`, and sw/SoC/lib/tinyio_/inc/tinyIO.h:26 maps `scanf` to `c_scanf` only, so that build is not part of this model.
- Scan.Scanned: when the UART has no more characters, the real scanner waits forever; the model returns `Blocked` instead. Reading past the end of a malformed format (a trailing `%`, an unclosed `[`) is undefined behaviour in C and is reported as `Overrun`. The `%s` test against `EOF` is dropped, because `char` is unsigned on RISC-V and the test can never be true. A `long` that overflows is undefined behaviour in C; the model keeps the unbounded product and only then applies the conversion to a 32-bit `int` of the `%d`/`%u` store (Scan.StoredInt), so it agrees with C whenever the `long` does not overflow.
- Scan.ScanSet: the characters of a `%[` set are copied, without a bound, into the fixed buffer `stop[LENSCANS]`; a set longer than LENSCANS overflows it, which is undefined behaviour in C. `LENSCANS` is defined in `scan.h`, which is not part of this model, and the buffer is never read afterwards, so the model only finds the closing bracket and does not capture the overflow.
- Stdlib.Memcpy: `dest` and `src` are whole arrays, either distinct or the same one. Partly overlapping buffers (`dest` a few bytes into `src`) cannot be expressed with Dafny arrays, so the model says nothing about the byte loop's result on them.
- Matmul.KrnlMatmul: requires C to be a different array from A and B. With C aliasing B, the stores into C would change the columns loaded later; the model does not capture that case.
- ConvNaive.KrnlConvNaive: requires O to be a different array from I and W, and the runtime sizes N_input, C_input and K_input to be at most the compile-time N, C and K. The kernel itself accepts any sizes and then reads and writes past the tensors; that out-of-bounds behaviour, and aliasing between the tensors, are not modelled.
- RewriteBuses.RewrittenFileReadsBack: holds only when no bus, master or range name contains a newline. Such a name would split a generated line in two when the file is read back, and the generator does not check for it.
- RewriteBuses.WrittenFile: the stale tail is measured in characters, and RewriteBuses.ReadLines splits lines only on `\n`. Python's text mode overwrites encoded bytes and translates universal newlines (`\r\n`, `\r`), so the model assumes ASCII files with `\n` line ends; the stale-tail conclusion is stated for those.
- `print_tensor` and the HLS host programs' polling loops are not modelled; they only print or wait on hardware.
- The other convolution kernels (opt1, opt6, hbus) have the same loop nest as the naive one and rely on a foreign 512-bit HLS type; they are not part of this model.

## Findings

| source | as written | input that shows it | evidently intended | confidence | as-written member | corrected member |
|---|---|---|---|---|---|---|
| sw/SoC/examples/interrupts/src/interrupts.c:9 | `_vector_table_start` is declared as a `const volatile uint32_t` object, so the slot address is computed from the first WORD of the table, not from its address | a table at 0 whose first word is `jal x0, 0` (0x6f), cause 11, handler 0x100: the code writes to 0x9b instead of 0x2c | slot address = address of the table + 4·index | not executed | VectorTable.AsWrittenPatchesWrongSlot | VectorTable.PlanInstall |
| sw/SoC/common/devices/inc/xlnx_gpio.h:28-30 | the register struct places `ier` at offset 0x124, right after `isr` at 0x120; the header's own IP_IER and the AXI GPIO data sheet (PG144) place it at 0x128 | `gpio_enable_int` on any GPIO: 1 is written to 0x124 and IP_IER (0x128) is left as it was | enabling writes 1 to IP_IER at 0x128 | not executed | Gpio.DeclaredEnableMissesIer | Gpio.DocumentedEnable |
| config/axi_memory_map/check_config.py:119-123 | `status` is overwritten for every bus, and only its last value decides the early return | a main bus with protocol AXI3, then a valid peripheral bus with no ranges: the check passes | the whole check fails when any bus fails | not executed | MemoryMapCheck.ConfigsCheckedKeepsOnlyLastStatus | MemoryMapCheck.ConfigsCheckedIntendedFails |
| config/scripts/check_config.py:152 | the child bus's last range width is read at the index of the parent's range | a main bus whose second range is the peripheral bus, and a peripheral bus with one range filling it: `IndexError` | the child's width is read at the child's last index | not executed | CheckConfig.InterConfigIndexesChildByParentRange | CheckConfig.InterConfigIntendedAccepts |
| config/axi_memory_map/parse_properties_impl.py:458-462 | the second character of each base address is read before its length is checked | one master, one range, value "0": `IndexError` | a value too short to be an address is a format error, and nothing is appended | not executed | ParseProperties.RangeBaseAddrRaisesOnShortValue | ParseProperties.RangeBaseAddrIntended |
| config/axi_memory_map/declare_and_concat_buses_rtl.py:179-180 | the rewritten lines are written over a file opened with "r+" and the file is never truncated | a file with one section whose generated text is shorter than the old body: the end of the old text is left after the new one | the file holds exactly the rewritten lines (`truncate()` after writing) | not executed | RewriteBuses.ShrinkingSectionLeavesStaleTail | RewriteBuses.RewrittenFileReadsBack |
| sw/SoC/lib/uninasoc/src/plic.c:31-32 | source i is given `priorities[i]` for i = 1..count, so the loop reads index count, one past the array of source_num entries the header documents (sw/SoC/lib/uninasoc/inc/plic.h:30-32) | `plic_configure(p, 2)` with a 2-entry `p` reads `p[2]`; at the default count, `plic_configure(p, 3)` with a 3-entry `p` reads `p[3]` | source i takes `priorities[i-1]`, so an array of source_num entries is read within bounds | not executed | Plic.ConfigureReadsPastDocumentedEnd | Plic.Controller.ConfigureIntended |
