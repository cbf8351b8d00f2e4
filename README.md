# Tock syscall boundary and nRF52 peripheral vectors, in Dafny

This project models two small, sequential pieces of the Tock embedded
operating system:

1. **The syscall boundary of the kernel** (`kernel/src/syscall.rs`).
   A process traps into the kernel with a syscall number and four argument
   registers; `arguments_to_syscall` turns them into a typed `Syscall`
   (YIELD, SUBSCRIBE, COMMAND, ALLOW, MEMOP) or rejects the number. The kernel
   answers with a `SubscribeResult`, `AllowResult` or `CommandResult`, which
   `into_registers` writes into the process's registers r0..r3: r0 holds a
   variant tag (failures below 128, successes from 128 up), the next registers
   hold the error code (`return_code_to_error_code`) and the payload, with a
   64-bit value passed as its low word followed by its high word. Registers a
   variant has no payload for are not written. `SrvFactory` builds the payloads.
2. **The nRF52 peripheral interrupt vectors** (`chips/nrf52/src/peripheral_interrupts.h`).
   The 32 external-interrupt slots of the ARMv7-M vector table (section B1.5.3
   of the ARMv7-M Architecture Reference Manual), each a handler symbol or the
   reserved literal 0. There are also 25 weak declarations that alias every
   handler symbol to `Dummy_Handler`. Link-time resolution is modelled as a
   function. A symbol the program defines itself overrides the weak alias.
   Every other named slot resolves to the dummy handler. A reserved slot stays 0.

Modules:

- `Words` (`words.dfy`): u8/u32/u64 as bounded integers. Also the Rust
  operations the encoder uses: `as u32`, the 32- and 40-bit masks, `>> 32`.
  Splitting a u64 into two words and joining them back is proved lossless.
- `Syscall` (`syscall.dfy`): the `Syscall` datatype and `ArgumentsToSyscall`.
  `SyscallToArguments` is the inverse used for the round trip: the registers a
  process fills for a given syscall.
- `SyscallResult` (`syscall_result.dfy`): `ReturnCode` and the result types,
  the error-code mapping, and the three `into_registers` methods. The `&mut u32`
  out-parameters become a method taking the four register values before the
  call and returning the four after it. Each method is proved against a
  decoder, which gives the reading a process makes of r0..r3. That reading
  gives back the result up to what the registers cannot carry: the value inside
  a `SuccessWithValue` used as an error, the bits of a pointer or length above
  32, and the difference between the two allow failure forms.
- `SrvFactory` (`srv_factory.dfy`): the payload constructors.
- `PeripheralInterrupts` (`peripheral_interrupts.dfy`): the table, the weak
  declarations, `Resolve`, and the shape, placement, distinctness and override
  lemmas.

The mask at kernel/src/syscall.rs:214 is `0xffff_ffffff`, which has ten hex
digits, so it keeps 40 bits rather than 32. The following `as u32` truncation
still leaves exactly the low 32 bits in r2. `Words.MaskLow40ThenTruncate`
proves this. `SyscallResult.CommandIntoRegisters` then proves
`r3 * 2^32 + r2 == rval0` for `FailureU64`, as for the other 64-bit variants.

## Model

| member | source | states |
|---|---|---|
| `Words.AsU32` | kernel/src/syscall.rs:176-177 | `as u32` keeps a value below 2^32 unchanged and otherwise differs from it by a multiple of 2^32 |
| `Words.MaskLow32` | kernel/src/syscall.rs:231 | `& 0xffff_ffff` yields a value below 2^32 congruent to the input mod 2^32 |
| `Words.MaskLow40` | kernel/src/syscall.rs:214 | `& 0xffff_ffffff` yields a value below 2^40 congruent to the input mod 2^40 |
| `Words.Shr32` | kernel/src/syscall.rs:232 | `>> 32` of a u64 is below 2^32 and is the number of whole 2^32 blocks in the value |
| `Words.Join64` | kernel/src/syscall.rs:229-233 | joining (low, high) gives a u64 whose low word is `low` and high word is `high` |
| `Words.SplitJoin` | kernel/src/syscall.rs:229-233 | the low and high words written for a u64 join back to the same u64 |
| `Words.MaskLow40ThenTruncate` | kernel/src/syscall.rs:211-216 | the 40-bit mask followed by `as u32` gives the same word as the 32-bit mask: the low 32 bits |
| `Syscall.SvcNumber` | kernel/src/syscall.rs:10-53 | the SVC number documented for each syscall is between 0 and 4 |
| `Syscall.Fields` | kernel/src/syscall.rs:12-53 | a syscall carries at most four words, listed in field declaration order |
| `Syscall.ArgumentsToSyscall` | kernel/src/syscall.rs:447-480 | returns a syscall exactly for numbers 0..4; the syscall's SVC number is the input number; its fields are r0, r1, r2, r3 in declaration order |
| `Syscall.SyscallToArguments` | kernel/src/syscall.rs:447-480 | the registers a process fills for a syscall start with that syscall's SVC number |
| `Syscall.ArgumentsToSyscallRoundTrip` | kernel/src/syscall.rs:454-479 | every syscall passed through its number and registers decodes back to itself |
| `Syscall.ArgumentsToSyscallInjective` | kernel/src/syscall.rs:454-479 | a decoded syscall re-encodes to the same number and to the registers it used |
| `Syscall.UnusedRegistersIgnored` | kernel/src/syscall.rs:455-477 | YIELD ignores every register and MEMOP ignores r2 and r3 |
| `SyscallResult.Canonical` | kernel/src/syscall.rs:137-138 | only the value inside `SuccessWithValue` is forgotten; success stays success and an error stays itself |
| `SyscallResult.ReturnCodeToErrorCode` | kernel/src/syscall.rs:135-153 | the code is 0 exactly for `SUCCESS` and `SuccessWithValue`, and never above 13 |
| `SyscallResult.ErrorCodeToReturnCode` | kernel/src/syscall.rs:135-153 | a code is readable back exactly when it is at most 13, and reads as a success exactly when it is 0 |
| `SyscallResult.ErrorCodeRoundTrip` | kernel/src/syscall.rs:135-153 | reading back the code of a return code gives that return code, with the value of `SuccessWithValue` dropped |
| `SyscallResult.ErrorCodeRoundTripBack` | kernel/src/syscall.rs:135-153 | every code 0..13 is the code of the return code it reads back as |
| `SyscallResult.ErrorCodeInjective` | kernel/src/syscall.rs:139-151 | the thirteen errors FAIL..ENOACK get pairwise distinct codes |
| `SyscallResult.SubscribeWidth` | kernel/src/syscall.rs:157-168 | a subscribe result occupies between one and four registers from r0 on |
| `SyscallResult.DecodeSubscribe` | kernel/src/syscall.rs:157-168 | a decoded subscribe result is a success exactly when r0 is at least 128 |
| `SyscallResult.SubscribeIntoRegisters` | kernel/src/syscall.rs:157-168 | Failure writes tag 0 and Success tag 128; r0 >= 128 exactly on success; the registers decode back to the result; r2 and r3 are never changed, and r1 only on failure |
| `SyscallResult.AllowWidth` | kernel/src/syscall.rs:170-191 | an allow result occupies between one and four registers from r0 on |
| `SyscallResult.DecodeAllow` | kernel/src/syscall.rs:170-191 | a decoded allow result is a success exactly when r0 is at least 128; a failure always reads in its raw form |
| `SyscallResult.AllowIntoRegisters` | kernel/src/syscall.rs:170-191 | Failure and FailureRaw write tag 2 and Success tag 130; the registers decode to the error, address and length cut to 32 bits; Success never changes r3 |
| `SyscallResult.CommandWidth` | kernel/src/syscall.rs:193-248 | a command result occupies between one and four registers from r0 on |
| `SyscallResult.DecodeCommand` | kernel/src/syscall.rs:193-248 | a decoded command result is a success exactly when r0 >= 128, and its tag is in 0..3 or 128..133 |
| `SyscallResult.CommandIntoRegisters` | kernel/src/syscall.rs:193-248 | failure tags are at most 3, success tags 128..133, r0 >= 128 exactly on success; the registers decode back to the result; registers past the variant's payload keep their values; for FailureU64, SuccessU64 and SuccessU32U64 the high word times 2^32 plus the low word is the u64 |
| `SyscallResult.CommandTagDeterminesVariant` | kernel/src/syscall.rs:196-245 | two register sets with the same tag decode to the same variant, which is a success exactly when the tag is at least 128 |
| `SrvFactory.Failure` | kernel/src/syscall.rs:254-256 | the payload holds the given error |
| `SrvFactory.FailureU32` | kernel/src/syscall.rs:258-260 | the payload holds the given error and value |
| `SrvFactory.FailureU32U32` | kernel/src/syscall.rs:262-264 | the payload holds the given error and both values |
| `SrvFactory.FailureU64` | kernel/src/syscall.rs:266-268 | the payload holds the given error and 64-bit value |
| `SrvFactory.SuccessU32` | kernel/src/syscall.rs:270-272 | the payload holds the given value |
| `SrvFactory.SuccessU32U32` | kernel/src/syscall.rs:274-276 | the payload holds both given values |
| `SrvFactory.SuccessU64` | kernel/src/syscall.rs:278-280 | the payload holds the given 64-bit value |
| `SrvFactory.SuccessU32U32U32` | kernel/src/syscall.rs:282-284 | the payload holds the three given values |
| `SrvFactory.SuccessU32U64` | kernel/src/syscall.rs:286-288 | the payload holds the given 32-bit and 64-bit values |
| `SrvFactory.SuccessAllow` | kernel/src/syscall.rs:290-292 | the payload holds the given buffer |
| `SrvFactory.FailureAllow` | kernel/src/syscall.rs:294-296 | the payload holds the given error and buffer |
| `SrvFactory.FailureAllowRaw` | kernel/src/syscall.rs:298-300 | the payload holds the given error, address and length |
| `PeripheralInterrupts.NamedSlots` | chips/nrf52/src/peripheral_interrupts.h:4-36 | a table has no more named slots than slots |
| `PeripheralInterrupts.Declared` | chips/nrf52/src/peripheral_interrupts.h:37-62 | one declared symbol per weak declaration |
| `PeripheralInterrupts.Resolve` | chips/nrf52/src/peripheral_interrupts.h:4-62 | resolution yields one address per table slot |
| `PeripheralInterrupts.VectorTableShape` | chips/nrf52/src/peripheral_interrupts.h:4-36 | the table has 32 slots, and a slot is reserved exactly when it is slot 5 or one of 26..31 |
| `PeripheralInterrupts.VectorTablePlacement` | chips/nrf52/src/peripheral_interrupts.h:5-30 | POWER_CLOCK is at slot 0, RADIO at 1, UART0 at 2, GPIOTE at 6 and SWI5 at 25 |
| `PeripheralInterrupts.DeclarationsAliasDummy` | chips/nrf52/src/peripheral_interrupts.h:37-62 | there are 25 weak declarations and each aliases `Dummy_Handler` |
| `PeripheralInterrupts.DeclarationsNameSlots` | chips/nrf52/src/peripheral_interrupts.h:5-62 | the k-th weak declaration names the line at slot k for k < 5 and at slot k + 1 otherwise |
| `PeripheralInterrupts.NamedSlotsOfLayout` | chips/nrf52/src/peripheral_interrupts.h:4-62 | in any table with this layout whose named slots follow the declarations, the named slots are exactly the declared symbols in order |
| `PeripheralInterrupts.VectorTableMatchesDeclarations` | chips/nrf52/src/peripheral_interrupts.h:5-62 | the symbols of the named slots are exactly the weakly declared symbols, in the same order |
| `PeripheralInterrupts.DeclarationsDistinct` | chips/nrf52/src/peripheral_interrupts.h:38-62 | no symbol is declared twice |
| `PeripheralInterrupts.DistinctNamesOfLayout` | chips/nrf52/src/peripheral_interrupts.h:4-62 | in any table with this layout, distinct declarations give distinct named slots |
| `PeripheralInterrupts.VectorTableNamesDistinct` | chips/nrf52/src/peripheral_interrupts.h:5-30 | the 25 named slots are pairwise distinct |
| `PeripheralInterrupts.ResolveWithoutOverrides` | chips/nrf52/src/peripheral_interrupts.h:4-62 | with no overrides, every named slot resolves to the dummy handler and every reserved slot to 0 |
| `PeripheralInterrupts.ResolveReservedIsZero` | chips/nrf52/src/peripheral_interrupts.h:10-36 | a slot resolves to 0 exactly when it is reserved, provided the dummy handler and all overrides are nonzero addresses |
| `PeripheralInterrupts.ResolveOverrideOneSlot` | chips/nrf52/src/peripheral_interrupts.h:37-62 | in a table with distinct names, defining one slot's symbol gives that slot the new address and leaves every other slot unchanged |
| `PeripheralInterrupts.OverrideDeclaredSymbol` | chips/nrf52/src/peripheral_interrupts.h:4-62 | defining the symbol of any weak declaration redirects exactly its own slot; all other slots, the reserved ones included, are unchanged |

## Left out

- `UserspaceKernelBoundary` (kernel/src/syscall.rs:306-433): architecture-specific context-switch hooks with no bodies. It is an external interface.
- `ContextSwitchReason` (kernel/src/syscall.rs:57-66): a plain enum with no behaviour, and nothing in the model uses it.
- Pointers and `AppSlice`: raw pointers are the words they were cast from, and an `AppSlice` is only its pointer and length. The memory behind them is not modelled. `kernel/src/mem.rs` is not part of this model.
- `ReturnCode` is declared here with the fifteen variants `return_code_to_error_code` matches on. `kernel/src/returncode.rs` is not part of this model.
- `usize` is unbounded, because `arguments_to_syscall` only moves these words into fields. The `as *mut ()` and `as *mut u8` casts of r2 are the identity.
- Bitwise `&` with a low-bit mask is modelled as the remainder modulo a power of two, which equals it for unsigned values.
- The body of `Dummy_Handler`, the placement of the table in memory, and its splicing after the core exception vectors are outside these files.
- The linker is modelled only by `Resolve`. Its weak-symbol machinery and the build error for two strong definitions of one symbol are not modelled.
- `PeripheralInterrupts.Resolve`: takes the dummy handler's address as a parameter and resolves every named slot to it when there is no override. The fallback is justified for this table by `DeclarationsAliasDummy` and `VectorTableMatchesDeclarations`. Resolve does not itself check that a weak declaration exists.
- boards/nano33ble/src/main.rs, boards/weact_f401ccu6/src/io.rs and chips/nrf52/src/lib.rs: board bring-up, device I/O and module declarations, with no logic of the core.
