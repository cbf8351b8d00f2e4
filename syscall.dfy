/**
 The syscall numbers of the Tock kernel and the decoding of a trapped
 syscall: a raw syscall number and the four argument registers become a
 typed `Syscall`, or nothing when the number is not assigned.
 */
module Syscall {
  import opened Wrappers
  import opened Words

  /** The syscalls a process can make. Pointer-valued fields are kept as the
      raw words they were cast from. */
  datatype Syscall =
    | YIELD
    | SUBSCRIBE(driver_number: Usize, subdriver_number: Usize, callback_ptr: Usize, appdata: Usize)
    | COMMAND(driver_number: Usize, subdriver_number: Usize, arg0: Usize, arg1: Usize)
    | ALLOW(driver_number: Usize, subdriver_number: Usize, allow_address: Usize, allow_size: Usize)
    | MEMOP(operand: Usize, arg0: Usize)

  /** The SVC number each syscall is assigned in the enum's documentation. */
  function SvcNumber(s: Syscall): (n: U8)
    ensures n <= 4
  {
    match s
    case YIELD => 0
    case SUBSCRIBE(_, _, _, _) => 1
    case COMMAND(_, _, _, _) => 2
    case ALLOW(_, _, _, _) => 3
    case MEMOP(_, _) => 4
  }

  /** The words a syscall carries, in the order its fields are declared. */
  function Fields(s: Syscall): (ws: seq<Usize>)
    ensures |ws| <= 4
  {
    match s
    case YIELD => []
    case SUBSCRIBE(d, sd, cb, ad) => [d, sd, cb, ad]
    case COMMAND(d, sd, a0, a1) => [d, sd, a0, a1]
    case ALLOW(d, sd, addr, size) => [d, sd, addr, size]
    case MEMOP(op, a0) => [op, a0]
  }

  /** `arguments_to_syscall`: the number selects the variant and the
      registers fill its fields in declaration order, starting with r0. */
  function ArgumentsToSyscall(syscallNumber: U8, r0: Usize, r1: Usize, r2: Usize, r3: Usize): (r: Option<Syscall>)
    ensures r.Some? <==> syscallNumber <= 4
    ensures r.Some? ==> SvcNumber(r.value) == syscallNumber
    ensures r.Some? ==> Fields(r.value) == [r0, r1, r2, r3][..|Fields(r.value)|]
  {
    match syscallNumber
    case 0 => Some(YIELD)
    case 1 => Some(SUBSCRIBE(r0, r1, r2, r3))
    case 2 => Some(COMMAND(r0, r1, r2, r3))
    case 3 => Some(ALLOW(r0, r1, r2, r3))
    case 4 => Some(MEMOP(r0, r1))
    case _ => None
  }

  /** The registers a process fills to make syscall `s`: the SVC number and
      the fields in declaration order, unused registers left zero. */
  function SyscallToArguments(s: Syscall): (args: (U8, Usize, Usize, Usize, Usize))
    ensures args.0 == SvcNumber(s)
  {
    var ws := Fields(s) + [0, 0, 0, 0];
    (SvcNumber(s), ws[0], ws[1], ws[2], ws[3])
  }

  /** Every syscall survives being passed through the registers. */
  lemma ArgumentsToSyscallRoundTrip(s: Syscall)
    ensures var args := SyscallToArguments(s);
      ArgumentsToSyscall(args.0, args.1, args.2, args.3, args.4) == Some(s)
  {
  }

  /** A decoded syscall re-encodes into the same number and the registers
      it used; the registers it did not use are not part of it. */
  lemma ArgumentsToSyscallInjective(n: U8, r0: Usize, r1: Usize, r2: Usize, r3: Usize)
    requires ArgumentsToSyscall(n, r0, r1, r2, r3).Some?
    ensures var s := ArgumentsToSyscall(n, r0, r1, r2, r3).value;
      var args := SyscallToArguments(s);
      args.0 == n &&
      (|Fields(s)| >= 1 ==> args.1 == r0) && (|Fields(s)| >= 2 ==> args.2 == r1) &&
      (|Fields(s)| >= 3 ==> args.3 == r2) && (|Fields(s)| >= 4 ==> args.4 == r3)
  {
  }

  /** YIELD ignores all four registers and MEMOP ignores r2 and r3. */
  lemma UnusedRegistersIgnored(n: U8, r0: Usize, r1: Usize, r2: Usize, r3: Usize, r2': Usize, r3': Usize)
    requires n == 0 || n == 4
    ensures ArgumentsToSyscall(n, r0, r1, r2, r3) == ArgumentsToSyscall(n, r0, r1, r2', r3')
    ensures n == 0 ==> ArgumentsToSyscall(n, r0, r1, r2, r3) == ArgumentsToSyscall(n, 0, 0, 0, 0)
  {
  }
}
