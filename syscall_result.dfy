/**
 Syscall return values of the Tock kernel and their encoding into the
 process's registers r0..r3. Register r0 receives a variant tag (failure
 tags below 128, success tags from 128 up), the following registers the
 variant's payload; a 64-bit value is passed as its low word followed by
 its high word. A register a variant has no payload for keeps its value.
 */
module SyscallResult {
  import opened Wrappers
  import opened Words

  /** The kernel's return codes: two success forms and thirteen errors. */
  datatype ReturnCode =
    | SuccessWithValue(value: Usize)
    | SUCCESS
    | FAIL
    | EBUSY
    | EALREADY
    | EOFF
    | ERESERVE
    | EINVAL
    | ESIZE
    | ECANCEL
    | ENOMEM
    | ENOSUPPORT
    | ENODEVICE
    | EUNINSTALLED
    | ENOACK
  {
    predicate IsSuccess() {
      SuccessWithValue? || SUCCESS?
    }
  }

  /** What survives of a return code in a register: the value carried by
      `SuccessWithValue` is dropped. */
  function Canonical(rc: ReturnCode): (c: ReturnCode)
    ensures c.IsSuccess() <==> rc.IsSuccess()
    ensures !rc.IsSuccess() ==> c == rc
  {
    if rc.IsSuccess() then SUCCESS else rc
  }

  /** A buffer shared by the process, seen only through its pointer and
      length words. */
  datatype AppSlice = AppSlice(ptr: Usize, len: Usize)

  datatype SyscallFailure = SyscallFailure(error: ReturnCode)
  datatype SyscallFailureU32 = SyscallFailureU32(error: ReturnCode, rval0: U32)
  datatype SyscallFailureU32U32 = SyscallFailureU32U32(error: ReturnCode, rval0: U32, rval1: U32)
  datatype SyscallFailureU64 = SyscallFailureU64(error: ReturnCode, rval0: U64)
  datatype SyscallSuccessU32 = SyscallSuccessU32(rval0: U32)
  datatype SyscallSuccessU32U32 = SyscallSuccessU32U32(rval0: U32, rval1: U32)
  datatype SyscallSuccessU64 = SyscallSuccessU64(rval0: U64)
  datatype SyscallSuccessU32U32U32 = SyscallSuccessU32U32U32(rval0: U32, rval1: U32, rval2: U32)
  datatype SyscallSuccessU32U64 = SyscallSuccessU32U64(rval0: U32, rval1: U64)
  datatype SyscallSuccessAllow = SyscallSuccessAllow(buf: AppSlice)
  datatype SyscallFailureAllow = SyscallFailureAllow(error: ReturnCode, buf: AppSlice)
  datatype SyscallFailureAllowRaw = SyscallFailureAllowRaw(error: ReturnCode, addr: U32, len: U32)

  datatype CommandResult =
    | Failure(SyscallFailure)
    | FailureU32(SyscallFailureU32)
    | FailureU32U32(SyscallFailureU32U32)
    | FailureU64(SyscallFailureU64)
    | Success
    | SuccessU32(SyscallSuccessU32)
    | SuccessU32U32(SyscallSuccessU32U32)
    | SuccessU64(SyscallSuccessU64)
    | SuccessU32U32U32(SyscallSuccessU32U32U32)
    | SuccessU32U64(SyscallSuccessU32U64)
  {
    predicate IsSuccess() {
      Success? || SuccessU32? || SuccessU32U32? || SuccessU64? || SuccessU32U32U32? || SuccessU32U64?
    }
  }

  datatype SubscribeResult = Failure(SyscallFailure) | Success

  datatype AllowResult =
    | Failure(SyscallFailureAllow)
    | FailureRaw(SyscallFailureAllowRaw)
    | Success(SyscallSuccessAllow)

  /** The registers r0, r1, r2, r3, in that order. */
  type Registers = s: seq<U32> | |s| == 4 witness [0, 0, 0, 0]

  // ---------------------------------------------------------------------
  // Error codes

  /** `return_code_to_error_code`: both success forms become 0, the
      thirteen errors FAIL..ENOACK become 1..13 in declaration order. */
  function ReturnCodeToErrorCode(rcode: ReturnCode): (code: U32)
    ensures code == 0 <==> rcode.IsSuccess()
    ensures code <= 13
  {
    match rcode
    case SuccessWithValue(_) => 0
    case SUCCESS => 0
    case FAIL => 1
    case EBUSY => 2
    case EALREADY => 3
    case EOFF => 4
    case ERESERVE => 5
    case EINVAL => 6
    case ESIZE => 7
    case ECANCEL => 8
    case ENOMEM => 9
    case ENOSUPPORT => 10
    case ENODEVICE => 11
    case EUNINSTALLED => 12
    case ENOACK => 13
  }

  /** How a process reads an error code back; codes above 13 mean nothing. */
  function ErrorCodeToReturnCode(code: U32): (r: Option<ReturnCode>)
    ensures r.Some? <==> code <= 13
    ensures r.Some? ==> (r.value.IsSuccess() <==> code == 0)
  {
    match code
    case 0 => Some(SUCCESS)
    case 1 => Some(FAIL)
    case 2 => Some(EBUSY)
    case 3 => Some(EALREADY)
    case 4 => Some(EOFF)
    case 5 => Some(ERESERVE)
    case 6 => Some(EINVAL)
    case 7 => Some(ESIZE)
    case 8 => Some(ECANCEL)
    case 9 => Some(ENOMEM)
    case 10 => Some(ENOSUPPORT)
    case 11 => Some(ENODEVICE)
    case 12 => Some(EUNINSTALLED)
    case 13 => Some(ENOACK)
    case _ => None
  }

  /** Reading an error code back gives the return code up to the value a
      `SuccessWithValue` carried. */
  lemma ErrorCodeRoundTrip(rcode: ReturnCode)
    ensures ErrorCodeToReturnCode(ReturnCodeToErrorCode(rcode)) == Some(Canonical(rcode))
  {
  }

  /** Every code the process can read back is the code of what it reads. */
  lemma ErrorCodeRoundTripBack(code: U32)
    requires code <= 13
    ensures ReturnCodeToErrorCode(ErrorCodeToReturnCode(code).value) == code
  {
  }

  /** Distinct errors get distinct codes. */
  lemma ErrorCodeInjective(a: ReturnCode, b: ReturnCode)
    requires !a.IsSuccess() && !b.IsSuccess()
    requires ReturnCodeToErrorCode(a) == ReturnCodeToErrorCode(b)
    ensures a == b
  {
    ErrorCodeRoundTrip(a);
    ErrorCodeRoundTrip(b);
  }

  // ---------------------------------------------------------------------
  // SubscribeResult

  /** Number of registers, from r0 on, that a subscribe result occupies. */
  function SubscribeWidth(res: SubscribeResult): (w: nat)
    ensures 1 <= w <= 4
  {
    match res
    case Failure(_) => 2
    case Success => 1
  }

  function CanonicalSubscribe(res: SubscribeResult): SubscribeResult {
    match res
    case Failure(f) => SubscribeResult.Failure(SyscallFailure(Canonical(f.error)))
    case Success => SubscribeResult.Success
  }

  /** How a process reads the registers after a subscribe. */
  function DecodeSubscribe(regs: Registers): (r: Option<SubscribeResult>)
    ensures r.Some? ==> (r.value.Success? <==> regs[0] >= 128)
  {
    var err := ErrorCodeToReturnCode(regs[1]);
    if regs[0] == 0 && err.Some? then Some(SubscribeResult.Failure(SyscallFailure(err.value)))
    else if regs[0] == 128 then Some(SubscribeResult.Success)
    else None
  }

  /** `into_registers` for a subscribe result. */
  method SubscribeIntoRegisters(res: SubscribeResult, regs: Registers) returns (out: Registers)
    ensures res.Success? <==> out[0] >= 128
    ensures res.Failure? ==> out[0] == 0
    ensures res.Success? ==> out[0] == 128
    ensures DecodeSubscribe(out) == Some(CanonicalSubscribe(res))
    ensures out[SubscribeWidth(res)..] == regs[SubscribeWidth(res)..]
  {
    out := regs;
    match res {
      case Failure(fail) =>
        out := out[0 := 0];
        out := out[1 := ReturnCodeToErrorCode(fail.error)];
        ErrorCodeRoundTrip(fail.error);
      case Success =>
        out := out[0 := 128];
    }
  }

  // ---------------------------------------------------------------------
  // AllowResult

  function AllowWidth(res: AllowResult): (w: nat)
    ensures 1 <= w <= 4
  {
    match res
    case Failure(_) => 4
    case FailureRaw(_) => 4
    case Success(_) => 3
  }

  /** What a process can see of an allow result: a failure is always seen
      in its raw form, and pointer and length are cut to 32 bits. */
  function CanonicalAllow(res: AllowResult): AllowResult {
    match res
    case Failure(f) =>
      AllowResult.FailureRaw(SyscallFailureAllowRaw(Canonical(f.error), AsU32(f.buf.ptr), AsU32(f.buf.len)))
    case FailureRaw(f) =>
      AllowResult.FailureRaw(SyscallFailureAllowRaw(Canonical(f.error), f.addr, f.len))
    case Success(s) =>
      AllowResult.Success(SyscallSuccessAllow(AppSlice(AsU32(s.buf.ptr), AsU32(s.buf.len))))
  }

  /** How a process reads the registers after an allow. */
  function DecodeAllow(regs: Registers): (r: Option<AllowResult>)
    ensures r.Some? ==> (r.value.Success? <==> regs[0] >= 128)
    ensures r.Some? ==> !r.value.Failure?
  {
    var err := ErrorCodeToReturnCode(regs[1]);
    if regs[0] == 2 && err.Some? then
      Some(AllowResult.FailureRaw(SyscallFailureAllowRaw(err.value, regs[2], regs[3])))
    else if regs[0] == 130 then
      Some(AllowResult.Success(SyscallSuccessAllow(AppSlice(regs[1], regs[2]))))
    else None
  }

  /** `into_registers` for an allow result. */
  method AllowIntoRegisters(res: AllowResult, regs: Registers) returns (out: Registers)
    ensures res.Success? <==> out[0] >= 128
    ensures !res.Success? ==> out[0] == 2
    ensures res.Success? ==> out[0] == 130
    ensures DecodeAllow(out) == Some(CanonicalAllow(res))
    ensures out[AllowWidth(res)..] == regs[AllowWidth(res)..]
  {
    out := regs;
    match res {
      case Failure(fail) =>
        out := out[0 := 2];
        out := out[1 := ReturnCodeToErrorCode(fail.error)];
        out := out[2 := AsU32(fail.buf.ptr)];
        out := out[3 := AsU32(fail.buf.len)];
        ErrorCodeRoundTrip(fail.error);
      case FailureRaw(fail) =>
        out := out[0 := 2];
        out := out[1 := ReturnCodeToErrorCode(fail.error)];
        out := out[2 := fail.addr];
        out := out[3 := fail.len];
        ErrorCodeRoundTrip(fail.error);
      case Success(success) =>
        out := out[0 := 130];
        out := out[1 := AsU32(success.buf.ptr)];
        out := out[2 := AsU32(success.buf.len)];
    }
  }

  // ---------------------------------------------------------------------
  // CommandResult

  function CommandWidth(res: CommandResult): (w: nat)
    ensures 1 <= w <= 4
  {
    match res
    case Failure(_) => 2
    case FailureU32(_) => 3
    case FailureU32U32(_) => 4
    case FailureU64(_) => 4
    case Success => 1
    case SuccessU32(_) => 2
    case SuccessU32U32(_) => 3
    case SuccessU64(_) => 3
    case SuccessU32U32U32(_) => 4
    case SuccessU32U64(_) => 4
  }

  function CanonicalCommand(res: CommandResult): CommandResult {
    match res
    case Failure(f) => CommandResult.Failure(SyscallFailure(Canonical(f.error)))
    case FailureU32(f) => FailureU32(SyscallFailureU32(Canonical(f.error), f.rval0))
    case FailureU32U32(f) => FailureU32U32(SyscallFailureU32U32(Canonical(f.error), f.rval0, f.rval1))
    case FailureU64(f) => FailureU64(SyscallFailureU64(Canonical(f.error), f.rval0))
    case _ => res
  }

  /** How a process reads the registers after a command: the tag in r0
      selects the variant, a 64-bit value is joined from (low, high). */
  function DecodeCommand(regs: Registers): (r: Option<CommandResult>)
    ensures r.Some? ==> (r.value.IsSuccess() <==> regs[0] >= 128)
    ensures r.Some? ==> (regs[0] <= 3 || 128 <= regs[0] <= 133)
  {
    var err := ErrorCodeToReturnCode(regs[1]);
    var tag := regs[0];
    if tag <= 3 then
      if err.None? then None
      else if tag == 0 then Some(CommandResult.Failure(SyscallFailure(err.value)))
      else if tag == 1 then Some(FailureU32(SyscallFailureU32(err.value, regs[2])))
      else if tag == 2 then Some(FailureU32U32(SyscallFailureU32U32(err.value, regs[2], regs[3])))
      else Some(FailureU64(SyscallFailureU64(err.value, Join64(regs[2], regs[3]))))
    else if tag == 128 then Some(CommandResult.Success)
    else if tag == 129 then Some(SuccessU32(SyscallSuccessU32(regs[1])))
    else if tag == 130 then Some(SuccessU32U32(SyscallSuccessU32U32(regs[1], regs[2])))
    else if tag == 131 then Some(SuccessU64(SyscallSuccessU64(Join64(regs[1], regs[2]))))
    else if tag == 132 then Some(SuccessU32U32U32(SyscallSuccessU32U32U32(regs[1], regs[2], regs[3])))
    else if tag == 133 then Some(SuccessU32U64(SyscallSuccessU32U64(regs[1], Join64(regs[2], regs[3]))))
    else None
  }

  /** `into_registers` for a command result. */
  method CommandIntoRegisters(res: CommandResult, regs: Registers) returns (out: Registers)
    ensures res.IsSuccess() <==> out[0] >= 128
    ensures !res.IsSuccess() ==> out[0] <= 3
    ensures res.IsSuccess() ==> out[0] <= 133
    ensures DecodeCommand(out) == Some(CanonicalCommand(res))
    ensures out[CommandWidth(res)..] == regs[CommandWidth(res)..]
    ensures match res
      case FailureU64(f) => out[3] * TWO_32 + out[2] == f.rval0
      case SuccessU64(s) => out[2] * TWO_32 + out[1] == s.rval0
      case SuccessU32U64(s) => out[3] * TWO_32 + out[2] == s.rval1
      case _ => true
  {
    out := regs;
    match res {
      case Failure(fail) =>
        out := out[0 := 0];
        out := out[1 := ReturnCodeToErrorCode(fail.error)];
        ErrorCodeRoundTrip(fail.error);
      case FailureU32(fail) =>
        out := out[0 := 1];
        out := out[1 := ReturnCodeToErrorCode(fail.error)];
        out := out[2 := fail.rval0];
        ErrorCodeRoundTrip(fail.error);
      case FailureU32U32(fail) =>
        out := out[0 := 2];
        out := out[1 := ReturnCodeToErrorCode(fail.error)];
        out := out[2 := fail.rval0];
        out := out[3 := fail.rval1];
        ErrorCodeRoundTrip(fail.error);
      case FailureU64(fail) =>
        out := out[0 := 3];
        out := out[1 := ReturnCodeToErrorCode(fail.error)];
        out := out[2 := AsU32(MaskLow40(fail.rval0))];
        out := out[3 := AsU32(Shr32(fail.rval0))];
        ErrorCodeRoundTrip(fail.error);
        MaskLow40ThenTruncate(fail.rval0);
        SplitJoin(fail.rval0);
      case Success =>
        out := out[0 := 128];
      case SuccessU32(success) =>
        out := out[0 := 129];
        out := out[1 := success.rval0];
      case SuccessU32U32(success) =>
        out := out[0 := 130];
        out := out[1 := success.rval0];
        out := out[2 := success.rval1];
      case SuccessU64(success) =>
        out := out[0 := 131];
        out := out[1 := AsU32(MaskLow32(success.rval0))];
        out := out[2 := AsU32(Shr32(success.rval0))];
        SplitJoin(success.rval0);
      case SuccessU32U32U32(success) =>
        out := out[0 := 132];
        out := out[1 := success.rval0];
        out := out[2 := success.rval1];
        out := out[3 := success.rval2];
      case SuccessU32U64(success) =>
        out := out[0 := 133];
        out := out[1 := success.rval0];
        out := out[2 := AsU32(MaskLow32(success.rval1))];
        out := out[3 := AsU32(Shr32(success.rval1))];
        SplitJoin(success.rval1);
    }
  }

  /** The tag alone determines the variant a process decodes. */
  lemma CommandTagDeterminesVariant(x: Registers, y: Registers)
    requires DecodeCommand(x).Some? && DecodeCommand(y).Some? && x[0] == y[0]
    ensures DecodeCommand(x).value.IsSuccess() <==> x[0] >= 128
    ensures CommandWidth(DecodeCommand(x).value) == CommandWidth(DecodeCommand(y).value)
    ensures DecodeCommand(x).value.Failure? <==> DecodeCommand(y).value.Failure?
    ensures DecodeCommand(x).value.FailureU32? <==> DecodeCommand(y).value.FailureU32?
    ensures DecodeCommand(x).value.FailureU32U32? <==> DecodeCommand(y).value.FailureU32U32?
    ensures DecodeCommand(x).value.FailureU64? <==> DecodeCommand(y).value.FailureU64?
    ensures DecodeCommand(x).value.Success? <==> DecodeCommand(y).value.Success?
    ensures DecodeCommand(x).value.SuccessU32? <==> DecodeCommand(y).value.SuccessU32?
    ensures DecodeCommand(x).value.SuccessU32U32? <==> DecodeCommand(y).value.SuccessU32U32?
    ensures DecodeCommand(x).value.SuccessU64? <==> DecodeCommand(y).value.SuccessU64?
    ensures DecodeCommand(x).value.SuccessU32U32U32? <==> DecodeCommand(y).value.SuccessU32U32U32?
    ensures DecodeCommand(x).value.SuccessU32U64? <==> DecodeCommand(y).value.SuccessU32U64?
  {
  }
}
