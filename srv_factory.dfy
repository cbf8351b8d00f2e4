/**
 The kernel's factory for syscall return-value payloads: each constructor
 stores its arguments, unchanged, in the payload's fields.
 */
module SrvFactory {
  import opened Words
  import opened SyscallResult

  function Failure(error: ReturnCode): (r: SyscallFailure)
    ensures r.error == error
  {
    SyscallFailure(error)
  }

  function FailureU32(error: ReturnCode, rval0: U32): (r: SyscallFailureU32)
    ensures r.error == error && r.rval0 == rval0
  {
    SyscallFailureU32(error, rval0)
  }

  function FailureU32U32(error: ReturnCode, rval0: U32, rval1: U32): (r: SyscallFailureU32U32)
    ensures r.error == error && r.rval0 == rval0 && r.rval1 == rval1
  {
    SyscallFailureU32U32(error, rval0, rval1)
  }

  function FailureU64(error: ReturnCode, rval0: U64): (r: SyscallFailureU64)
    ensures r.error == error && r.rval0 == rval0
  {
    SyscallFailureU64(error, rval0)
  }

  function SuccessU32(rval0: U32): (r: SyscallSuccessU32)
    ensures r.rval0 == rval0
  {
    SyscallSuccessU32(rval0)
  }

  function SuccessU32U32(rval0: U32, rval1: U32): (r: SyscallSuccessU32U32)
    ensures r.rval0 == rval0 && r.rval1 == rval1
  {
    SyscallSuccessU32U32(rval0, rval1)
  }

  function SuccessU64(rval0: U64): (r: SyscallSuccessU64)
    ensures r.rval0 == rval0
  {
    SyscallSuccessU64(rval0)
  }

  function SuccessU32U32U32(rval0: U32, rval1: U32, rval2: U32): (r: SyscallSuccessU32U32U32)
    ensures r.rval0 == rval0 && r.rval1 == rval1 && r.rval2 == rval2
  {
    SyscallSuccessU32U32U32(rval0, rval1, rval2)
  }

  function SuccessU32U64(rval0: U32, rval1: U64): (r: SyscallSuccessU32U64)
    ensures r.rval0 == rval0 && r.rval1 == rval1
  {
    SyscallSuccessU32U64(rval0, rval1)
  }

  function SuccessAllow(buf: AppSlice): (r: SyscallSuccessAllow)
    ensures r.buf == buf
  {
    SyscallSuccessAllow(buf)
  }

  function FailureAllow(error: ReturnCode, buf: AppSlice): (r: SyscallFailureAllow)
    ensures r.error == error && r.buf == buf
  {
    SyscallFailureAllow(error, buf)
  }

  function FailureAllowRaw(error: ReturnCode, addr: U32, len: U32): (r: SyscallFailureAllowRaw)
    ensures r.error == error && r.addr == addr && r.len == len
  {
    SyscallFailureAllowRaw(error, addr, len)
  }
}
