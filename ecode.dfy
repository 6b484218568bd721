/** ecode/status.go: business error codes carried as gRPC statuses. A bare
    `Code` and a `*Status` both implement `Codes`; `Code.Message()` (the
    code's registered message) lives in a file that is not part of this
    model and is passed in as `codeMessage`. */
module Ecode {
  import opened Common
  import Strconv

  /** `ServerErr`, the code used for an unusable proto message. Its value is
      defined outside the modelled files; nothing below depends on it. */
  const ServerErr: int := -500

  /** What `Any.UnmarshalNew` makes of one status detail: a message, or
      the error it failed with. */
  type DetailOutcome = Result<string>

  /** A Go `int32`. */
  type Int32 = x: int | IsInt32(x)

  /** The `types.Status` proto message; its code is an `int32`. */
  datatype StatusProto = StatusProto(code: Int32, message: string, details: seq<DetailOutcome>)

  /** `*Status`, a wrapper around its proto. */
  datatype Status = Status(s: StatusProto)

  /** A `Codes` value: a bare `Code` or a `*Status`. */
  datatype Codes = CodeOf(code: int) | StatusOf(status: Status)

  /** `Error(code, message)`: the code is converted to `int32`, so it is
      kept exactly when it fits and is otherwise wrapped modulo 2^32. */
  function NewError(code: int, message: string): (st: Status)
    ensures st.s.message == message && st.s.details == []
    ensures IsInt32(code) ==> Code(st) == code
    ensures (code - Code(st)) % TwoTo32 == 0
  {
    Status(StatusProto(Wrap32(code), message, []))
  }

  /** `FromCode(code)`: a status with the code, converted to `int32`, and
      the registered message of the unconverted code. */
  function FromCode(code: int, codeMessage: int -> string): (st: Status)
    ensures st.s.details == []
    ensures IsInt32(code) ==> Code(st) == code
    ensures (code - Code(st)) % TwoTo32 == 0
    ensures codeMessage(code) != "" ==> Message(st) == codeMessage(code)
    ensures codeMessage(code) == "" ==> Message(st) == Strconv.Itoa(Code(st))
  {
    Status(StatusProto(Wrap32(code), codeMessage(code), []))
  }

  /** A code past the `int32` range does not survive `Error`: 2^31 reads
      back as -2^31, and its decimal message says so. */
  lemma CodeTruncated()
    ensures Code(NewError(0x8000_0000, "")) == -0x8000_0000
    ensures Message(NewError(0x8000_0000, "")) == Strconv.Itoa(-0x8000_0000)
  {
  }

  /** `Status.Code()`. */
  function Code(st: Status): int
  {
    st.s.code
  }

  /** `Status.Message()`: the stored message, or the code in decimal when
      the message is empty. */
  function Message(st: Status): (m: string)
    ensures m != ""
    ensures st.s.message != "" ==> m == st.s.message
    ensures st.s.message == "" ==> m == Strconv.Itoa(st.s.code)
  {
    if st.s.message == "" then Strconv.Itoa(st.s.code) else st.s.message
  }

  /** `Status.Error()`. */
  function ErrorText(st: Status): (e: string)
    ensures e == Message(st)
  {
    Message(st)
  }

  /** `Codes.Code()` and `Codes.Message()` of either implementation. */
  function CodesCode(c: Codes): int
  {
    match c
    case CodeOf(code) => code
    case StatusOf(st) => Code(st)
  }

  function CodesMessage(c: Codes, codeMessage: int -> string): string
  {
    match c
    case CodeOf(code) => codeMessage(code)
    case StatusOf(st) => Message(st)
  }

  /** The argument of `FromProto`: a `*types.Status`, or any other proto
      message, known by its `%v` rendering. */
  datatype ProtoMessage = StatusMessage(p: StatusProto) | OtherMessage(rendered: string)

  /** `FromProto`: a status whose message is empty or just its code in
      decimal becomes a bare `Code`; any other status is wrapped as it is;
      any other message becomes a `ServerErr` status. */
  function FromProto(pb: ProtoMessage): (c: Codes)
    ensures pb.StatusMessage? ==> CodesCode(c) == pb.p.code
    ensures c.CodeOf? ==> pb.StatusMessage?
  {
    match pb
    case StatusMessage(p) =>
      if p.message == "" || p.message == Strconv.Itoa(p.code) then CodeOf(p.code)
      else StatusOf(Status(p))
    case OtherMessage(rendered) => StatusOf(NewError(ServerErr, "invalid proto message get " + rendered))
  }

  /** `FromProto` keeps the code, and it drops the status exactly when the
      status says nothing beyond its code: its `Message()` is the code in
      decimal. When the status is kept, so is its message. */
  lemma FromProtoKeepsMeaning(p: StatusProto)
    ensures CodesCode(FromProto(StatusMessage(p))) == p.code
    ensures FromProto(StatusMessage(p)).CodeOf? <==> Message(Status(p)) == Strconv.Itoa(p.code)
    ensures FromProto(StatusMessage(p)).StatusOf? ==>
      forall cm: int -> string :: CodesMessage(FromProto(StatusMessage(p)), cm) == p.message
  {
  }

  /** A non-status proto message always gives a `ServerErr` status. */
  lemma FromProtoOther(rendered: string)
    ensures FromProto(OtherMessage(rendered)).StatusOf?
    ensures CodesCode(FromProto(OtherMessage(rendered))) == ServerErr
  {
  }

  /** A Go error value as these functions see it: an ecode value used as an
      error, an error made by gRPC's status package, an `errors.Wrap` or
      `WithStack` wrapper around a cause, or any other error. */
  datatype GoError =
    | CodesError(c: Codes)
    | GrpcError(code: int, message: string)
    | Wrapped(cause: GoError, context: string)
    | PlainError(text: string)

  /** `errors.Cause`: peel off every wrapper. */
  function Cause(e: GoError): (c: GoError)
    ensures !c.Wrapped?
  {
    if e.Wrapped? then Cause(e.cause) else e
  }

  /** `status.FromProto(s).Err()`: nil for code OK (0), otherwise an error
      carrying the code and message. */
  function GrpcErr(code: int, message: string): Option<GoError>
  {
    if code == 0 then None else Some(GrpcError(code, message))
  }

  /** `GRPCStatus(err, code)`: nil stays nil; the status takes the cause's
      code and message when the cause is an ecode value, otherwise the
      fallback code's. */
  function GRPCStatus(err: Option<GoError>, code: int, codeMessage: int -> string): (r: Option<GoError>)
    ensures err.None? ==> r.None?
    ensures err.Some? && Cause(err.value).CodesError? ==>
      r == GrpcErr(CodesCode(Cause(err.value).c), CodesMessage(Cause(err.value).c, codeMessage))
    ensures err.Some? && !Cause(err.value).CodesError? ==> r == GrpcErr(code, codeMessage(code))
  {
    if err.None? then None
    else
      var c := Cause(err.value);
      if c.CodesError? then GrpcErr(CodesCode(c.c), CodesMessage(c.c, codeMessage))
      else GrpcErr(code, codeMessage(code))
  }

  /** `FromStatus(err)`: nil stays nil, a gRPC status error becomes the bare
      `Code` it carries, and any other error is returned unchanged. */
  function FromStatus(err: Option<GoError>): (r: Option<GoError>)
    ensures err.None? ==> r.None?
    ensures err.Some? && err.value.GrpcError? ==> r == Some(CodesError(CodeOf(err.value.code)))
    ensures err.Some? && !err.value.GrpcError? ==> r == err
  {
    match err
    case None => None
    case Some(e) => if e.GrpcError? then Some(CodesError(CodeOf(e.code))) else err
  }

  /** A `*Status` going through `GRPCStatus` and back through `FromStatus`
      comes back as the bare code it carried, whatever wrappers surround it;
      a status with code 0 vanishes. */
  lemma StatusRoundTrip(st: Status, wrappers: nat, fallback: int, codeMessage: int -> string)
    ensures var e := WrapN(CodesError(StatusOf(st)), wrappers);
      FromStatus(GRPCStatus(Some(e), fallback, codeMessage)) ==
        if Code(st) == 0 then None else Some(CodesError(CodeOf(Code(st))))
  {
    CauseWrapN(CodesError(StatusOf(st)), wrappers);
  }

  function WrapN(e: GoError, n: nat): GoError
  {
    if n == 0 then e else Wrapped(WrapN(e, n - 1), "")
  }

  lemma {:induction false} CauseWrapN(e: GoError, n: nat)
    requires !e.Wrapped?
    ensures Cause(WrapN(e, n)) == e
  {
    if n > 0 {
      CauseWrapN(e, n - 1);
    }
  }

  /** One entry of `Details()`: the unmarshalled message or the error. */
  datatype Detail = DetailMessage(m: string) | DetailError(e: Error)

  /** `Status.Details()`: nil for a nil status; otherwise one entry per
      detail, in order, each the unmarshalled message or its error. */
  method Details(st: Option<Status>) returns (r: Option<seq<Detail>>)
    ensures st.None? <==> r.None?
    ensures st.Some? ==> |r.value| == |st.value.s.details|
    ensures st.Some? ==> forall i :: 0 <= i < |r.value| ==>
      r.value[i] == match st.value.s.details[i]
                    case Ok(m) => DetailMessage(m)
                    case Err(e) => DetailError(e)
  {
    if st.None? {
      return None;
    }
    var ds := st.value.s.details;
    var details: seq<Detail> := [];
    for i := 0 to |ds|
      invariant |details| == i
      invariant forall j :: 0 <= j < i ==>
        details[j] == match ds[j]
                      case Ok(m) => DetailMessage(m)
                      case Err(e) => DetailError(e)
    {
      match ds[i]
      case Err(e) =>
        details := details + [DetailError(e)];
      case Ok(m) =>
        details := details + [DetailMessage(m)];
    }
    r := Some(details);
  }
}
