/**
 * DNS messages as the proxy handles them: the header fields it reads or
 * rewrites, the question section, and the record sections it passes through
 * untouched. The wire codec is supplied from outside as two functions that
 * may fail, standing for the library's `Pack` and `Unpack`.
 */
module Messages {
  import opened Wrappers

  newtype u16 = x: int | 0 <= x < 0x1_0000
  newtype byte = x: int | 0 <= x < 0x100
  type Bytes = seq<byte>

  const OpcodeQuery: nat := 0

  const RcodeSuccess: nat := 0
  const RcodeFormatError: nat := 1
  const RcodeServerFailure: nat := 2
  const RcodeRefused: nat := 5

  /** One question: the name asked about, its class and its record type. */
  datatype Question = Question(name: string, qclass: u16, qtype: u16)

  /** Resource records are carried in presentation form and never inspected. */
  type Record = string

  datatype Msg = Msg(
    id: u16,
    response: bool,
    opcode: nat,
    recursionDesired: bool,
    checkingDisabled: bool,
    rcode: nat,
    question: seq<Question>,
    answer: seq<Record>,
    ns: seq<Record>,
    extra: seq<Record>)

  /** `new(dns.Msg)`: every field at its zero value. */
  const Blank := Msg(0, false, OpcodeQuery, false, false, RcodeSuccess, [], [], [], [])

  /**
   * The library's `m.SetReply(request)`: address `m` to `request` by copying
   * its id, opcode, and (for a plain query) its RD and CD bits, mark it as a
   * successful response and echo the request's first question. The record
   * sections of `m` are kept as they are.
   */
  function SetReply(m: Msg, request: Msg): (r: Msg)
    ensures r.id == request.id && r.response && r.opcode == request.opcode
    ensures r.rcode == RcodeSuccess
    ensures request.opcode == OpcodeQuery ==>
      r.recursionDesired == request.recursionDesired && r.checkingDisabled == request.checkingDisabled
    ensures r.question == if request.question == [] then m.question else [request.question[0]]
    ensures r.answer == m.answer && r.ns == m.ns && r.extra == m.extra
  {
    var copied := if request.opcode == OpcodeQuery
      then m.(recursionDesired := request.recursionDesired, checkingDisabled := request.checkingDisabled)
      else m;
    copied.(
      id := request.id,
      response := true,
      opcode := request.opcode,
      rcode := RcodeSuccess,
      question := if request.question == [] then m.question else [request.question[0]])
  }

  /** The library's `m.SetRcode(request, rcode)`: `SetReply` followed by setting the rcode. */
  function SetRcode(m: Msg, request: Msg, rcode: nat): (r: Msg)
    ensures r.rcode == rcode && r.response
    ensures r.id == request.id && r.opcode == request.opcode
    ensures r.answer == m.answer && r.ns == m.ns && r.extra == m.extra
  {
    SetReply(m, request).(rcode := rcode)
  }

  /**
   * `errorResponse`: a fresh message addressed to `request` that carries only
   * the response code and no records.
   */
  function ErrorResponse(request: Msg, rcode: nat): (r: Msg)
    ensures r.rcode == rcode && r.response
    ensures r.id == request.id && r.opcode == request.opcode
    ensures r.question == if request.question == [] then [] else [request.question[0]]
    ensures r.answer == [] && r.ns == [] && r.extra == []
  {
    SetRcode(Blank, request, rcode)
  }

  /** The wire codec: packing a message or unpacking bytes may fail (None). */
  datatype Codec = Codec(pack: Msg -> Option<Bytes>, unpack: Bytes -> Option<Msg>)
}
