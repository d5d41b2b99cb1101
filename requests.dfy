/** Requests served by the older peers (request.cpp) and the responses their
    callers receive (request.h). */
module Requests {
  import opened Common

  /** kjson::Value as far as these files look into it: undefined, a string,
      or any other JSON value (kept as its serialized text). */
  datatype Value = Undefined | Str(s: string) | Json(text: string)

  predicate Defined(v: Value) { !v.Undefined? }

  /** `get_string()`: the text of a string value; other values give "". */
  function GetString(v: Value): string
  {
    if v.Str? then v.s else ""
  }

  // ---------------------------------------------------------------------
  // Response (request.h): a type tag and the data

  datatype ResponseType = ResultType | ExceptionType | ExecuteErrorType | DisconnectedType

  datatype Response = Response(t: ResponseType, d: Value)

  predicate HasResult(r: Response) { r.t == ResultType }
  predicate HasException(r: Response) { r.t == ExceptionType }
  predicate HasExecuteError(r: Response) { r.t == ExecuteErrorType }
  predicate HasDisconnected(r: Response) { r.t == DisconnectedType }

  /** get_result: the data of a result, undefined for any other response. */
  function GetResult(r: Response): (v: Value)
    ensures HasResult(r) ==> v == r.d
    ensures !HasResult(r) ==> v == Undefined
  {
    if r.t == ResultType then r.d else Undefined
  }

  /** get_exception: the data of an exception, undefined otherwise. */
  function GetException(r: Response): (v: Value)
    ensures HasException(r) ==> v == r.d
    ensures !HasException(r) ==> v == Undefined
  {
    if r.t == ExceptionType then r.d else Undefined
  }

  /** get_execute_error: the reason of an execute error, empty otherwise. */
  function GetExecuteError(r: Response): (s: string)
    ensures HasExecuteError(r) ==> s == GetString(r.d)
    ensures !HasExecuteError(r) ==> s == ""
  {
    if r.t == ExecuteErrorType then GetString(r.d) else ""
  }

  /** Exactly one of has_result, has_exception, has_execute_error and
      has_disconnected holds, and at most one accessor yields anything. */
  lemma OneKind(r: Response)
    ensures (if HasResult(r) then 1 else 0) + (if HasException(r) then 1 else 0)
          + (if HasExecuteError(r) then 1 else 0) + (if HasDisconnected(r) then 1 else 0) == 1
    ensures Defined(GetResult(r)) ==> !Defined(GetException(r)) && GetExecuteError(r) == ""
    ensures Defined(GetException(r)) ==> GetExecuteError(r) == ""
    ensures HasDisconnected(r) ==>
              GetResult(r) == Undefined && GetException(r) == Undefined && GetExecuteError(r) == ""
  {
  }

  // ---------------------------------------------------------------------
  // Exception text (request.cpp): "code message"

  const Int32Modulus: int := 0x1_0000_0000

  predicate IsInt32(v: int) { -0x8000_0000 <= v < 0x8000_0000 }

  /** A `long` narrowed to `int`: reduced modulo 2^32 into the signed range. */
  function ToInt32(v: int): (r: int)
    ensures IsInt32(r)
    ensures IsInt32(v) ==> r == v
  {
    (v + 0x8000_0000) % Int32Modulus - 0x8000_0000
  }

  /** Trailing white space removed. */
  function TrimEnd(s: string): (r: string)
    ensures |r| <= |s| && r == s[..|r|]
    ensures r == [] || !IsSpace(r[|r| - 1])
  {
    if |s| > 0 && IsSpace(s[|s| - 1]) then TrimEnd(s[..|s| - 1]) else s
  }

  /** White space removed at both ends. */
  function Trim(s: string): string
  {
    TrimEnd(SkipSpaces(s))
  }

  /** What Request::send_exception(code, message) sends. */
  function ExceptionText(code: int, message: string): string
  {
    IntToDecimal(code) + " " + message
  }

  /** Response::get_exception: the leading integer read by `strtol` (as an
      `int`) and the rest of the text, trimmed. */
  function GetExceptionParts(d: string): (int, string)
  {
    var p := StrToL(d);
    (ToInt32(p.value), Trim(p.rest))
  }

  /** A leading space is trimmed away. */
  lemma TrimSpace(message: string)
    ensures Trim(" " + message) == Trim(message)
  {
    assert (" " + message)[1..] == message;
  }

  /** get_exception reads back the code and the (trimmed) message that
      send_exception(code, message) formats. */
  lemma ExceptionRoundTrip(code: int, message: string)
    requires IsInt32(code)
    ensures GetExceptionParts(ExceptionText(code, message)) == (code, Trim(message))
  {
    StrToLOfDecimal(code, message);
    TrimSpace(message);
  }

  // ---------------------------------------------------------------------
  // Request (request.cpp)

  /** What a request asked its peer to send. */
  datatype Reply =
    | ResultReply(id: string, text: string)
    | ExceptionReply(id: string, text: string)
    | ExecuteErrorReply(id: string, reason: string)

  class Request {
    /** Whether the weak reference `_node` still reaches the peer. */
    var peerAlive: bool
    var responseSent: bool
    /** `id \0 method \0 args \0`, which the three views below slice. */
    var stringData: string
    var id: string
    var methodName: string
    var args: string
    /** What this request asked the peer to send, in order. */
    var replies: seq<Reply>

    /** At most one reply, and none before the response is marked sent. */
    ghost predicate Valid()
      reads this
    {
      |replies| <= 1 && (!responseSent ==> replies == [])
    }

    /** Copies the three texts into one NUL-separated buffer and takes the
        id, the method name and the arguments back out of it by length. */
    constructor(peerAlive: bool, id: string, methodName: string, args: string)
      ensures Valid() && !responseSent && replies == [] && this.peerAlive == peerAlive
      ensures stringData == id + "\0" + methodName + "\0" + args + "\0"
      ensures this.id == id && this.methodName == methodName && this.args == args
    {
      this.peerAlive := peerAlive;
      responseSent := false;
      var data := [];
      data := data + id;
      data := data + ['\0'];
      data := data + methodName;
      data := data + ['\0'];
      data := data + args;
      data := data + ['\0'];
      stringData := data;
      var start := |id| + 1 + |methodName| + 1;
      assert data[..|id|] == id;
      assert data[|id| + 1..|id| + 1 + |methodName|] == methodName;
      assert data[start..start + |args|] == args;
      this.id := data[..|id|];
      this.methodName := data[|id| + 1..|id| + 1 + |methodName|];
      this.args := data[start..start + |args|];
      replies := [];
    }

    /** The move constructor: the new request takes over the duty to
        respond; the source is marked as answered and loses its peer. */
    constructor Moved(other: Request)
      requires other.Valid()
      modifies other`responseSent, other`peerAlive
      ensures Valid() && other.Valid()
      ensures responseSent == old(other.responseSent) && other.responseSent
      ensures peerAlive == old(other.peerAlive) && !other.peerAlive
      ensures id == other.id && methodName == other.methodName && args == other.args
      ensures stringData == other.stringData && replies == []
      ensures other.replies == old(other.replies)
    {
      peerAlive := other.peerAlive;
      responseSent := other.responseSent;
      stringData := other.stringData;
      id := other.id;
      methodName := other.methodName;
      args := other.args;
      replies := [];
      other.responseSent := true;
      other.peerAlive := false;
    }

    /** Shared by the three send operations: only the first has an effect,
        and it marks the request answered even when the peer is gone. */
    method Respond(r: Reply)
      requires Valid()
      modifies this`responseSent, this`replies
      ensures Valid() && responseSent
      ensures replies == old(replies) + (if !old(responseSent) && peerAlive then [r] else [])
    {
      if responseSent {
        return;
      }
      if peerAlive {
        replies := replies + [r];
      }
      responseSent := true;
    }

    method SendResult(val: string)
      requires Valid()
      modifies this`responseSent, this`replies
      ensures Valid() && responseSent
      ensures replies == old(replies) + (if !old(responseSent) && peerAlive then [ResultReply(id, val)] else [])
    {
      Respond(ResultReply(id, val));
    }

    method SendException(val: string)
      requires Valid()
      modifies this`responseSent, this`replies
      ensures Valid() && responseSent
      ensures replies == old(replies) + (if !old(responseSent) && peerAlive then [ExceptionReply(id, val)] else [])
    {
      Respond(ExceptionReply(id, val));
    }

    /** send_exception(code, message): the code in decimal, a space, the text. */
    method SendExceptionCode(code: int, message: string)
      requires Valid()
      modifies this`responseSent, this`replies
      ensures Valid() && responseSent
      ensures replies == old(replies)
                       + (if !old(responseSent) && peerAlive then [ExceptionReply(id, ExceptionText(code, message))] else [])
    {
      var msg := IntToDecimal(code);
      msg := msg + [' '];
      msg := msg + message;
      SendException(msg);
    }

    method SendExecuteError(reason: string)
      requires Valid()
      modifies this`responseSent, this`replies
      ensures Valid() && responseSent
      ensures replies == old(replies) + (if !old(responseSent) && peerAlive then [ExecuteErrorReply(id, reason)] else [])
    {
      Respond(ExecuteErrorReply(id, reason));
    }

    /** The destructor: an unanswered request answers with an empty result. */
    method Destroy()
      requires Valid()
      modifies this`responseSent, this`replies
      ensures Valid() && responseSent
      ensures replies == old(replies) + (if !old(responseSent) && peerAlive then [ResultReply(id, "")] else [])
    {
      if !responseSent {
        SendResult("");
      }
    }
  }
}
