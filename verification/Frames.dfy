/** Size-bounded MCP frames: the streaming budget and the replacement of replies
    that do not fit. */
module Frames {
  import opened Wrappers

  // ---- The streaming budget ----

  function Total(writes: seq<seq<char>>): nat {
    if writes == [] then 0 else Total(writes[..|writes| - 1]) + |writes[|writes| - 1]|
  }

  lemma {:induction false} TotalPrefix(writes: seq<seq<char>>, i: nat)
    requires i <= |writes|
    ensures Total(writes[..i]) <= Total(writes)
  {
    if i < |writes| {
      var n := |writes| - 1;
      TotalPrefix(writes[..n], i);
      assert writes[..n][..i] == writes[..i];
    } else {
      assert writes[..i] == writes;
    }
  }

  /** All bytes of the frame, in order. */
  function Flatten(writes: seq<seq<char>>): string {
    if writes == [] then "" else Flatten(writes[..|writes| - 1]) + writes[|writes| - 1]
  }

  lemma {:induction false} TotalIsLength(writes: seq<seq<char>>)
    ensures Total(writes) == |Flatten(writes)|
  {
    if writes != [] { TotalIsLength(writes[..|writes| - 1]); }
  }

  class FrameBudget {
    var remaining: nat
    var exceeded: bool

    constructor (limit: nat)
      ensures remaining == limit && !exceeded
    {
      remaining := limit;
      exceeded := false;
    }

    method Write(bytes: seq<char>) returns (ok: bool)
      modifies this
      ensures ok <==> |bytes| <= old(remaining)
      ensures remaining == if ok then old(remaining) - |bytes| else old(remaining)
      ensures exceeded == (old(exceeded) || !ok)
    {
      if |bytes| > remaining {
        exceeded := true;
        return false;
      }
      remaining := remaining - |bytes|;
      ok := true;
    }
  }

  datatype FrameCheck = Fit | TooLarge | Unserializable

  /** `frame_fits_with_limit`: the serializer makes these writes, and may then fail
      by itself. Whatever the split into writes, a frame fits exactly when its
      length plus the newline is within the limit. */
  method FrameFits(writes: seq<seq<char>>, fails: bool, limit: nat) returns (v: FrameCheck)
    ensures v.TooLarge? <==> |Flatten(writes)| + 1 > limit
    ensures v.Fit? <==> |Flatten(writes)| + 1 <= limit && !fails
  {
    TotalIsLength(writes);
    if limit == 0 {
      return TooLarge;
    }
    var budget := new FrameBudget(limit - 1);
    var i := 0;
    while i < |writes|
      invariant 0 <= i <= |writes| && fresh(budget) && !budget.exceeded
      invariant budget.remaining + Total(writes[..i]) == limit - 1
    {
      TotalPrefix(writes, i + 1);
      assert writes[..i + 1][..i] == writes[..i];
      var ok := budget.Write(writes[i]);
      if !ok {
        return TooLarge;
      }
      i := i + 1;
    }
    assert writes[..i] == writes;
    v := if fails then Unserializable else Fit;
  }

  // ---- Replies ----

  type Id = string   // the JSON text of a request id

  datatype ServerResult =
    | CallTool(payload: nat, crashed: bool)   // length of its JSON text, native crash marker
    | OtherResult(payload: nat)

  datatype Message =
    | Response(id: Id, result: ServerResult)
    | Error(maybeId: Option<Id>, code: int, text: string, data: Option<nat>)
    | Request(size: nat)
    | Notification(size: nat)

  /** Lengths that the JSON encoding adds. */
  datatype Sizes = Sizes(
    responseFrame: nat,
    errorFrame: nat,
    noId: nat,
    dataField: nat,
    explanation: nat,          // a tool result holding only the explanation
    marker: nat,               // the crash marker in such a result
    explanationText: string)

  const INTERNAL_ERROR: int := -32603
  const COMPACT_LARGE_REPLY: string := "Reply too large; the operation may have changed the database"
  const ERROR_TOO_LARGE: string := "Error response too large"

  predicate IsI32(code: int) { -0x8000_0000 <= code < 0x8000_0000 }

  function Digits(n: nat): (r: nat)
    ensures r >= 1
  {
    if n < 10 then 1 else 1 + Digits(n / 10)
  }

  function CodeSize(code: int): nat {
    if code < 0 then 1 + Digits(-code) else Digits(code)
  }

  /** JSON length of one character inside a string. */
  function CharSize(c: char): nat {
    var n := c as int;
    if c == '"' || c == '\\' || c == '\n' || c == '\r' || c == '\t' || n == 8 || n == 12 then 2
    else if n < 0x20 then 6
    else if n < 0x80 then 1
    else if n < 0x800 then 2
    else if n < 0x1_0000 then 3
    else 4
  }

  predicate Plain(s: string) {
    forall i :: 0 <= i < |s| ==> ' ' <= s[i] <= '~' && s[i] != '"' && s[i] != '\\'
  }

  /** JSON length of the first `n` characters of a string. */
  function EscapedSize(s: string, n: nat): nat
    requires n <= |s|
    decreases n
  {
    if n == 0 then 0 else EscapedSize(s, n - 1) + CharSize(s[n - 1])
  }

  /** JSON length of a string with its quotes; printable ASCII needs no escapes. */
  function TextSize(s: string): nat {
    2 + if Plain(s) then |s| else EscapedSize(s, |s|)
  }

  function FrameSize(z: Sizes, m: Message): nat {
    match m
    case Response(id, result) => z.responseFrame + |id| + result.payload
    case Error(id, code, text, data) =>
      z.errorFrame + (if id.Some? then |id.value| else z.noId) + CodeSize(code) + TextSize(text)
      + (if data.Some? then z.dataField + data.value else 0)
    case Request(size) => size
    case Notification(size) => size
  }

  predicate Fits(z: Sizes, limit: nat, m: Message) {
    FrameSize(z, m) + 1 <= limit
  }

  function CompactError(id: Option<Id>): Message {
    Error(id, INTERNAL_ERROR, COMPACT_LARGE_REPLY, None)
  }

  predicate ResponseIdFits(z: Sizes, limit: nat, id: Id) {
    Fits(z, limit, CompactError(Some(id)))
  }

  /** The first replacement of an oversized response. */
  function Replacement(z: Sizes, id: Id, result: ServerResult): Message {
    match result
    case CallTool(_, crashed) => Response(id, CallTool(z.explanation + if crashed then z.marker else 0, crashed))
    case OtherResult(_) => Error(Some(id), INTERNAL_ERROR, z.explanationText, None)
  }

  function BoundedReply(z: Sizes, limit: nat, m: Message): Option<Message> {
    if Fits(z, limit, m) then Some(m)
    else match m
      case Response(id, result) =>
        var replacement := Replacement(z, id, result);
        if Fits(z, limit, replacement) then Some(replacement)
        else if Fits(z, limit, CompactError(Some(id))) then Some(CompactError(Some(id)))
        else None
      case Error(id, code, text, data) =>
        if Fits(z, limit, m.(data := None)) then Some(m.(data := None))
        else if Fits(z, limit, m.(data := None, text := ERROR_TOO_LARGE)) then Some(m.(data := None, text := ERROR_TOO_LARGE))
        else None
      case Request(_) => None
      case Notification(_) => None
  }

  function IdOf(m: Message): Option<Id> {
    match m
    case Response(id, _) => Some(id)
    case Error(id, _, _, _) => id
    case Request(_) => None
    case Notification(_) => None
  }

  predicate IsReply(m: Message) { m.Response? || m.Error? }

  lemma {:induction false} DigitsBound(n: nat, k: nat)
    requires k >= 1 && n < Pow10(k)
    ensures Digits(n) <= k
  {
    if n >= 10 {
      assert k >= 2 && n / 10 < Pow10(k - 1);
      DigitsBound(n / 10, k - 1);
    }
  }

  function Pow10(k: nat): nat {
    if k == 0 then 1 else 10 * Pow10(k - 1)
  }

  lemma I32Digits(code: int)
    requires IsI32(code)
    ensures CodeSize(code) <= 11
  {
    assert Pow10(10) == 10_000_000_000 by {
      assert Pow10(2) == 100 && Pow10(4) == 10_000 && Pow10(6) == 1_000_000 && Pow10(8) == 100_000_000;
    }
    DigitsBound(if code < 0 then -code else code, 10);
  }

  /** The short cut for plain text agrees with the count of its characters. */
  lemma {:induction false} PlainTextSize(s: string, n: nat)
    requires n <= |s| && Plain(s)
    ensures EscapedSize(s, n) == n
  {
    if n > 0 { PlainTextSize(s, n - 1); }
  }

  lemma {:induction false} EscapedSizeAtLeast(s: string, n: nat)
    requires n <= |s|
    ensures EscapedSize(s, n) >= n
  {
    if n > 0 { EscapedSizeAtLeast(s, n - 1); }
  }

  lemma CompactTextSize()
    ensures TextSize(COMPACT_LARGE_REPLY) >= 62
  {
    EscapedSizeAtLeast(COMPACT_LARGE_REPLY, |COMPACT_LARGE_REPLY|);
  }

  lemma ErrorTextSize()
    ensures TextSize(ERROR_TOO_LARGE) == 26
  {
  }

  /** The last resort for an error reply is never longer than the compact reply,
      whatever code it must keep. */
  lemma ErrorFallbackFits(z: Sizes, limit: nat, id: Id, code: int)
    requires IsI32(code) && ResponseIdFits(z, limit, id)
    ensures Fits(z, limit, Error(Some(id), code, ERROR_TOO_LARGE, None))
  {
    I32Digits(code);
    ErrorTextSize();
    CompactTextSize();
  }

  /** Every reply with an acceptable id gets through: bounded, under the same id;
      error replies keep their code; a reply that fits is not changed. */
  lemma BoundedReplyDelivers(z: Sizes, limit: nat, m: Message)
    requires IsReply(m) && IdOf(m).Some? && ResponseIdFits(z, limit, IdOf(m).value) && (m.Error? ==> IsI32(m.code))
    ensures BoundedReply(z, limit, m).Some?
    ensures var r := BoundedReply(z, limit, m).value;
            && Fits(z, limit, r) && IsReply(r) && IdOf(r) == IdOf(m)
            && (m.Error? ==> r.Error? && r.code == m.code)
            && (Fits(z, limit, m) ==> r == m)
  {
    if m.Error? { ErrorFallbackFits(z, limit, m.maybeId.value, m.code); }
  }

  /** Whatever is sent fits, and oversized messages that are no replies are refused. */
  lemma BoundedReplyFits(z: Sizes, limit: nat, m: Message)
    ensures BoundedReply(z, limit, m).Some? ==> Fits(z, limit, BoundedReply(z, limit, m).value)
    ensures !IsReply(m) ==> (BoundedReply(z, limit, m) == if Fits(z, limit, m) then Some(m) else None)
  {
  }

  predicate Marked(m: Message) {
    m.Response? && m.result.CallTool? && m.result.crashed
  }

  /** The crash marker survives exactly when the marked reply or its marked
      replacement fits, and never appears on a reply that did not carry it. */
  lemma CrashMarkerSurvives(z: Sizes, limit: nat, m: Message)
    requires BoundedReply(z, limit, m).Some?
    ensures Marked(BoundedReply(z, limit, m).value) <==>
            Marked(m) && (Fits(z, limit, m) || z.responseFrame + |m.id| + z.explanation + z.marker + 1 <= limit)
  {
  }

  /** What an oversized reply is replaced by. A tool result becomes the explaining tool
      result, any other result the explaining error, if these fit, and otherwise the
      compact error; an error loses its data first, and its text only if that is not
      enough; its code and id stay. */
  lemma OversizedReplies(z: Sizes, limit: nat, m: Message)
    requires FrameSize(z, m) + 1 > limit
    ensures m.Response? && m.result.CallTool? ==>
              var size := z.explanation + if m.result.crashed then z.marker else 0;
              if z.responseFrame + |m.id| + size + 1 <= limit
              then BoundedReply(z, limit, m) == Some(Response(m.id, CallTool(size, m.result.crashed)))
              else BoundedReply(z, limit, m) == CompactIfFits(z, limit, m.id)
    ensures m.Response? && m.result.OtherResult? ==>
              if z.errorFrame + |m.id| + CodeSize(-32603) + TextSize(z.explanationText) + 1 <= limit
              then BoundedReply(z, limit, m) == Some(Error(Some(m.id), -32603, z.explanationText, None))
              else BoundedReply(z, limit, m) == CompactIfFits(z, limit, m.id)
    ensures m.Error? ==>
              var base := z.errorFrame + (if m.maybeId.Some? then |m.maybeId.value| else z.noId) + CodeSize(m.code) + 1;
              if base + TextSize(m.text) <= limit then BoundedReply(z, limit, m) == Some(Error(m.maybeId, m.code, m.text, None))
              else if base + TextSize("Error response too large") <= limit
              then BoundedReply(z, limit, m) == Some(Error(m.maybeId, m.code, "Error response too large", None))
              else BoundedReply(z, limit, m) == None
  {
  }

  function CompactIfFits(z: Sizes, limit: nat, id: Id): Option<Message> {
    var text := "Reply too large; the operation may have changed the database";
    if z.errorFrame + |id| + CodeSize(-32603) + TextSize(text) + 1 <= limit
    then Some(Error(Some(id), -32603, text, None)) else None
  }
}
