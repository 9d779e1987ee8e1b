/** Request ids on the wire, and the loop of `recvResponse` in pkg/proxy/proxy.go. */
module MessageIds {
  import opened Float64

  /** The id of a message as Go sees it after decoding: a JSON number becomes a float64. */
  datatype Id = NoId | IntId(n: int) | Int64Id(n: int) | FloatId(x: real) | OtherId

  /** How a peer's answer carries the number of the request. */
  datatype Form = AsInt | AsInt64 | AsFloat

  const EXACT := 0x20_0000_0000_0000  // 2^53

  /** `int64(v)` of a float64 drops the fraction. */
  function Truncate(x: real): int {
    if x >= 0.0 then x.Floor else -((-x).Floor)
  }

  predicate Matches(id: Id, want: int) {
    match id
    case NoId => false
    case IntId(n) => n == want
    case Int64Id(n) => n == want
    case FloatId(x) => Truncate(x) == want
    case OtherId => false
  }

  function Encode(n: nat, form: Form): Id {
    match form
    case AsInt => IntId(n)
    case AsInt64 => Int64Id(n)
    case AsFloat => FloatId(Round(n as real))
  }

  /** Number `n` is still itself after it was a float64. */
  predicate Survives(n: nat) {
    Round(n as real) == n as real
  }

  /** Request numbers survive the trip through a float64 exactly as long as the counter stays
      within 2^53. */
  lemma ExactIff(bound: nat)
    ensures (forall n: nat :: n <= bound ==> Survives(n)) <==> bound <= EXACT
  {
    hide Round;
    if bound <= EXACT {
      forall n: nat | n <= bound ensures Survives(n) {
        RoundInteger(n);
      }
    } else {
      RoundBeyond();
      assert !Survives(EXACT + 1);
    }
  }

  /** The answer to request 2^53 + 1, sent as a number, looks like the answer to request 2^53. */
  lemma BeyondExact()
    ensures Round((EXACT + 1) as real) == EXACT as real
    ensures Matches(Encode(EXACT + 1, AsFloat), EXACT) && !Matches(Encode(EXACT + 1, AsFloat), EXACT + 1)
  {
    hide Round;
    RoundBeyond();
  }

  /** Within the bound an answer matches its own request and no other. */
  lemma AnswerMatches(n: nat, form: Form, want: int)
    requires n <= EXACT
    ensures Matches(Encode(n, form), want) <==> want == n
  {
    hide Round;
    RoundInteger(n);
  }

  /** What matches a number: the number as an integer, or any float64 that is the number when cut off
      towards zero; no id and other ids match nothing. */
  lemma MatchesIff(id: Id, want: int)
    ensures Matches(id, want) <==>
            || id == IntId(want) || id == Int64Id(want)
            || (id.FloatId? && (if want > 0 then want as real <= id.x < want as real + 1.0
                                else if want < 0 then want as real - 1.0 < id.x <= want as real
                                else -1.0 < id.x < 1.0))
  {
  }

  /** No id matches two requests. */
  lemma MatchesOne(id: Id, a: int, b: int)
    requires Matches(id, a) && Matches(id, b)
    ensures a == b
  {
  }

  // ----- the receive loop -----

  datatype Fault = NoFault | Fault(code: int, text: string)

  datatype Message<T> = Message(id: Id, fault: Fault, body: T)

  /** What one `Recv` of the transport gives.  `ReadFails`: the transport breaks, the caller's context
      ends, or the time allowed for the call is over. */
  datatype Received<T> = Msg(m: Message<T>) | ReadFails

  /** `RpcError`: the error names the peer's code and text. */
  datatype Response<T> = Ok(m: Message<T>) | RpcError(code: int, text: string) | RecvError

  /** An event that ends the loop. */
  predicate Decisive<T>(e: Received<T>, id: int) {
    e.ReadFails? || Matches(e.m.id, id)
  }

  /** A failed read ends the loop, and so does a message that carries the awaited number; notifications
      and messages with another number do not. */
  lemma DecisiveIff<T>(e: Received<T>, id: int)
    ensures Decisive(e, id) <==> e == ReadFails || (e.Msg? && e.m.id != NoId && Matches(e.m.id, id))
  {
  }

  ghost predicate FirstDecisive<T>(pending: seq<Received<T>>, k: nat, id: int)
    requires k < |pending|
  {
    Decisive(pending[k], id) && forall i :: 0 <= i < k ==> !Decisive(pending[i], id)
  }

  class Inbound<T> {
    var pending: seq<Received<T>>

    constructor (pending: seq<Received<T>>)
      ensures this.pending == pending
    {
      this.pending := pending;
    }

    /** The loop skips exactly the messages before the first decisive event, consumes that one, and
        returns it; without one it reads everything and ends when its time is over. */
    method RecvResponse(id: int) returns (r: Response<T>)
      modifies this
      ensures forall k | 0 <= k < |old(pending)| && FirstDecisive(old(pending), k, id) ::
                && pending == old(pending)[k+1..]
                && r == match old(pending)[k] {
                          case ReadFails => RecvError
                          case Msg(m) => if m.fault.Fault? then RpcError(m.fault.code, m.fault.text) else Ok(m)
                        }
      ensures (forall k | 0 <= k < |old(pending)| :: !Decisive(old(pending)[k], id)) ==>
                pending == [] && r == RecvError
    {
      ghost var n := 0;
      while |pending| > 0
        invariant 0 <= n <= |old(pending)| && pending == old(pending)[n..]
        invariant forall i :: 0 <= i < n ==> !Decisive(old(pending)[i], id)
        decreases |pending|
      {
        var e := pending[0];
        pending := pending[1..];
        n := n + 1;
        if e.ReadFails? {
          return RecvError;
        }
        if Matches(e.m.id, id) {
          if e.m.fault.Fault? {
            return RpcError(e.m.fault.code, e.m.fault.text);
          }
          return Ok(e.m);
        }
      }
      return RecvError;
    }
  }
}
