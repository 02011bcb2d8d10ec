/** The chat-messages module of the bot (bot.js:76-97): either every configured
    message is sent once, in order, or a timer sends one message per tick from
    a persistent index that wraps to the first message after the last one. */
module ChatMessages {

  /** What the template literal `${messages[i]}` yields when `i` is past the
      end of the list. */
  const Undefined: string := "undefined"

  /** One advance of the cycle index: back to 0 exactly when `i + 1` equals the
      list length, otherwise one further. With an empty list the wrap test
      never fires. */
  function Step(i: nat, n: nat): nat {
    if i + 1 == n then 0 else i + 1
  }

  /** The cycle index after `k` ticks, starting from 0. */
  function IndexAfter(n: nat, k: nat): nat {
    if k == 0 then 0 else Step(IndexAfter(n, k - 1), n)
  }

  /** The text handed to the chat on a tick that reads index `i`. */
  function Render(messages: seq<string>, i: nat): string {
    if i < |messages| then messages[i] else Undefined
  }

  /** The text sent on tick `k` (counting from 0) of the repeating cycle. */
  function MessageAt(messages: seq<string>, k: nat): string {
    Render(messages, IndexAfter(|messages|, k))
  }

  /** With a non-empty list the index after k ticks is k mod N, hence always
      a valid position. */
  lemma {:induction false} IndexAfterIsMod(n: nat, k: nat)
    requires n > 0
    ensures IndexAfter(n, k) == k % n
    ensures IndexAfter(n, k) < n
  {
    if k > 0 {
      IndexAfterIsMod(n, k - 1);
      var p := (k - 1) % n;
      var q := (k - 1) / n;
      assert k - 1 == q * n + p;
      if p + 1 == n {
        ModUnique(k, n, q + 1, 0);
      } else {
        ModUnique(k, n, q, p + 1);
      }
    }
  }

  lemma MulAtLeast(d: int, n: int)
    requires d >= 1 && n > 0
    ensures d * n >= n
  {
  }

  /** Quotient and remainder are unique: a == q * n + r with 0 <= r < n fixes a % n. */
  lemma ModUnique(a: int, n: int, q: int, r: int)
    requires n > 0 && 0 <= r < n && a == q * n + r
    ensures a % n == r
  {
    var q', r' := a / n, a % n;
    assert a == q' * n + r';
    assert (q - q') * n == r' - r;
    if q > q' {
      MulAtLeast(q - q', n);
    } else if q < q' {
      MulAtLeast(q' - q, n);
    }
  }

  /** Tick k of the repeating cycle over a non-empty list sends messages[k mod N]. */
  lemma MessageAtIsModular(messages: seq<string>, k: nat)
    requires |messages| > 0
    ensures MessageAt(messages, k) == messages[k % |messages|]
  {
    IndexAfterIsMod(|messages|, k);
  }

  /** With an empty list the wrap test `i + 1 === messages.length` never holds:
      the index after k ticks is k, and every tick sends "undefined". */
  lemma {:induction false} EmptyListIndexGrows(k: nat)
    ensures IndexAfter(0, k) == k
    ensures MessageAt([], k) == Undefined
  {
    if k > 0 {
      EmptyListIndexGrows(k - 1);
    }
  }

  /** Repeating mode: the interval callback and the index `i` it captures. */
  class ChatCycle {
    const messages: seq<string>
    var i: nat
    /** Number of ticks run so far. */
    ghost var ticks: nat

    ghost predicate Valid()
      reads this
    {
      i == IndexAfter(|messages|, ticks)
    }

    constructor (messages: seq<string>)
      ensures Valid()
      ensures this.messages == messages && i == 0 && ticks == 0
    {
      this.messages := messages;
      i := 0;
      ticks := 0;
    }

    /** One interval tick: send `messages[i]`, then advance or wrap `i`. */
    method Tick() returns (sent: string)
      requires Valid()
      modifies this
      ensures Valid()
      ensures ticks == old(ticks) + 1
      ensures sent == MessageAt(messages, old(ticks))
      ensures |messages| > 0 ==> sent == messages[old(ticks) % |messages|] && i < |messages|
      ensures |messages| == 0 ==> sent == Undefined && i == ticks
    {
      sent := Render(messages, i);
      if i + 1 == |messages| {
        i := 0;
      } else {
        i := i + 1;
      }
      ticks := ticks + 1;
      if |messages| > 0 {
        MessageAtIsModular(messages, old(ticks));
        IndexAfterIsMod(|messages|, ticks);
      } else {
        EmptyListIndexGrows(ticks);
      }
    }
  }

  /** One-shot mode: `messages.forEach(msg => bot.chat(msg))`. The result is the
      sequence of texts handed to the chat, in the order they were sent. */
  method BroadcastOnce(messages: seq<string>) returns (sent: seq<string>)
    ensures sent == messages
  {
    sent := [];
    for j := 0 to |messages|
      invariant sent == messages[..j]
    {
      sent := sent + [messages[j]];
    }
  }
}
