/** The greedy context-budget packer of the agent script: the messages fetched
    newest-first are kept, one after the other, while each body's token length
    is strictly below the budget still remaining; the first message that does
    not fit ends the walk.  The kept messages are then reversed into
    chronological order. */
module Packer {

  /** A chat message as the script reads it from a Graph response:
      `from.user.displayName`, `body.content` and `lastModifiedDateTime`. */
  datatype Message = Message(displayName: string, content: string, lastModifiedDateTime: string)

  /** The total token length of the bodies of `ms`, as the tokenizer `tokens`
      measures them: nothing for no message, and never less than any one body. */
  function SumTokens(ms: seq<Message>, tokens: string -> nat): (total: nat)
    ensures ms == [] ==> total == 0
    ensures forall i :: 0 <= i < |ms| ==> tokens(ms[i].content) <= total
  {
    if ms == [] then 0 else tokens(ms[0].content) + SumTokens(ms[1..], tokens)
  }

  /** Appending one message adds its body's token length. */
  lemma {:induction false} SumTokensAppend(ms: seq<Message>, m: Message, tokens: string -> nat)
    ensures SumTokens(ms + [m], tokens) == SumTokens(ms, tokens) + tokens(m.content)
  {
    if ms == [] {
      assert [m][1..] == [];
    } else {
      assert (ms + [m])[1..] == ms[1..] + [m];
      SumTokensAppend(ms[1..], m, tokens);
    }
  }

  /** The token length of a non-empty prefix is the first body's plus that of the rest's prefix. */
  lemma SumTokensPrefix(ms: seq<Message>, i: nat, tokens: string -> nat)
    requires 0 < i <= |ms|
    ensures SumTokens(ms[..i], tokens) == tokens(ms[0].content) + SumTokens(ms[1..][..i - 1], tokens)
  {
    assert ms[..i][1..] == ms[1..][..i - 1];
  }

  /** The messages the packing loop keeps from `ms` (newest first) when
      `remaining` tokens are left: a prefix of `ms` whose total stays strictly
      below `remaining` as soon as anything is kept. */
  function KeepNewest(ms: seq<Message>, remaining: int, tokens: string -> nat): (kept: seq<Message>)
    ensures |kept| <= |ms|
    ensures kept != [] ==> SumTokens(kept, tokens) < remaining
  {
    if ms == [] then []
    else if tokens(ms[0].content) < remaining then
      var rest := KeepNewest(ms[1..], remaining - tokens(ms[0].content), tokens);
      assert ([ms[0]] + rest)[1..] == rest;
      [ms[0]] + rest
    else []
  }

  /** What the packer keeps is the newest messages, in their fetched order. */
  lemma {:induction false} KeepNewestIsPrefix(ms: seq<Message>, remaining: int, tokens: string -> nat)
    ensures KeepNewest(ms, remaining, tokens) == ms[..|KeepNewest(ms, remaining, tokens)|]
  {
    if ms != [] && tokens(ms[0].content) < remaining {
      KeepNewestIsPrefix(ms[1..], remaining - tokens(ms[0].content), tokens);
    }
  }

  /** Independent description of the packer's choice: taking the first `k`
      messages is the greedy cut when each of them is strictly shorter than
      the budget left before it, and the next message, if any, is not. */
  ghost predicate GreedyCut(ms: seq<Message>, budget: int, tokens: string -> nat, k: nat)
  {
    && k <= |ms|
    && (forall i :: 0 <= i < k ==> tokens(ms[i].content) < budget - SumTokens(ms[..i], tokens))
    && (k < |ms| ==> tokens(ms[k].content) >= budget - SumTokens(ms[..k], tokens))
  }

  /** What the packer keeps is the greedy cut. */
  lemma {:induction false} KeepNewestIsGreedyCut(ms: seq<Message>, budget: int, tokens: string -> nat)
    ensures GreedyCut(ms, budget, tokens, |KeepNewest(ms, budget, tokens)|)
  {
    if ms != [] && tokens(ms[0].content) < budget {
      var first := tokens(ms[0].content);
      var k := |KeepNewest(ms, budget, tokens)|;
      KeepNewestIsGreedyCut(ms[1..], budget - first, tokens);
      forall i | 0 <= i < k
        ensures tokens(ms[i].content) < budget - SumTokens(ms[..i], tokens)
      {
        if i > 0 {
          SumTokensPrefix(ms, i, tokens);
          assert ms[1..][i - 1] == ms[i];
        }
      }
      if k < |ms| {
        SumTokensPrefix(ms, k, tokens);
        assert ms[1..][k - 1] == ms[k];
      }
    }
  }

  /** The greedy cut is unique, so it characterises the packer completely:
      a cut of `k` messages is the greedy one exactly when the packer keeps `k`. */
  lemma GreedyCutIsKeepNewest(ms: seq<Message>, budget: int, tokens: string -> nat, k: nat)
    ensures GreedyCut(ms, budget, tokens, k) <==> k == |KeepNewest(ms, budget, tokens)|
  {
    KeepNewestIsGreedyCut(ms, budget, tokens);
  }

  /** A message whose length equals the remaining budget is refused, and
      nothing after it is considered. */
  lemma EqualLengthRejected(ms: seq<Message>, i: nat, budget: int, tokens: string -> nat)
    requires i < |ms| && tokens(ms[i].content) == budget - SumTokens(ms[..i], tokens)
    ensures |KeepNewest(ms, budget, tokens)| <= i
  {
    KeepNewestIsGreedyCut(ms, budget, tokens);
  }

  /** Once a message does not fit, what follows it is never looked at:
      appending more messages, however short, changes nothing. */
  lemma {:induction false} LaterMessagesIgnored(ms: seq<Message>, tail: seq<Message>, budget: int, tokens: string -> nat)
    requires |KeepNewest(ms, budget, tokens)| < |ms|
    ensures KeepNewest(ms + tail, budget, tokens) == KeepNewest(ms, budget, tokens)
  {
    assert (ms + tail)[0] == ms[0];
    if tokens(ms[0].content) < budget {
      assert (ms + tail)[1..] == ms[1..] + tail;
      LaterMessagesIgnored(ms[1..], tail, budget - tokens(ms[0].content), tokens);
    }
  }

  /** A budget of zero or less keeps nothing. */
  lemma NonPositiveBudgetKeepsNothing(ms: seq<Message>, budget: int, tokens: string -> nat)
    requires budget <= 0
    ensures KeepNewest(ms, budget, tokens) == []
  {
  }

  /** The packer's choice from position `i` of `ms` on, when `remaining`
      tokens are left.  This is `KeepNewest` again, indexed rather than
      sliced (`KeepFromIsKeepNewest` proves them equal); it exists only so
      that `SelectNewest`'s loop invariant stays cheap to verify. */
  ghost function KeepFrom(ms: seq<Message>, i: nat, remaining: int, tokens: string -> nat): seq<Message>
    requires i <= |ms|
    decreases |ms| - i
  {
    if i == |ms| then []
    else if tokens(ms[i].content) < remaining then
      [ms[i]] + KeepFrom(ms, i + 1, remaining - tokens(ms[i].content), tokens)
    else []
  }

  /** Walking from position `i` is packing the messages from `i` on. */
  lemma {:induction false} KeepFromIsKeepNewest(ms: seq<Message>, i: nat, remaining: int, tokens: string -> nat)
    requires i <= |ms|
    ensures KeepFrom(ms, i, remaining, tokens) == KeepNewest(ms[i..], remaining, tokens)
    decreases |ms| - i
  {
    if i < |ms| {
      assert ms[i..][0] == ms[i] && ms[i..][1..] == ms[i + 1..];
      if tokens(ms[i].content) < remaining {
        KeepFromIsKeepNewest(ms, i + 1, remaining - tokens(ms[i].content), tokens);
      }
    }
  }

  /** The state of the packing walk after looking at the first `i` messages:
      `kept` and what the walk keeps from `i` on make up the packer's choice,
      and `remaining` is the budget less what was kept. */
  ghost predicate Walked(ms: seq<Message>, budget: int, tokens: string -> nat, i: nat, kept: seq<Message>, remaining: int)
  {
    && i <= |ms|
    && kept + KeepFrom(ms, i, remaining, tokens) == KeepFrom(ms, 0, budget, tokens)
    && remaining + SumTokens(kept, tokens) == budget
  }

  /** Keeping a message that fits moves the walk on by one. */
  lemma WalkKeeps(ms: seq<Message>, budget: int, tokens: string -> nat, i: nat, kept: seq<Message>, remaining: int)
    requires Walked(ms, budget, tokens, i, kept, remaining)
    requires i < |ms| && tokens(ms[i].content) < remaining
    ensures Walked(ms, budget, tokens, i + 1, kept + [ms[i]], remaining - tokens(ms[i].content))
  {
    SumTokensAppend(kept, ms[i], tokens);
  }

  /** Where the walk stops, what was kept is the packer's choice. */
  lemma WalkEnds(ms: seq<Message>, budget: int, tokens: string -> nat, i: nat, kept: seq<Message>, remaining: int)
    requires Walked(ms, budget, tokens, i, kept, remaining)
    requires i == |ms| || tokens(ms[i].content) >= remaining
    ensures kept == KeepNewest(ms, budget, tokens)
  {
    KeepFromIsKeepNewest(ms, 0, budget, tokens);
    assert ms[0..] == ms;
  }

  /** The packing loop: walks `messagesLastFirst`, keeps each message while
      its length is strictly below `remaining`, and stops at the first that
      is not. */
  method SelectNewest(messagesLastFirst: seq<Message>, budget: int, tokens: string -> nat)
    returns (toProcess: seq<Message>, remaining: int)
    ensures toProcess == KeepNewest(messagesLastFirst, budget, tokens)
    ensures remaining + SumTokens(toProcess, tokens) == budget
    ensures toProcess != [] ==> remaining >= 1
  {
    toProcess, remaining := [], budget;
    var i := 0;
    while i < |messagesLastFirst|
      invariant Walked(messagesLastFirst, budget, tokens, i, toProcess, remaining)
    {
      var m := messagesLastFirst[i];
      var length := tokens(m.content);
      if length < remaining {
        WalkKeeps(messagesLastFirst, budget, tokens, i, toProcess, remaining);
        toProcess := toProcess + [m];
        remaining := remaining - length;
      } else {
        break;
      }
      i := i + 1;
    }
    WalkEnds(messagesLastFirst, budget, tokens, i, toProcess, remaining);
  }

  /** `s` in reverse order. */
  function Reversed<T>(s: seq<T>): (r: seq<T>)
    ensures |r| == |s|
    ensures forall i :: 0 <= i < |s| ==> r[i] == s[|s| - 1 - i]
  {
    if s == [] then [] else [s[|s| - 1]] + Reversed(s[..|s| - 1])
  }

  /** Reversing keeps the same elements with the same multiplicities. */
  lemma {:induction false} ReversedPermutes<T>(s: seq<T>)
    ensures multiset(Reversed(s)) == multiset(s)
  {
    if s != [] {
      var init := s[..|s| - 1];
      ReversedPermutes(init);
      assert s == init + [s[|s| - 1]];
    }
  }

  /** The first (newest) element comes last once reversed. */
  lemma ReversedFirstLast<T>(s: seq<T>)
    requires s != []
    ensures Reversed(s) == Reversed(s[1..]) + [s[0]]
  {
  }

  /** `Array.prototype.reverse`: reverses `a` in place. */
  method ReverseInPlace<T>(a: array<T>)
    modifies a
    ensures a[..] == Reversed(old(a[..]))
  {
    var lo, hi := 0, a.Length - 1;
    while lo < hi
      invariant 0 <= lo <= a.Length && hi == a.Length - 1 - lo
      invariant forall k :: 0 <= k < lo ==> a[k] == old(a[a.Length - 1 - k]) && a[a.Length - 1 - k] == old(a[k])
      invariant forall k :: lo <= k <= hi ==> a[k] == old(a[k])
    {
      a[lo], a[hi] := a[hi], a[lo];
      lo, hi := lo + 1, hi - 1;
    }
    assert forall k :: 0 <= k < a.Length ==> a[..][k] == Reversed(old(a[..]))[k];
  }
}
