/** src/utils/messageGenerator.js: a fixed list of gift messages and a module-level cursor
    `msgIndex` that walks the list cyclically. The module is a class here: the list is fixed
    at load time, the cursor is a field. */
module MessageGenerator {
  import opened Cycle

  const Loading: string := "Loading..."

  /** The messages returned by `k` calls starting from cursor `i`. */
  function Run(messages: seq<string>, i: nat, k: nat): (r: seq<string>)
    requires messages != [] && i < |messages|
    ensures |r| == k
  {
    if k == 0 then []
    else
      CursorInRange(|messages|, i, k - 1);
      Run(messages, i, k - 1) + [messages[CursorAfter(|messages|, i, k - 1)]]
  }

  /** The outputs of `a + b` calls are those of `a` calls followed by those of `b` more. */
  lemma {:induction false} RunAdd(messages: seq<string>, i: nat, a: nat, b: nat)
    requires messages != [] && i < |messages|
    ensures CursorAfter(|messages|, i, a) < |messages|
    ensures Run(messages, i, a + b) == Run(messages, i, a) + Run(messages, CursorAfter(|messages|, i, a), b)
  {
    var n := |messages|;
    CursorInRange(n, i, a);
    if b > 0 {
      RunAdd(messages, i, a, b - 1);
      CursorAfterAdd(n, i, a, b - 1);
      CursorInRange(n, CursorAfter(n, i, a), b - 1);
    }
  }

  /** One lap from the first message returns the whole list in order. */
  lemma {:induction false} FirstLapRun(messages: seq<string>, j: nat)
    requires messages != [] && j <= |messages|
    ensures Run(messages, 0, j) == messages[..j]
  {
    if j > 0 {
      FirstLapRun(messages, j - 1);
      FirstLap(|messages|, j - 1);
      assert messages[..j] == messages[..j - 1] + [messages[j - 1]];
    }
  }

  /** Starting from the first message, the calls return the list in order, over and over:
      after |messages| calls the cursor is back at 0 and the next calls repeat the first ones. */
  lemma CyclesThroughList(messages: seq<string>, k: nat)
    requires messages != []
    ensures Run(messages, 0, |messages|) == messages
    ensures CursorAfter(|messages|, 0, |messages|) == 0
    ensures Run(messages, 0, |messages| + k) == messages + Run(messages, 0, k)
  {
    var n := |messages|;
    FirstLapRun(messages, n);
    FirstLap(n, n);
    RunAdd(messages, 0, n, k);
  }

  class MessageGenerator {
    const messages: seq<string>
    var msgIndex: nat

    /** The cursor stays inside the list (and at 0 while the list is empty). */
    ghost predicate Valid()
      reads this
    {
      if messages == [] then msgIndex == 0 else msgIndex < |messages|
    }

    constructor (loaded: seq<string>)
      ensures Valid()
      ensures messages == loaded && msgIndex == 0
    {
      messages := loaded;
      msgIndex := 0;
    }

    /** `getNextMessage`. */
    method NextMessage() returns (message: string)
      requires Valid()
      modifies this
      ensures Valid()
      ensures messages == [] ==> message == Loading && msgIndex == old(msgIndex)
      ensures messages != [] ==> message == messages[old(msgIndex)]
      ensures messages != [] ==> msgIndex == Step(|messages|, old(msgIndex))
    {
      if |messages| == 0 {
        return Loading;
      }
      message := messages[msgIndex];
      msgIndex := (msgIndex + 1) % |messages|;
    }

    /** `areMessagesLoaded`. */
    predicate AreMessagesLoaded()
    {
      |messages| > 0
    }

    /** `getAllMessages`: a copy of the list; no state changes. */
    method AllMessages() returns (all: seq<string>)
      ensures all == messages
    {
      all := messages[..];
    }

    /** `getRandomMessage`, with the random position `pick` as a parameter. */
    function RandomMessage(pick: nat): (r: string)
      requires messages != [] ==> pick < |messages|
      ensures messages == [] ==> r == Loading
      ensures messages != [] ==> r in messages
    {
      if |messages| == 0 then Loading else messages[pick]
    }
  }
}
