/** The error chain: an append-only list of messages that a failing
    operation extends as it unwinds, that callers test for emptiness, that
    renders most recent message first, and that can be cleared and reused.
    A null `Error*` is accepted everywhere: it counts as non-empty and
    ignores pushes. */
module ErrorChain {

  /** Size of a message buffer, terminating NUL included. */
  const MSG_SIZE: nat := 128

  /** What `vsnprintf` into a MSG_SIZE buffer keeps of a message. */
  function Truncate(s: string): (r: string)
    ensures |r| == if |s| < MSG_SIZE then |s| else MSG_SIZE - 1
    ensures r <= s
  {
    if |s| < MSG_SIZE then s else s[..MSG_SIZE - 1]
  }

  class Error {
    /** The messages after the dummy head, oldest first. */
    var msgs: seq<string>

    /** `ERROR_INIT` */
    constructor ()
      ensures msgs == []
    {
      msgs := [];
    }
  }

  /** `error_empty`: no message since initialisation or the last clear;
      a null chain is never empty. */
  predicate Empty(err: Error?)
    reads err
    ensures Empty(err) <==> err != null && err.msgs == []
  {
    if err == null then false else err.msgs == []
  }

  /** `error_push`: append the (truncated) message at the end of the chain. */
  method Push(err: Error?, msg: string)
    modifies err
    ensures err != null ==> err.msgs == old(err.msgs) + [Truncate(msg)]
    ensures !Empty(err)
  {
    if err == null {
      return;
    }
    err.msgs := err.msgs + [Truncate(msg)];
  }

  /** `error_clear`: drop every message; the chain is usable again. */
  method Clear(err: Error?)
    modifies err
    ensures err != null ==> err.msgs == [] && Empty(err)
  {
    if err == null {
      return;
    }
    err.msgs := [];
  }

  /** The text `error_msg_print` writes for the messages `ms`: it recurses to
      the end of the list first, so each message is written after all those
      pushed later, each followed by "\n - ". */
  function RenderChain(ms: seq<string>): string
  {
    if ms == [] then "" else RenderChain(ms[1..]) + ms[0] + "\n - "
  }

  /** The most recently pushed message is rendered first, ahead of the
      rendering of everything pushed before it. */
  lemma {:induction false} RenderNewestFirst(ms: seq<string>, m: string)
    ensures RenderChain(ms + [m]) == m + "\n - " + RenderChain(ms)
  {
    if ms != [] {
      calc {
        RenderChain(ms + [m]);
        { assert (ms + [m])[1..] == ms[1..] + [m]; }
        RenderChain(ms[1..] + [m]) + ms[0] + "\n - ";
        { RenderNewestFirst(ms[1..], m); }
        m + "\n - " + RenderChain(ms[1..]) + ms[0] + "\n - ";
      }
    } else {
      assert [m][1..] == [];
    }
  }

  /** `error_print`, with the text it writes to stderr as the result. */
  method Print(err: Error?) returns (out: string)
    ensures err == null ==> out == "(empty error)\n"
    ensures err != null ==> out == RenderChain(err.msgs) + "\n"
  {
    if err == null {
      return "(empty error)\n";
    }
    var rendered := "";
    var i := 0;
    while i < |err.msgs|
      invariant 0 <= i <= |err.msgs|
      invariant rendered == RenderChain(err.msgs[..i])
    {
      RenderNewestFirst(err.msgs[..i], err.msgs[i]);
      assert err.msgs[..i + 1] == err.msgs[..i] + [err.msgs[i]];
      rendered := err.msgs[i] + "\n - " + rendered;
      i := i + 1;
    }
    assert err.msgs[..i] == err.msgs;
    out := rendered + "\n";
  }

  /** The life cycle test_error.c exercises on a fresh chain: a failing
      allocation pushes its message (with the text `strerror` gives for the
      failure as `reason`), its caller pushes its own, so the chain is
      non-empty (`failed`) and prints the caller's message first; after a
      clear it is empty again (`reusable`). */
  method FailThenClear(reason: string) returns (failed: bool, reusable: bool, shown: string)
    ensures failed && reusable
    ensures shown == "failer failed\n - " + Truncate("bad_alloc failed: malloc: " + reason) + "\n - \n"
  {
    var err := new Error();
    Push(err, "bad_alloc failed: malloc: " + reason);
    Push(err, "failer failed");
    failed := !Empty(err);
    shown := Print(err);
    RenderNewestFirst([Truncate("bad_alloc failed: malloc: " + reason)], "failer failed");
    Clear(err);
    reusable := Empty(err);
  }
}
