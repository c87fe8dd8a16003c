/**
 Channel allow-list evaluation (main.go, `ChannelValid`).  The configured
 `Channels` list of glob patterns is a parameter; compiling a pattern and
 matching a compiled pattern against a name belong to a glob library and are
 taken as uninterpreted functions: `compile` yields `None` where the library
 reports an error.
 */
module ChannelAllowList {
  import opened Wrappers

  /** Walks the patterns in order: a pattern that does not compile rejects at
      once, the first pattern that matches accepts, and running out of
      patterns rejects. */
  function ChannelValid<M>(
    patterns: seq<string>, channel: string,
    compile: string -> Option<M>, matchString: (M, string) -> bool): (valid: bool)
    ensures patterns == [] ==> !valid
    ensures valid ==> compile(patterns[0]).Some?
    decreases |patterns|
  {
    if patterns == [] then false
    else
      match compile(patterns[0])
      case None => false
      case Some(matcher) =>
        if matchString(matcher, channel) then true
        else ChannelValid(patterns[1..], channel, compile, matchString)
  }

  /** Pattern `i` accepts `channel`: it and every pattern before it compile,
      and it matches. */
  ghost predicate AcceptedAt<M>(
    patterns: seq<string>, channel: string,
    compile: string -> Option<M>, matchString: (M, string) -> bool, i: int)
  {
    && 0 <= i < |patterns|
    && (forall j :: 0 <= j <= i ==> compile(patterns[j]).Some?)
    && matchString(compile(patterns[i]).value, channel)
  }

  /** The channel is accepted exactly when some pattern accepts it in the
      sense of `AcceptedAt`, i.e. some pattern matches before any pattern
      that fails to compile. */
  lemma {:induction false} ChannelValidIffAccepted<M>(
    patterns: seq<string>, channel: string,
    compile: string -> Option<M>, matchString: (M, string) -> bool)
    ensures ChannelValid(patterns, channel, compile, matchString)
            <==> exists i :: AcceptedAt(patterns, channel, compile, matchString, i)
    decreases |patterns|
  {
    if patterns != [] {
      var tail := patterns[1..];
      match compile(patterns[0])
      case None =>
        forall i | AcceptedAt(patterns, channel, compile, matchString, i)
          ensures false
        {
        }
      case Some(matcher) =>
        if matchString(matcher, channel) {
          assert AcceptedAt(patterns, channel, compile, matchString, 0);
        } else {
          ChannelValidIffAccepted(tail, channel, compile, matchString);
          if ChannelValid(tail, channel, compile, matchString) {
            var i :| AcceptedAt(tail, channel, compile, matchString, i);
            assert forall j :: 1 <= j <= i + 1 ==> patterns[j] == tail[j - 1];
            assert AcceptedAt(patterns, channel, compile, matchString, i + 1);
          } else {
            forall i | AcceptedAt(patterns, channel, compile, matchString, i)
              ensures false
            {
              assert i != 0;
              assert forall j :: 0 <= j <= i - 1 ==> tail[j] == patterns[j + 1];
              assert AcceptedAt(tail, channel, compile, matchString, i - 1);
            }
          }
        }
    }
  }

  /** A pattern that fails to compile shadows every later pattern: if the
      patterns before position `k` compile and do not match, and pattern `k`
      does not compile, the channel is rejected whatever follows. */
  lemma InvalidPatternRejects<M>(
    patterns: seq<string>, channel: string,
    compile: string -> Option<M>, matchString: (M, string) -> bool, k: int)
    requires 0 <= k < |patterns| && compile(patterns[k]).None?
    requires forall j :: 0 <= j < k ==>
               compile(patterns[j]).Some? && !matchString(compile(patterns[j]).value, channel)
    ensures !ChannelValid(patterns, channel, compile, matchString)
  {
    ChannelValidIffAccepted(patterns, channel, compile, matchString);
    forall i | AcceptedAt(patterns, channel, compile, matchString, i)
      ensures false
    {
    }
  }

  /** The first matching pattern decides: if the patterns before position `k`
      compile without matching and pattern `k` compiles and matches, the
      channel is accepted whatever follows. */
  lemma FirstMatchAccepts<M>(
    patterns: seq<string>, channel: string,
    compile: string -> Option<M>, matchString: (M, string) -> bool, k: int)
    requires 0 <= k < |patterns| && compile(patterns[k]).Some?
    requires matchString(compile(patterns[k]).value, channel)
    requires forall j :: 0 <= j < k ==> compile(patterns[j]).Some?
    ensures ChannelValid(patterns, channel, compile, matchString)
  {
    ChannelValidIffAccepted(patterns, channel, compile, matchString);
    assert AcceptedAt(patterns, channel, compile, matchString, k);
  }
}
