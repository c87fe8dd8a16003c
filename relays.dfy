/**
 The pool of per-channel broadcast relays (main.go, `RelayPool`) and the
 mutex-guarded step of the websocket handler that takes a relay from it and
 decides whether a database listener must be started for the channel.

 The relay itself comes from a foreign broadcast library; only the part of it
 the pool touches is kept here: an object that can be closed.
 */
module Relays {

  /** An opaque broadcast relay for one channel, with its liveness flag. */
  class Relay {
    var closed: bool

    /** A relay fresh from the library is open. */
    constructor ()
      ensures !closed
    {
      closed := false;
    }

    /** Closing a relay marks it closed; nothing else about it is modelled. */
    method Close()
      modifies this
      ensures closed
    {
      closed := true;
    }
  }

  /** Map from channel name to the relay that carries its notifications. */
  class RelayPool {
    var relays: map<string, Relay>

    /** Every relay in the pool was created for exactly one channel:
        two different channels never share a relay object. */
    ghost predicate Valid()
      reads this
    {
      forall c, d :: c in relays && d in relays && c != d ==> relays[c] != relays[d]
    }

    /** The pool starts empty (main.go, `make(RelayPool)`). */
    constructor ()
      ensures Valid() && relays == map[]
    {
      relays := map[];
    }

    /** Membership test: true exactly when `channel` has a relay in the pool. */
    predicate HasChannel(channel: string): (b: bool)
      reads this
      ensures b <==> channel in relays
    {
      channel in relays
    }

    /** Lazy insert: the relay already stored for `channel`, or a fresh open
        relay that is stored under `channel` and returned. */
    method GetRelay(channel: string) returns (relay: Relay)
      requires Valid()
      modifies this
      ensures Valid()
      ensures channel in old(relays) ==> relay == old(relays)[channel] && relays == old(relays)
      ensures channel !in old(relays) ==>
                fresh(relay) && !relay.closed && relays == old(relays)[channel := relay]
    {
      if channel in relays {
        relay := relays[channel];
        return;
      }
      relay := new Relay();
      relays := relays[channel := relay];
    }

    /** Closes the relay stored under `channel` and removes that key only;
        an absent channel leaves the pool as it was. */
    method Close(channel: string)
      requires Valid()
      modifies this, if channel in relays then {relays[channel]} else {}
      ensures Valid()
      ensures channel in old(relays) ==> old(relays)[channel].closed && relays == old(relays) - {channel}
      ensures channel !in old(relays) ==> relays == old(relays)
      ensures forall c :: c in relays ==> relays[c].closed == old(relays[c].closed)
    {
      if channel in relays {
        var relay := relays[channel];
        relay.Close();
        relays := relays - {channel};
      }
    }

    /** Closes every relay the pool held and leaves the pool empty. */
    method CloseAll()
      requires Valid()
      modifies this, relays.Values
      ensures Valid() && relays == map[]
      ensures forall c :: c in old(relays) ==> old(relays)[c].closed
    {
      while relays != map[]
        invariant Valid()
        invariant relays.Keys <= old(relays).Keys
        invariant forall c :: c in relays ==> relays[c] == old(relays)[c]
        invariant forall c :: c in old(relays) && c !in relays ==> old(relays)[c].closed
        decreases |relays.Keys|
      {
        var channel :| channel in relays;
        relays[channel].Close();
        relays := relays - {channel};
      }
    }

    /** The region of the websocket handler held under the pool's mutex, taken
        as one atomic step: look the channel up, then take its relay.  A
        database listener is to be spawned exactly when the channel had no
        relay before the step (the handler names the lookup's result
        `newChannel` although it holds "already present"). */
    method Acquire(channel: string) returns (relay: Relay, spawnListener: bool)
      requires Valid()
      modifies this
      ensures Valid()
      ensures spawnListener == SpawnsListener(old(relays).Keys, channel)
      ensures relays == old(relays)[channel := relay]
      ensures channel in old(relays) ==> relay == old(relays)[channel]
      ensures channel !in old(relays) ==> fresh(relay) && !relay.closed
    {
      var present := HasChannel(channel);
      relay := GetRelay(channel);
      spawnListener := !present;
    }
  }

  /** Two handler invocations on the same channel with no `Close` between them
      share one relay, and only the first may start a listener. */
  method AcquireTwice(pool: RelayPool, channel: string)
    returns (first: Relay, spawnedFirst: bool, second: Relay, spawnedSecond: bool)
    requires pool.Valid()
    modifies pool
    ensures pool.Valid()
    ensures first == second && !spawnedSecond
    ensures spawnedFirst <==> channel !in old(pool.relays)
  {
    first, spawnedFirst := pool.Acquire(channel);
    second, spawnedSecond := pool.Acquire(channel);
  }

  /** A run of handler invocations on `channels`, one acquire step each, with
      no `Close` in between: the channels for which a listener is started are
      exactly those `SpawnedListeners` predicts from the pool's initial keys. */
  method AcquireRun(pool: RelayPool, channels: seq<string>) returns (spawned: seq<string>)
    requires pool.Valid()
    modifies pool
    ensures pool.Valid()
    ensures pool.relays.Keys == old(pool.relays).Keys + (set c | c in channels)
    ensures spawned == SpawnedListeners(old(pool.relays).Keys, channels)
  {
    ghost var present := pool.relays.Keys;
    spawned := [];
    var i := 0;
    while i < |channels|
      invariant 0 <= i <= |channels|
      invariant pool.Valid()
      invariant pool.relays.Keys == present + (set c | c in channels[..i])
      invariant spawned == SpawnedListeners(present, channels[..i])
    {
      var relay, spawn := pool.Acquire(channels[i]);
      SpawnedListenersSplit(present, channels[..i], [channels[i]]);
      ghost var done := channels[..i + 1];
      assert done == channels[..i] + [channels[i]];
      assert (set c | c in done) == (set c | c in channels[..i]) + {channels[i]};
      if spawn {
        spawned := spawned + [channels[i]];
      }
      i := i + 1;
    }
    assert channels[..i] == channels;
  }

  /** A run split in two: the second part starts from the keys the first part
      added to the pool. */
  lemma {:induction false} SpawnedListenersSplit(present: set<string>, xs: seq<string>, ys: seq<string>)
    ensures SpawnedListeners(present, xs + ys)
            == SpawnedListeners(present, xs) + SpawnedListeners(present + (set c | c in xs), ys)
    decreases |xs|
  {
    if xs == [] {
      assert xs + ys == ys;
      assert present + (set c | c in xs) == present;
    } else {
      SpawnedListenersSplit(present + {xs[0]}, xs[1..], ys);
      assert (xs + ys)[0] == xs[0] && (xs + ys)[1..] == xs[1..] + ys;
      assert present + {xs[0]} + (set c | c in xs[1..]) == present + (set c | c in xs);
    }
  }

  /** The spawn decision of one acquire step, as a function of the channels
      the pool held before it. */
  predicate SpawnsListener(present: set<string>, channel: string)
  {
    channel !in present
  }

  /** The channels, in order, for which a run of acquire steps on `channels`
      starts a listener, the pool initially holding `present` (and no `Close`
      happening in between, as in the handler). */
  function SpawnedListeners(present: set<string>, channels: seq<string>): (spawned: seq<string>)
    decreases |channels|
  {
    if channels == [] then []
    else
      (if SpawnsListener(present, channels[0]) then [channels[0]] else [])
      + SpawnedListeners(present + {channels[0]}, channels[1..])
  }

  /** At most one listener per channel: over any run of acquire steps, a
      channel gets exactly one listener if it was requested and absent from
      the pool at the start, and none otherwise. */
  lemma {:induction false} AtMostOneListenerPerChannel(present: set<string>, channels: seq<string>, c: string)
    ensures multiset(SpawnedListeners(present, channels))[c]
            == if c !in present && c in channels then 1 else 0
    decreases |channels|
  {
    if channels != [] {
      var head := channels[0];
      var tail := channels[1..];
      AtMostOneListenerPerChannel(present + {head}, tail, c);
      assert channels == [head] + tail;
      var first := if SpawnsListener(present, head) then [head] else [];
      assert SpawnedListeners(present, channels) == first + SpawnedListeners(present + {head}, tail);
      assert multiset(first + SpawnedListeners(present + {head}, tail))
             == multiset(first) + multiset(SpawnedListeners(present + {head}, tail));
    }
  }

  /** The listeners started by a run are never for a channel the pool held
      at the start, and every one is for a channel that was requested. */
  lemma {:induction false} SpawnedAreNewRequested(present: set<string>, channels: seq<string>, c: string)
    ensures c in SpawnedListeners(present, channels) <==> c !in present && c in channels
  {
    AtMostOneListenerPerChannel(present, channels, c);
  }
}
