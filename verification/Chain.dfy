module Wrappers {
  datatype Option<+T> = None | Some(value: T)
}

/** The signed membership log as a hash chain (packages/e2ee/membership.mjs), and the floor check a
    host applies to every log it is served (packages/runtime/encrypted-host.js:130-139).

    Hashing is a parameter. What it is assumed to satisfy, freedom from collisions, is a named
    precondition of the lemmas that need it. */
module Chain {
  type Hash = nat

  const GENESIS: Hash := 0

  /** A signed record: the hash of the record before it, and everything else it says. */
  datatype Record = Record(previous: Hash, body: nat)

  type Log = seq<Record>

  type Digest = Record -> Hash

  /** What a host remembers of a log: its length and its last record's hash. */
  datatype Floor = Floor(height: nat, hash: Hash)

  function HeadHash(digest: Digest, log: Log): Hash {
    if log == [] then GENESIS else digest(log[|log| - 1])
  }

  function FloorOf(digest: Digest, log: Log): Floor { Floor(|log|, HeadHash(digest, log)) }

  predicate Chained(digest: Digest, log: Log) {
    forall k :: 0 <= k < |log| ==> log[k].previous == HeadHash(digest, log[..k])
  }

  ghost predicate CollisionFree(digest: Digest) {
    forall x, y :: digest(x) == digest(y) ==> x == y
  }

  /** The test of checkMembershipFloor: not shorter than the floor, and either the same head or a
      record after the floor that names the floor's hash. */
  predicate Passes(digest: Digest, floor: Floor, log: Log) {
    && |log| >= floor.height
    && (if |log| == floor.height then HeadHash(digest, log) == floor.hash else log[floor.height].previous == floor.hash)
  }

  lemma ChainedPrefix(digest: Digest, log: Log, n: nat)
    requires Chained(digest, log) && n <= |log|
    ensures Chained(digest, log[..n])
  {
    forall k | 0 <= k < n ensures log[..n][k].previous == HeadHash(digest, log[..n][..k]) {
      assert log[..n][..k] == log[..k];
    }
  }

  /** With no collisions, a chain is determined by its length and its last hash. */
  lemma {:induction false} SameHead(digest: Digest, x: Log, y: Log)
    requires CollisionFree(digest) && Chained(digest, x) && Chained(digest, y)
    requires |x| == |y| && HeadHash(digest, x) == HeadHash(digest, y)
    ensures x == y
  {
    if x != [] {
      var n := |x| - 1;
      assert x[n] == y[n];
      ChainedPrefix(digest, x, n);
      ChainedPrefix(digest, y, n);
      SameHead(digest, x[..n], y[..n]);
      assert x == x[..n] + [x[n]] && y == y[..n] + [y[n]];
    }
  }

  /** The floor check looks at one hash, yet accepts exactly the logs that extend the remembered one. */
  lemma FloorAcceptsExtensions(digest: Digest, floor: Log, log: Log)
    requires CollisionFree(digest) && Chained(digest, floor) && Chained(digest, log)
    ensures Passes(digest, FloorOf(digest, floor), log) <==> floor <= log
  {
    var n := |floor|;
    if n <= |log| {
      ChainedPrefix(digest, log, n);
      assert n == |log| ==> log[..n] == log;
      if HeadHash(digest, log[..n]) == HeadHash(digest, floor) { SameHead(digest, log[..n], floor); }
    }
  }
}
