/** Bytes, and the streaming content hash as an abstract fold over them. */
module Bytes {
  type byte = x: int | 0 <= x < 256

  /** SHA-256 seen as a chaining state absorbing one byte at a time; the state is an opaque integer. */
  datatype HashAlg = HashAlg(init: int, absorb: (int, byte) -> int, hex: int -> string)

  function Absorb(alg: HashAlg, state: int, data: seq<byte>): int {
    if data == [] then state
    else alg.absorb(Absorb(alg, state, data[..|data| - 1]), data[|data| - 1])
  }

  function Digest(alg: HashAlg, data: seq<byte>): string {
    alg.hex(Absorb(alg, alg.init, data))
  }

  /** The whole computation as a function of the content. */
  function Hasher(alg: HashAlg): seq<byte> -> string {
    (data: seq<byte>) => Digest(alg, data)
  }

  /** Hashing chunk after chunk is hashing the whole. */
  lemma {:induction false} AbsorbChunks(alg: HashAlg, state: int, a: seq<byte>, b: seq<byte>)
    ensures Absorb(alg, Absorb(alg, state, a), b) == Absorb(alg, state, a + b)
  {
    if b == [] {
      assert a + b == a;
    } else {
      AbsorbChunks(alg, state, a, b[..|b| - 1]);
      assert (a + b)[..|a + b| - 1] == a + b[..|b| - 1];
    }
  }

  /** The states a hash runs through: the initial one, then one for each byte of the data in turn. */
  predicate Chains(alg: HashAlg, data: seq<byte>, states: seq<int>) {
    && |states| == |data| + 1 && states[0] == alg.init
    && forall i :: 0 <= i < |data| ==> states[i + 1] == alg.absorb(states[i], data[i])
  }

  /** The text of the state behind the last byte. */
  ghost predicate Hashes(alg: HashAlg, data: seq<byte>, hash: string) {
    exists states :: Chains(alg, data, states) && hash == alg.hex(states[|data|])
  }

  lemma {:induction false} ChainOf(alg: HashAlg, data: seq<byte>) returns (states: seq<int>)
    ensures Chains(alg, data, states) && states[|data|] == Absorb(alg, alg.init, data)
  {
    if data == [] {
      return [alg.init];
    }
    var init, last := data[..|data| - 1], data[|data| - 1];
    var before := ChainOf(alg, init);
    states := before + [alg.absorb(before[|init|], last)];
    forall i | 0 <= i < |data| ensures states[i + 1] == alg.absorb(states[i], data[i]) {
      if i < |init| { assert states[i] == before[i] && states[i + 1] == before[i + 1] && data[i] == init[i]; }
    }
  }

  lemma {:induction false} ChainsAgree(alg: HashAlg, data: seq<byte>, a: seq<int>, b: seq<int>, i: nat)
    requires Chains(alg, data, a) && Chains(alg, data, b) && i <= |data|
    ensures a[i] == b[i]
  {
    if i > 0 { ChainsAgree(alg, data, a, b, i - 1); }
  }

  /** Data has exactly one hash. */
  lemma HashesOnce(alg: HashAlg, data: seq<byte>, hash: string)
    ensures Hashes(alg, data, hash) <==> hash == Digest(alg, data)
  {
    var own := ChainOf(alg, data);
    if Hashes(alg, data, hash) {
      var states :| Chains(alg, data, states) && hash == alg.hex(states[|data|]);
      ChainsAgree(alg, data, own, states, |data|);
    }
  }
}
