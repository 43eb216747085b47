/**
 * Wallet de-duplication: the `filter`/`findIndex` expression that keeps
 * the first keypair seen for each public key.
 */
module Wallets {
  import opened Solana

  /** The public keys of `ks`, in order. */
  function Keys(ks: seq<Keypair>): (keys: seq<PublicKey>)
    ensures |keys| == |ks|
    ensures forall i :: 0 <= i < |ks| ==> keys[i] == ks[i].publicKey
  {
    if |ks| == 0 then [] else [ks[0].publicKey] + Keys(ks[1..])
  }

  /** The set of public keys occurring in `ks`. */
  function KeySet(ks: seq<Keypair>): set<PublicKey>
  {
    set k | k in ks :: k.publicKey
  }

  lemma KeySetIsKeys(ks: seq<Keypair>)
    ensures forall k :: k in KeySet(ks) <==> k in Keys(ks)
  {
  }

  /** Keys of `ks` are pairwise distinct. */
  predicate DistinctKeys(ks: seq<Keypair>)
  {
    forall i, j :: 0 <= i < j < |ks| ==> ks[i].publicKey != ks[j].publicKey
  }

  /** `a` is `b` with some elements removed, the rest kept in order. */
  predicate IsSubsequence<T(==)>(a: seq<T>, b: seq<T>)
    decreases |b|
  {
    if |a| == 0 then true
    else if |b| == 0 then false
    else (a[0] == b[0] && IsSubsequence(a[1..], b[1..])) || IsSubsequence(a, b[1..])
  }

  /** Array.prototype.findIndex from position `from` on. */
  function FindIndexFrom(ks: seq<Keypair>, key: PublicKey, from: nat): (r: int)
    requires from <= |ks|
    ensures r == -1 || from <= r < |ks|
    ensures r == -1 ==> forall j :: from <= j < |ks| ==> ks[j].publicKey != key
    ensures r != -1 ==> ks[r].publicKey == key && forall j :: from <= j < r ==> ks[j].publicKey != key
    decreases |ks| - from
  {
    if from == |ks| then -1
    else if ks[from].publicKey == key then from
    else FindIndexFrom(ks, key, from + 1)
  }

  /** `ks.findIndex(kp => kp.publicKey.toString() === key.toString())`:
      the first position holding `key`, or -1 when there is none. */
  function FindIndex(ks: seq<Keypair>, key: PublicKey): (r: int)
    ensures -1 <= r < |ks|
    ensures r == -1 <==> key !in Keys(ks)
    ensures r != -1 ==> ks[r].publicKey == key && key !in Keys(ks[..r])
  {
    FindIndexFrom(ks, key, 0)
  }

  /** The filter's result from position `i` on: `ks[j]` is kept exactly when
      `j` is the first position of its key. */
  function KeepFirstFrom(ks: seq<Keypair>, i: nat): (r: seq<Keypair>)
    requires i <= |ks|
    ensures |r| <= |ks| - i
    ensures forall x :: x in r ==> x in ks[i..]
    decreases |ks| - i
  {
    if i == |ks| then []
    else (if FindIndex(ks, ks[i].publicKey) == i then [ks[i]] else []) + KeepFirstFrom(ks, i + 1)
  }

  /** `keypairs.filter((keypair, index, self) => self.findIndex(...) === index)` */
  function Dedup(ks: seq<Keypair>): (r: seq<Keypair>)
    ensures |r| <= |ks|
    ensures forall x :: x in r ==> x in ks
  {
    KeepFirstFrom(ks, 0)
  }

  /** Reference definition: one left-to-right pass with a set of keys
      already seen, keeping a keypair when its key is new. */
  function DedupSeen(ks: seq<Keypair>, seen: set<PublicKey>): seq<Keypair>
  {
    if |ks| == 0 then []
    else if ks[0].publicKey in seen then DedupSeen(ks[1..], seen)
    else [ks[0]] + DedupSeen(ks[1..], seen + {ks[0].publicKey})
  }

  /** The set of keys at positions before `i`. */
  function SeenBefore(ks: seq<Keypair>, i: nat): set<PublicKey>
    requires i <= |ks|
  {
    set j | 0 <= j < i :: ks[j].publicKey
  }

  lemma SeenBeforeNext(ks: seq<Keypair>, i: nat)
    requires i < |ks|
    ensures SeenBefore(ks, i + 1) == SeenBefore(ks, i) + {ks[i].publicKey}
  {
  }

  /** Position `i` is the first of its key exactly when the key was not seen before. */
  lemma FirstIndexIffUnseen(ks: seq<Keypair>, i: nat)
    requires i < |ks|
    ensures FindIndex(ks, ks[i].publicKey) == i <==> ks[i].publicKey !in SeenBefore(ks, i)
  {
  }

  lemma {:induction false} KeepFirstFromIsDedupSeen(ks: seq<Keypair>, i: nat)
    requires i <= |ks|
    ensures KeepFirstFrom(ks, i) == DedupSeen(ks[i..], SeenBefore(ks, i))
    decreases |ks| - i
  {
    if i < |ks| {
      var key := ks[i].publicKey;
      var seen := SeenBefore(ks, i);
      var tail := ks[i..];
      assert tail[0] == ks[i] && tail[1..] == ks[i + 1..];
      SeenBeforeNext(ks, i);
      FirstIndexIffUnseen(ks, i);
      KeepFirstFromIsDedupSeen(ks, i + 1);
      if key in seen {
        assert seen + {key} == seen;
        assert DedupSeen(tail, seen) == DedupSeen(ks[i + 1..], seen);
        calc {
          KeepFirstFrom(ks, i);
          KeepFirstFrom(ks, i + 1);
          DedupSeen(ks[i + 1..], seen);
          DedupSeen(tail, seen);
        }
      } else {
        assert DedupSeen(tail, seen) == [ks[i]] + DedupSeen(ks[i + 1..], seen + {key});
        calc {
          KeepFirstFrom(ks, i);
          [ks[i]] + KeepFirstFrom(ks, i + 1);
          [ks[i]] + DedupSeen(ks[i + 1..], seen + {key});
          DedupSeen(tail, seen);
        }
      }
    }
  }

  /** The filter agrees with the one-pass "seen set" reference for every input. */
  lemma DedupMatchesSeenSet(ks: seq<Keypair>)
    ensures Dedup(ks) == DedupSeen(ks, {})
  {
    KeepFirstFromIsDedupSeen(ks, 0);
    assert ks[0..] == ks;
    assert SeenBefore(ks, 0) == {};
  }

  lemma {:induction false} DedupSeenProperties(ks: seq<Keypair>, seen: set<PublicKey>)
    ensures DistinctKeys(DedupSeen(ks, seen))
    ensures KeySet(DedupSeen(ks, seen)) == KeySet(ks) - seen
    ensures IsSubsequence(DedupSeen(ks, seen), ks)
  {
    if |ks| > 0 {
      var k := ks[0];
      var rest := ks[1..];
      assert KeySet(ks) == {k.publicKey} + KeySet(rest) by {
        assert ks == [k] + rest;
      }
      if k.publicKey in seen {
        DedupSeenProperties(rest, seen);
        var r := DedupSeen(rest, seen);
        if |r| > 0 {
          assert IsSubsequence(r, rest);
        }
      } else {
        var seen' := seen + {k.publicKey};
        DedupSeenProperties(rest, seen');
        var r := DedupSeen(rest, seen');
        var out := [k] + r;
        assert out[1..] == r;
        forall i, j | 0 <= i < j < |out| ensures out[i].publicKey != out[j].publicKey {
          if i == 0 {
            assert out[j] in r;
            assert out[j].publicKey in KeySet(r);
          } else {
            assert out[i] == r[i - 1] && out[j] == r[j - 1];
          }
        }
        assert KeySet(out) == {k.publicKey} + KeySet(r) by {
          assert out == [k] + r;
        }
      }
    }
  }

  /** What the filter promises: keys pairwise distinct, the same set of keys
      as the input, and the survivors in their input order. */
  lemma DedupProperties(ks: seq<Keypair>)
    ensures DistinctKeys(Dedup(ks))
    ensures KeySet(Dedup(ks)) == KeySet(ks)
    ensures IsSubsequence(Dedup(ks), ks)
  {
    DedupMatchesSeenSet(ks);
    DedupSeenProperties(ks, {});
  }

  lemma {:induction false} KeepFirstFromKeepsFirst(ks: seq<Keypair>, i: nat)
    requires i <= |ks|
    ensures forall x :: x in KeepFirstFrom(ks, i) ==> 0 <= FindIndex(ks, x.publicKey) && ks[FindIndex(ks, x.publicKey)] == x
    decreases |ks| - i
  {
    if i < |ks| {
      var f := FindIndex(ks, ks[i].publicKey);
      assert KeepFirstFrom(ks, i) == (if f == i then [ks[i]] else []) + KeepFirstFrom(ks, i + 1);
      KeepFirstFromKeepsFirst(ks, i + 1);
    }
  }

  /** Every keypair that survives is the first one in the input with its key. */
  lemma DedupKeepsFirst(ks: seq<Keypair>)
    ensures forall x :: x in Dedup(ks) ==> 0 <= FindIndex(ks, x.publicKey) && ks[FindIndex(ks, x.publicKey)] == x
  {
    KeepFirstFromKeepsFirst(ks, 0);
  }

  lemma {:induction false} DedupSeenOfDistinct(ks: seq<Keypair>, seen: set<PublicKey>)
    requires DistinctKeys(ks)
    requires KeySet(ks) !! seen
    ensures DedupSeen(ks, seen) == ks
  {
    if |ks| > 0 {
      var rest := ks[1..];
      assert ks[0] in ks;
      forall x | x in rest ensures x.publicKey != ks[0].publicKey && x.publicKey !in seen {
        var j :| 0 <= j < |rest| && rest[j] == x;
        assert ks[j + 1] == x;
        assert x in ks;
      }
      DedupSeenOfDistinct(rest, seen + {ks[0].publicKey});
    }
  }

  /** De-duplicating twice is the same as once. */
  lemma DedupIdempotent(ks: seq<Keypair>)
    ensures Dedup(Dedup(ks)) == Dedup(ks)
  {
    DedupProperties(ks);
    DedupMatchesSeenSet(Dedup(ks));
    DedupSeenOfDistinct(Dedup(ks), {});
  }

  /** A non-empty wallet list stays non-empty and keeps its first entry, so
      the "no wallets are eligible" exit after de-duplication is never taken. */
  lemma DedupNonEmpty(ks: seq<Keypair>)
    requires |ks| > 0
    ensures |Dedup(ks)| > 0 && Dedup(ks)[0] == ks[0]
  {
  }
}
