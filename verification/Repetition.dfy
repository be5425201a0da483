/** Threefold repetition along a game, by comparing positions and by counting keys. */
module Repetition {
  import opened Rules
  import opened Fen

  /** Three different moments of the game show the same situation. */
  ghost predicate Threefold(positions: seq<Position>) {
    exists i, j, k :: 0 <= i < j < k < |positions|
                      && SameSituation(positions[i], positions[j]) && SameSituation(positions[j], positions[k])
  }

  function Occurrences(keys: seq<string>, key: string): nat {
    if keys == [] then 0
    else Occurrences(keys[..|keys| - 1], key) + if keys[|keys| - 1] == key then 1 else 0
  }

  ghost predicate ThriceAmong(keys: seq<string>) {
    exists key :: Occurrences(keys, key) >= 3
  }

  lemma {:induction false} OnceAt(keys: seq<string>, key: string) returns (i: nat)
    requires Occurrences(keys, key) >= 1
    ensures i < |keys| && keys[i] == key && Occurrences(keys[..i], key) == Occurrences(keys, key) - 1
  {
    var front := keys[..|keys| - 1];
    if keys[|keys| - 1] == key {
      i := |keys| - 1;
    } else {
      i := OnceAt(front, key);
      assert front[..i] == keys[..i];
    }
  }

  lemma {:induction false} CountGrows(keys: seq<string>, key: string, i: nat)
    requires i < |keys| && keys[i] == key
    ensures Occurrences(keys, key) >= Occurrences(keys[..i], key) + 1
  {
    var front := keys[..|keys| - 1];
    if i < |keys| - 1 {
      CountGrows(front, key, i);
      assert front[..i] == keys[..i];
    }
  }

  ghost predicate ThreePlaces(keys: seq<string>) {
    exists i, j, k :: 0 <= i < j < k < |keys| && keys[i] == keys[j] && keys[j] == keys[k]
  }

  /** A key counted three times stands at three places, and conversely. */
  lemma ThriceIsThreePlaces(keys: seq<string>)
    ensures ThriceAmong(keys) <==> ThreePlaces(keys)
  {
    if ThriceAmong(keys) {
      var key :| Occurrences(keys, key) >= 3;
      var k := OnceAt(keys, key);
      var j := OnceAt(keys[..k], key);
      assert keys[..k][..j] == keys[..j];
      var i := OnceAt(keys[..j], key);
      assert keys[i] == keys[j] && keys[j] == keys[k];
    }
    if ThreePlaces(keys) {
      var i, j, k :| 0 <= i < j < k < |keys| && keys[i] == keys[j] && keys[j] == keys[k];
      CountGrows(keys, keys[k], k);
      CountGrows(keys[..k], keys[k], j);
      assert keys[..k][..j] == keys[..j];
      CountGrows(keys[..j], keys[k], i);
      assert Occurrences(keys, keys[k]) >= 3;
    }
  }

  /** The key of every position of a game, in order. */
  ghost function Keys(positions: seq<Position>): seq<string>
    requires forall i :: 0 <= i < |positions| ==> Sound(positions[i])
  {
    seq(|positions|, i requires 0 <= i < |positions| => (KeyIsKeyFields(positions[i]); FenKey(positions[i])))
  }

  ghost predicate KeysTell(positions: seq<Position>, keys: seq<string>, i: nat, j: nat)
    requires i < j < |keys| == |positions|
  {
    keys[i] == keys[j] <==> SameSituation(positions[i], positions[j])
  }

  /** If equal keys mean equal situations, three equal keys mean a threefold repetition. */
  lemma TransferThreefold(positions: seq<Position>, keys: seq<string>)
    requires |positions| == |keys|
    requires forall i: nat, j: nat :: i < j < |keys| ==> KeysTell(positions, keys, i, j)
    ensures ThreePlaces(keys) <==> Threefold(positions)
  {
    if Threefold(positions) {
      var i, j, k :| 0 <= i < j < k < |positions|
                     && SameSituation(positions[i], positions[j]) && SameSituation(positions[j], positions[k]);
      assert KeysTell(positions, keys, i, j) && KeysTell(positions, keys, j, k);
      assert keys[i] == keys[j] && keys[j] == keys[k];
    }
    if ThreePlaces(keys) {
      var i, j, k :| 0 <= i < j < k < |keys| && keys[i] == keys[j] && keys[j] == keys[k];
      assert KeysTell(positions, keys, i, j) && KeysTell(positions, keys, j, k);
      assert SameSituation(positions[i], positions[j]) && SameSituation(positions[j], positions[k]);
    }
  }

  /** Counting keys decides repetition. */
  lemma KeysDecideThreefold(positions: seq<Position>)
    requires forall i :: 0 <= i < |positions| ==> Sound(positions[i])
    ensures ThriceAmong(Keys(positions)) <==> Threefold(positions)
  {
    var keys := Keys(positions);
    ThriceIsThreePlaces(keys);
    forall i: nat, j: nat | i < j < |keys|
      ensures KeysTell(positions, keys, i, j)
    {
      KeyEquality(positions[i], positions[j]);
    }
    TransferThreefold(positions, keys);
  }
}
