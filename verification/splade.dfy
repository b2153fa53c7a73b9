/** The SPLADE model of lightning_ir/models/splade/model.py, reduced to the
    decisions it makes on names: whether a checkpoint is loaded the naver
    way, whether the MLM head is installed, and how the keys of a naver
    checkpoint's state dictionary are renamed for the LightningIR model.
    A state dictionary is a map from key to tensor together with the order
    of its keys (a Python dict iterates in insertion order). */
module Splade {
  import opened Strings

  /** Removed before renaming: the BERT position ids and the MLM bias. */
  const PositionIdsKey := "bert.embeddings.position_ids"
  const PredictionsBiasKey := "cls.predictions.bias"

  /** How `from_pretrained` loads a model. */
  datatype LoadRoute = NaverCheckpoint | PretrainedLoad

  /** `from_pretrained`: the naver route exactly when "naver" occurs
      somewhere in the model name or path. */
  function FromPretrainedRoute(name: string): (r: LoadRoute)
    ensures r == NaverCheckpoint <==> exists i :: OccursAt(name, "naver", i)
  {
    ContainsIff(name, "naver");
    if Contains(name, "naver") then NaverCheckpoint else PretrainedLoad
  }

  /** The projection the model ends up with: the MLM head, or the one the
      bi-encoder base class installs. */
  datatype Projection = MlmHead | BiEncoderProjection

  /** `__init__`: the MLM head replaces the projection exactly when the
      configured projection is "mlm". */
  function ProjectionFor(configured: string): (r: Projection)
    ensures r == MlmHead <==> configured == "mlm"
  {
    if configured == "mlm" then MlmHead else BiEncoderProjection
  }

  /** The new name of a checkpoint key: a "bert." prefix is dropped;
      otherwise "cls.predictions" becomes "projection" and ".transform"
      disappears. */
  function RewriteKey(key: string): string
  {
    if StartsWith(key, "bert.") then key[5..]
    else ReplaceAll(ReplaceAll(key, "cls.predictions", "projection"), ".transform", "")
  }

  /** A BERT key loses exactly its "bert." prefix. */
  lemma RewriteBertKey(rest: string)
    ensures RewriteKey("bert." + rest) == rest
  {
    assert ("bert." + rest)[..5] == "bert.";
    assert ("bert." + rest)[5..] == rest;
  }

  /** A key that neither starts with "bert." nor mentions
      "cls.predictions" or ".transform" keeps its name. */
  lemma RewritePlainKey(key: string)
    requires !StartsWith(key, "bert.")
    requires !Contains(key, "cls.predictions") && !Contains(key, ".transform")
    ensures RewriteKey(key) == key
  {
    ReplaceAllAbsent(key, "cls.predictions", "projection");
    ReplaceAllAbsent(key, ".transform", "");
  }

  predicate Distinct(keys: seq<string>)
  {
    forall i, j :: 0 <= i < j < |keys| ==> keys[i] != keys[j]
  }

  /** `order` lists the keys of `sd` once each. */
  ghost predicate KeyOrder<V>(sd: map<string, V>, order: seq<string>)
  {
    Distinct(order) && forall k :: k in sd <==> k in order
  }

  /** The keys left, in their order, once the two keys are popped. */
  function Unpopped(order: seq<string>): (r: seq<string>)
    ensures forall k :: k in r <==> k in order && k != PositionIdsKey && k != PredictionsBiasKey
    ensures Distinct(order) ==> Distinct(r)
  {
    if |order| == 0 then []
    else
      var tail := Unpopped(order[1..]);
      if order[0] == PositionIdsKey || order[0] == PredictionsBiasKey then tail
      else
        assert Distinct(order) ==> order[0] !in order[1..];
        [order[0]] + tail
  }

  /** Renaming the keys `rest`, one at a time: each is popped and its value
      stored under the new name, overwriting whatever that name held. */
  function RewriteFrom<V>(d: map<string, V>, rest: seq<string>, rename: string -> string): map<string, V>
    requires Distinct(rest) && forall k :: k in rest ==> k in d
    decreases |rest|
  {
    if |rest| == 0 then d
    else
      var k := rest[0];
      assert forall j :: 1 <= j < |rest| ==> rest[j] != k;
      RewriteFrom((d - {k})[rename(k) := d[k]], rest[1..], rename)
  }

  /** What the state dictionary holds after the pops and the renaming loop
      over the keys as they stood before it. */
  function RewriteStateDict<V>(sd: map<string, V>, order: seq<string>): map<string, V>
    requires KeyOrder(sd, order)
  {
    RewriteFrom(sd - {PositionIdsKey, PredictionsBiasKey}, Unpopped(order), RewriteKey)
  }

  /** One turn of the renaming loop: the first key is renamed, and the keys
      after it are still present and pairwise different. */
  lemma RewriteStep<V>(d: map<string, V>, rest: seq<string>, rename: string -> string)
    requires Distinct(rest) && forall k :: k in rest ==> k in d
    requires |rest| > 0
    ensures var next := (d - {rest[0]})[rename(rest[0]) := d[rest[0]]];
      && Distinct(rest[1..])
      && (forall j :: 1 <= j < |rest| ==> rest[j] in next)
      && RewriteFrom(d, rest, rename) == RewriteFrom(next, rest[1..], rename)
  {
    assert forall j :: 1 <= j < |rest| ==> rest[j] != rest[0];
  }

  /** The key rewriting of `from_naver_checkpoint`, in place on its own copy
      of the state dictionary. */
  method RewriteCheckpoint<V>(sd: map<string, V>, order: seq<string>) returns (out: map<string, V>)
    requires KeyOrder(sd, order)
    ensures out == RewriteStateDict(sd, order)
  {
    out := sd - {PositionIdsKey};
    out := out - {PredictionsBiasKey};
    assert out == sd - {PositionIdsKey, PredictionsBiasKey};
    var snapshot := Unpopped(order);
    var i := 0;
    while i < |snapshot|
      invariant 0 <= i <= |snapshot|
      invariant forall j :: i <= j < |snapshot| ==> snapshot[j] in out
      invariant Distinct(snapshot[i..])
      invariant RewriteFrom(out, snapshot[i..], RewriteKey) == RewriteStateDict(sd, order)
    {
      var key := snapshot[i];
      assert snapshot[i..][1..] == snapshot[i + 1..];
      RewriteStep(out, snapshot[i..], RewriteKey);
      var value := out[key];
      out := out - {key};
      out := out[RewriteKey(key) := value];
      i := i + 1;
    }
  }

  /** Every key after renaming is the new name of one of the renamed keys,
      or a key that was not renamed. */
  lemma {:induction false} RewriteFromKeys<V>(d: map<string, V>, rest: seq<string>, rename: string -> string)
    requires Distinct(rest) && forall k :: k in rest ==> k in d
    ensures RewriteFrom(d, rest, rename).Keys <= (d.Keys - (set k | k in rest)) + (set k | k in rest :: rename(k))
    decreases |rest|
  {
    if |rest| > 0 {
      var k := rest[0];
      assert forall j :: 1 <= j < |rest| ==> rest[j] != k;
      var next := (d - {k})[rename(k) := d[k]];
      RewriteFromKeys(next, rest[1..], rename);
      assert forall x :: x in rest <==> x == k || x in rest[1..];
    }
  }

  /** Each key after rewriting is the new name of a key the loop renamed:
      no popped key survives unless some other key is renamed to it. */
  lemma RewrittenKeys<V>(sd: map<string, V>, order: seq<string>)
    requires KeyOrder(sd, order)
    ensures forall x :: x in RewriteStateDict(sd, order) ==>
      exists k :: k in order && k != PositionIdsKey && k != PredictionsBiasKey && RewriteKey(k) == x
    ensures (forall k :: k in order ==> RewriteKey(k) != PositionIdsKey) ==> PositionIdsKey !in RewriteStateDict(sd, order)
    ensures (forall k :: k in order ==> RewriteKey(k) != PredictionsBiasKey) ==> PredictionsBiasKey !in RewriteStateDict(sd, order)
  {
    var d := sd - {PositionIdsKey, PredictionsBiasKey};
    var snapshot := Unpopped(order);
    RewriteFromKeys(d, snapshot, RewriteKey);
    UnpoppedKeys(sd, order);
  }

  /** The keys left after the pops are the keys the loop goes through. */
  lemma UnpoppedKeys<V>(sd: map<string, V>, order: seq<string>)
    requires KeyOrder(sd, order)
    ensures (sd - {PositionIdsKey, PredictionsBiasKey}).Keys == set k | k in Unpopped(order)
  {
  }

  /** The new names of `keys`. */
  function NewNames(keys: seq<string>, rename: string -> string): set<string>
  {
    set k | k in keys :: rename(k)
  }

  /** The new names of `keys` are pairwise different, and no key is
      renamed onto a key that comes after it. */
  predicate NoCollisions(keys: seq<string>, rename: string -> string)
  {
    && (forall i, j :: 0 <= i < |keys| && 0 <= j < |keys| && rename(keys[i]) == rename(keys[j]) ==> i == j)
    && (forall i, j :: 0 <= i < j < |keys| ==> rename(keys[i]) != keys[j])
  }

  /** Without collisions, the first key's new name is neither a later key
      nor a later key's new name, and the later keys have no collisions. */
  lemma NoCollisionsTail(keys: seq<string>, rename: string -> string)
    requires |keys| > 0 && NoCollisions(keys, rename)
    ensures NoCollisions(keys[1..], rename)
    ensures rename(keys[0]) !in keys[1..]
    ensures rename(keys[0]) !in NewNames(keys[1..], rename)
    ensures forall j :: 1 <= j < |keys| ==> keys[j] != rename(keys[0])
  {
    var tail := keys[1..];
    forall i, j | 0 <= i < |tail| && 0 <= j < |tail| && rename(tail[i]) == rename(tail[j]) ensures i == j {
      assert rename(keys[i + 1]) == rename(keys[j + 1]);
    }
    forall i, j | 0 <= i < j < |tail| ensures rename(tail[i]) != tail[j] {
      assert rename(keys[i + 1]) != keys[j + 1];
    }
    forall j | 0 <= j < |tail| ensures tail[j] != rename(keys[0]) && rename(tail[j]) != rename(keys[0]) {
      assert keys[j + 1] != rename(keys[0]);
      assert rename(keys[j + 1]) != rename(keys[0]);
    }
  }

  /** Without collisions renaming loses nothing: every renamed key's value
      is found under its new name, the other keys keep theirs, and no
      renamed key remains under its old name unless it is itself a new
      name. */
  lemma {:induction false} RewriteFromExact<V>(d: map<string, V>, rest: seq<string>, rename: string -> string)
    requires Distinct(rest) && forall k :: k in rest ==> k in d
    requires NoCollisions(rest, rename)
    ensures RewriteFrom(d, rest, rename).Keys == (d.Keys - (set k | k in rest)) + NewNames(rest, rename)
    ensures forall k :: k in rest ==> RewriteFrom(d, rest, rename)[rename(k)] == d[k]
    ensures forall k :: k in d && k !in rest && k !in NewNames(rest, rename) ==> RewriteFrom(d, rest, rename)[k] == d[k]
    decreases |rest|
  {
    if |rest| > 0 {
      var k := rest[0];
      var tail := rest[1..];
      var next := (d - {k})[rename(k) := d[k]];
      RewriteStep(d, rest, rename);
      NoCollisionsTail(rest, rename);
      RewriteFromExact(next, tail, rename);
      NewNamesCons(rest, rename);
      assert forall x :: x in rest ==> x == k || x in tail;
    }
  }

  lemma NewNamesCons(keys: seq<string>, rename: string -> string)
    requires |keys| > 0
    ensures NewNames(keys, rename) == {rename(keys[0])} + NewNames(keys[1..], rename)
    ensures (set k | k in keys) == {keys[0]} + (set k | k in keys[1..])
  {
    assert forall x :: x in keys <==> x == keys[0] || x in keys[1..];
  }

  /** For a checkpoint whose renaming has no collisions, the result holds
      exactly the new names, each with the value of its original key. */
  lemma RewriteWithoutCollisions<V>(sd: map<string, V>, order: seq<string>)
    requires KeyOrder(sd, order)
    requires NoCollisions(Unpopped(order), RewriteKey)
    ensures RewriteStateDict(sd, order).Keys == NewNames(Unpopped(order), RewriteKey)
    ensures forall k :: k in Unpopped(order) ==> RewriteStateDict(sd, order)[RewriteKey(k)] == sd[k]
  {
    var d := sd - {PositionIdsKey, PredictionsBiasKey};
    var snapshot := Unpopped(order);
    RewriteFromExact(d, snapshot, RewriteKey);
    UnpoppedKeys(sd, order);
  }

  /** The loop renames the keys as they stood before it: a key created by
      the renaming is not renamed again, so "bert.bert." + rest ends as
      "bert." + rest. */
  lemma SnapshotRenamesOnce<V>(rest: string, v: V)
    ensures RewriteStateDict(map["bert.bert." + rest := v], ["bert.bert." + rest]) == map["bert." + rest := v]
  {
    var key := "bert.bert." + rest;
    assert key == "bert." + ("bert." + rest);
    RewriteBertKey("bert." + rest);
    assert key[5] == 'b' != PositionIdsKey[5];
    assert key[0] == 'b' != PredictionsBiasKey[0];
    assert Unpopped([key]) == [key];
    var d := map[key := v] - {PositionIdsKey, PredictionsBiasKey};
    assert d == map[key := v];
    assert RewriteFrom(d, [key], RewriteKey) == RewriteFrom((d - {key})[RewriteKey(key) := v], [], RewriteKey);
  }
}
