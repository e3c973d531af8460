/**
 * Input tomograms as the protocols see them, the numeric conversions they
 * apply to coordinate tables, and the tsId-keyed index they build at start.
 */
module Tomo {

  /** A physical sampling rate (distance per voxel); the host keeps it positive. */
  type SamplingRate = r: real | r > 0.0 witness 1.0

  /** One input tomogram, as cloned from the input set. */
  datatype Tomogram = Tomogram(tsId: string, fileName: string, samplingRate: SamplingRate)

  /** A mesh point of the output: the source tomogram, its group and a position in voxels. */
  datatype MeshPoint = MeshPoint(volume: Tomogram, groupId: int, x: real, y: real, z: real)

  /** Python's `int()` of a float: truncation toward zero. */
  function Trunc(r: real): (n: int)
    ensures 0.0 <= r ==> n as real <= r < n as real + 1.0
    ensures r < 0.0 ==> n as real - 1.0 < r <= n as real
  {
    if r >= 0.0 then r.Floor else -((-r).Floor)
  }

  /**
   * Keys of `{tomo.getTsId(): tomo.clone() for tomo in tomos}` in dict order:
   * a tsId takes the position of its first occurrence.
   */
  function KeyOrder(tomos: seq<Tomogram>): seq<string>
    decreases |tomos|
  {
    if tomos == [] then []
    else
      var keys := KeyOrder(tomos[..|tomos| - 1]);
      if tomos[|tomos| - 1].tsId in keys then keys else keys + [tomos[|tomos| - 1].tsId]
  }

  /** Values of the same dict: a later tomogram with the same tsId overwrites an earlier one. */
  function ByTsId(tomos: seq<Tomogram>): map<string, Tomogram>
    decreases |tomos|
  {
    if tomos == [] then map[]
    else ByTsId(tomos[..|tomos| - 1])[tomos[|tomos| - 1].tsId := tomos[|tomos| - 1]]
  }

  predicate Distinct(keys: seq<string>) {
    forall i, j :: 0 <= i < j < |keys| ==> keys[i] != keys[j]
  }

  function TsIds(tomos: seq<Tomogram>): (ids: seq<string>)
    ensures |ids| == |tomos| && forall i :: 0 <= i < |tomos| ==> ids[i] == tomos[i].tsId
  {
    seq(|tomos|, i requires 0 <= i < |tomos| => tomos[i].tsId)
  }

  /** The dict comprehension of `_initialize`, evaluated one tomogram at a time. */
  method IndexByTsId(tomos: seq<Tomogram>) returns (keys: seq<string>, dict: map<string, Tomogram>)
    ensures keys == KeyOrder(tomos) && dict == ByTsId(tomos)
  {
    keys, dict := [], map[];
    var i := 0;
    while i < |tomos|
      invariant 0 <= i <= |tomos|
      invariant keys == KeyOrder(tomos[..i]) && dict == ByTsId(tomos[..i])
    {
      assert tomos[..i + 1][..i] == tomos[..i];
      var t := tomos[i];
      if t.tsId !in keys {
        keys := keys + [t.tsId];
      }
      dict := dict[t.tsId := t];
      i := i + 1;
    }
    assert tomos[..|tomos|] == tomos;
  }

  /**
   * The index has one key per distinct tsId, in order of first appearance,
   * without repetition, and its key set is exactly the set of input tsIds;
   * each key maps to the last input tomogram carrying it.
   */
  lemma {:induction false} IndexShape(tomos: seq<Tomogram>)
    ensures Distinct(KeyOrder(tomos))
    ensures forall k :: k in KeyOrder(tomos) <==> k in ByTsId(tomos)
    ensures forall k :: k in ByTsId(tomos) <==> exists i :: 0 <= i < |tomos| && tomos[i].tsId == k
    ensures forall k :: k in ByTsId(tomos) ==> ByTsId(tomos)[k].tsId == k && ByTsId(tomos)[k] in tomos
    ensures |KeyOrder(tomos)| <= |tomos|
    decreases |tomos|
  {
    if tomos != [] {
      var init := tomos[..|tomos| - 1];
      IndexShape(init);
      forall k | k in ByTsId(tomos)
        ensures exists i :: 0 <= i < |tomos| && tomos[i].tsId == k
      {
        if k != tomos[|tomos| - 1].tsId {
          assert k in ByTsId(init);
          var i :| 0 <= i < |init| && init[i].tsId == k;
          assert tomos[i].tsId == k;
        }
      }
      forall k | exists i :: 0 <= i < |tomos| && tomos[i].tsId == k
        ensures k in ByTsId(tomos)
      {
        var i :| 0 <= i < |tomos| && tomos[i].tsId == k;
        if i < |init| {
          assert init[i].tsId == k;
        }
      }
    }
  }

  /**
   * With pairwise distinct tsIds (one clone per input tomogram), the keys are
   * the tsIds in input order and every tomogram is found under its own tsId.
   */
  lemma {:induction false} IndexOfDistinct(tomos: seq<Tomogram>)
    requires Distinct(TsIds(tomos))
    ensures KeyOrder(tomos) == TsIds(tomos)
    ensures forall i :: 0 <= i < |tomos| ==> tomos[i].tsId in ByTsId(tomos) && ByTsId(tomos)[tomos[i].tsId] == tomos[i]
    decreases |tomos|
  {
    if tomos != [] {
      var init := tomos[..|tomos| - 1];
      var last := tomos[|tomos| - 1];
      assert TsIds(init) == TsIds(tomos)[..|tomos| - 1];
      IndexOfDistinct(init);
      assert last.tsId !in KeyOrder(init);
      assert TsIds(tomos) == TsIds(init) + [last.tsId];
      forall i | 0 <= i < |tomos|
        ensures tomos[i].tsId in ByTsId(tomos) && ByTsId(tomos)[tomos[i].tsId] == tomos[i]
      {
        if i < |init| {
          assert TsIds(tomos)[i] != TsIds(tomos)[|tomos| - 1];
          assert init[i] == tomos[i];
        }
      }
    }
  }
}
