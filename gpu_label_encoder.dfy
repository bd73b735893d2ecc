/**
 * The `LabelEncoder` of LabelEncoderGPU.cpp: labels are used exactly as
 * given (no trimming, no sentinel, the empty string included), and unknown
 * ids decode to the empty string.
 */
module GpuLabelEncoder {

  class LabelEncoder {
    var labelToId: map<string, int>
    var idToLabel: seq<string>

    /** The map and the list are inverse to each other, so ids are dense from 0. */
    predicate Valid()
      reads this
    {
      (forall s :: s in labelToId ==> 0 <= labelToId[s] < |idToLabel| && idToLabel[labelToId[s]] == s) &&
      (forall i :: 0 <= i < |idToLabel| ==> idToLabel[i] in labelToId && labelToId[idToLabel[i]] == i)
    }

    constructor ()
      ensures Valid() && labelToId == map[] && idToLabel == []
    {
      labelToId := map[];
      idToLabel := [];
    }

    /** A known name gives its id and changes nothing; a new one gets `|idToLabel|` and is appended. */
    method Encode(name: string) returns (id: int)
      requires Valid()
      modifies this
      ensures Valid()
      ensures name in old(labelToId) ==> id == old(labelToId)[name] && unchanged(this)
      ensures name !in old(labelToId) ==>
        id == |old(idToLabel)| && idToLabel == old(idToLabel) + [name] &&
        labelToId == old(labelToId)[name := id]
      ensures 0 <= id < |idToLabel| && idToLabel[id] == name
    {
      if name in labelToId {
        return labelToId[name];
      }
      id := |idToLabel|;
      labelToId := labelToId[name := id];
      idToLabel := idToLabel + [name];
      forall i | 0 <= i < |idToLabel|
        ensures idToLabel[i] in labelToId && labelToId[idToLabel[i]] == i
      {
        if i < id {
          assert idToLabel[i] == old(idToLabel)[i] != name;
        }
      }
    }

    /** The stored name for an id in range, the empty string for any other id. */
    method Decode(id: int) returns (r: string)
      ensures 0 <= id < |idToLabel| ==> r == idToLabel[id]
      ensures id < 0 || |idToLabel| <= id ==> r == ""
    {
      if id < 0 || |idToLabel| <= id {
        return "";
      }
      r := idToLabel[id];
    }

    method NumClasses() returns (n: nat)
      ensures n == |idToLabel|
    {
      n := |idToLabel|;
    }

    /** `decode(encode(name)) == name` for every name, the empty one included. */
    method EncodeThenDecode(name: string) returns (r: string)
      requires Valid()
      modifies this
      ensures Valid() && r == name
    {
      var id := Encode(name);
      r := Decode(id);
    }
  }
}
