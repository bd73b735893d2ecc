/**
 * The non-freezable `LabelEncoder` of LabelEncoder.cpp: trimmed names get
 * dense ids from a `next_id` counter, and unknown ids decode to
 * `"Unknown Service"`.
 */
module BasicLabelEncoder {
  import Strings

  const UNKNOWN_SERVICE: string := "Unknown Service"

  class LabelEncoder {
    var mapping: map<string, int>
    var reverseMapping: seq<string>
    var nextId: int

    /**
     * The counter equals the number of names, and the map and the list are
     * inverse to each other.
     */
    predicate Valid()
      reads this
    {
      nextId == |reverseMapping| == |mapping| &&
      (forall s :: s in mapping ==> 0 <= mapping[s] < |reverseMapping| && reverseMapping[mapping[s]] == s) &&
      (forall i :: 0 <= i < |reverseMapping| ==> reverseMapping[i] in mapping && mapping[reverseMapping[i]] == i)
    }

    constructor ()
      ensures Valid() && mapping == map[] && reverseMapping == [] && nextId == 0
    {
      mapping := map[];
      reverseMapping := [];
      nextId := 0;
    }

    /**
     * A blank name gives -1 and changes nothing; a known trimmed name gives
     * its id and changes nothing; a new one gets `next_id`, which then
     * advances, and is appended to the list.
     */
    method Encode(s: string) returns (id: int)
      requires Valid()
      modifies this
      ensures Valid()
      ensures Strings.Blank(s) ==> id == -1 && unchanged(this)
      ensures !Strings.Blank(s) && Strings.Trim(s) in old(mapping) ==>
        id == old(mapping)[Strings.Trim(s)] && unchanged(this)
      ensures !Strings.Blank(s) && Strings.Trim(s) !in old(mapping) ==>
        id == old(nextId) && nextId == old(nextId) + 1 &&
        reverseMapping == old(reverseMapping) + [Strings.Trim(s)] &&
        mapping == old(mapping)[Strings.Trim(s) := id]
      ensures !Strings.Blank(s) ==> 0 <= id < |reverseMapping| && reverseMapping[id] == Strings.Trim(s)
    {
      var trimmed := Strings.Trim(s);
      if trimmed == [] {
        return -1;
      }
      if trimmed !in mapping {
        NewKeyGrows(mapping, trimmed, nextId);
        mapping := mapping[trimmed := nextId];
        nextId := nextId + 1;
        reverseMapping := reverseMapping + [trimmed];
        forall i | 0 <= i < |reverseMapping|
          ensures reverseMapping[i] in mapping && mapping[reverseMapping[i]] == i
        {
          if i < |reverseMapping| - 1 {
            assert reverseMapping[i] == old(reverseMapping)[i] != trimmed;
          }
        }
      }
      id := mapping[trimmed];
    }

    /** The stored name for an id in range, `"Unknown Service"` for any other id. */
    method Decode(id: int) returns (r: string)
      ensures 0 <= id < |reverseMapping| ==> r == reverseMapping[id]
      ensures id < 0 || |reverseMapping| <= id ==> r == UNKNOWN_SERVICE
    {
      if 0 <= id < |reverseMapping| {
        r := reverseMapping[id];
      } else {
        r := UNKNOWN_SERVICE;
      }
    }

    /** `numClasses` reports the counter, which is the number of distinct names seen. */
    method NumClasses() returns (n: int)
      requires Valid()
      ensures n == nextId && n == |mapping| && n == |reverseMapping|
    {
      n := nextId;
    }
  }

  /** Adding a key not yet in a map makes it one entry larger. */
  lemma NewKeyGrows(m: map<string, int>, k: string, v: int)
    requires k !in m
    ensures |m[k := v]| == |m| + 1
  {
    assert m[k := v].Keys == m.Keys + {k};
  }
}
