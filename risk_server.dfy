/**
 * The `/riesgo` service of Server/server.cpp: the zone table, the
 * case-insensitive zone filter, the warm-up that numbers every zone with
 * the two encoders, and the handler that builds one 42-slot query vector
 * per matching zone. The random forest and the JSON output are left out;
 * each answer carries the query vector that would be classified.
 */
module RiskServer {
  import Strings
  import Encoders

  /** One row of `ZONES`. The two ids are the table's own and are never used for the features. */
  datatype Zone = Zone(idCanton: int, idProvincia: int, province: string, canton: string, lat: real, lon: real)

  /** Number of slots of a query vector. */
  const N_FEATS: nat := 42
  /** The fixed date written in slot 0. */
  const QUERY_DATE: real := 202510.0
  /** Size of the one-hot province block, slots 1 to 24. */
  const PROVINCE_SLOTS: nat := 24
  /** The slot holding the canton id. */
  const CANTON_SLOT: nat := 25

  /* ---------------- toUpper ---------------- */

  /** `::toupper` in the C locale: ASCII lower-case letters move to upper case, every other character stays. */
  function Upper(c: char): char
  {
    if 'a' <= c <= 'z' then (c as int - 32) as char else c
  }

  /** `toUpper`: same length, each character upper-cased on its own. */
  function ToUpper(s: string): (r: string)
    ensures |r| == |s|
    ensures forall i :: 0 <= i < |s| ==> r[i] == Upper(s[i])
  {
    if s == [] then [] else [Upper(s[0])] + ToUpper(s[1..])
  }

  /** Upper-casing twice is upper-casing once. */
  lemma ToUpperIdempotent(s: string)
    ensures ToUpper(ToUpper(s)) == ToUpper(s)
  {
    assert forall i :: 0 <= i < |s| ==> Upper(Upper(s[i])) == Upper(s[i]);
  }

  /** Only ASCII lower-case letters change, and nothing in the result is an ASCII lower-case letter. */
  lemma ToUpperChanges(s: string, i: int)
    requires 0 <= i < |s|
    ensures ToUpper(s)[i] != s[i] <==> 'a' <= s[i] <= 'z'
    ensures !('a' <= ToUpper(s)[i] <= 'z')
  {
  }

  /* ---------------- the zone filter ---------------- */

  /** A zone matches when each filter is empty or equal to the zone's name once both are upper-cased. */
  predicate Matches(z: Zone, reqProv: string, reqCant: string)
  {
    (reqProv == "" || ToUpper(z.province) == ToUpper(reqProv)) &&
    (reqCant == "" || ToUpper(z.canton) == ToUpper(reqCant))
  }

  /** Empty filters match every zone. */
  lemma EmptyFiltersMatch(z: Zone)
    ensures Matches(z, "", "")
  {
  }

  /** Matching ignores the case of both the filters and the zone's names. */
  lemma MatchesIgnoresCase(z: Zone, reqProv: string, reqCant: string)
    ensures Matches(z, reqProv, reqCant) == Matches(z, ToUpper(reqProv), ToUpper(reqCant))
    ensures Matches(z, reqProv, reqCant) ==
      Matches(z.(province := ToUpper(z.province), canton := ToUpper(z.canton)), reqProv, reqCant)
  {
    ToUpperIdempotent(reqProv);
    ToUpperIdempotent(reqCant);
    ToUpperIdempotent(z.province);
    ToUpperIdempotent(z.canton);
  }

  /* ---------------- the two encoders ---------------- */

  /** The state of the province encoder and of the canton encoder. */
  datatype Registry = Registry(prov: Encoders.Vocabulary, cantons: map<int, map<string, int>>)

  const START: Registry := Registry(Encoders.EMPTY, map[])

  /** The province id the province encoder gives a zone. */
  function ProvIdOf(r: Registry, z: Zone): int
  {
    Encoders.VocabEncode(r.prov, z.province).1
  }

  /** One warm-up step: encode the province twice, then the canton under the id of the second call. */
  function WarmStep(r: Registry, z: Zone): Registry
  {
    var v1 := Encoders.VocabEncode(r.prov, z.province).0;
    var (v2, idProv) := Encoders.VocabEncode(v1, z.province);
    Registry(v2, Encoders.CantonEncode(r.cantons, idProv, z.canton).0)
  }

  /** The registry after warming up on `zones` in table order. */
  function Warm(r: Registry, zones: seq<Zone>): Registry
  {
    if zones == [] then r else WarmStep(Warm(r, zones[..|zones| - 1]), zones[|zones| - 1])
  }

  /** The registry the server answers with: warmed up on the table, then the province encoder frozen. */
  function Served(zones: seq<Zone>): Registry
  {
    var w := Warm(START, zones);
    w.(prov := w.prov.(frozen := true))
  }

  /** Both encoders have seen zone `z`: its province if not blank, and its canton under its province id if not blank. */
  predicate KnownZone(r: Registry, z: Zone)
  {
    (!Strings.Blank(z.province) ==> Strings.Trim(z.province) in r.prov.forward) &&
    (!Strings.Blank(z.canton) ==>
       Strings.Trim(z.canton) in Encoders.Children(r.cantons, ProvIdOf(r, z)))
  }

  predicate Known(r: Registry, zones: seq<Zone>)
  {
    forall i :: 0 <= i < |zones| ==> KnownZone(r, zones[i])
  }

  /** The encoders are consistent: the province tables are inverse to each other and local canton ids are dense. */
  predicate Consistent(r: Registry)
  {
    Encoders.Bijective(r.prov) && Encoders.DenseLocal(r.cantons)
  }

  /** Nothing `r` knows is forgotten or renumbered in `w`. */
  predicate Extends(r: Registry, w: Registry)
  {
    (forall t :: t in r.prov.forward ==> t in w.prov.forward && w.prov.forward[t] == r.prov.forward[t]) &&
    (forall q :: q in r.cantons ==> q in w.cantons && r.cantons[q].Keys <= w.cantons[q].Keys)
  }

  lemma KnownZoneExtends(r: Registry, w: Registry, z: Zone)
    requires KnownZone(r, z) && Extends(r, w)
    ensures KnownZone(w, z) && ProvIdOf(w, z) == ProvIdOf(r, z)
  {
  }

  /** The second province encoding of a warm-up step returns the id of the first and changes nothing. */
  lemma WarmStepProv(r: Registry, z: Zone)
    requires Encoders.Bijective(r.prov)
    ensures var v1 := Encoders.VocabEncode(r.prov, z.province).0;
      Encoders.Bijective(v1) && Encoders.VocabEncode(v1, z.province) == (v1, ProvIdOf(Registry(v1, r.cantons), z)) &&
      WarmStep(r, z) == Registry(v1, Encoders.CantonEncode(r.cantons, ProvIdOf(Registry(v1, r.cantons), z), z.canton).0)
  {
    Encoders.EncodeBijective(r.prov, z.province);
    Encoders.EncodeTwice(r.prov, z.province);
  }

  /** Province encoding forgets and renumbers nothing. */
  lemma ProvEncodeExtends(v: Encoders.Vocabulary, w: Encoders.Vocabulary, s: string)
    requires w == Encoders.VocabEncode(v, s).0
    ensures forall t :: t in v.forward ==> t in w.forward && w.forward[t] == v.forward[t]
  {
  }

  /** Canton encoding forgets no province and no canton. */
  lemma CantonEncodeExtends(h: map<int, map<string, int>>, g: map<int, map<string, int>>, p: int, name: string)
    requires g == Encoders.CantonEncode(h, p, name).0
    ensures forall q :: q in h ==> q in g && h[q].Keys <= g[q].Keys
  {
  }

  lemma WarmStepExtends(r: Registry, z: Zone)
    requires Encoders.Bijective(r.prov)
    ensures Extends(r, WarmStep(r, z))
  {
    WarmStepProv(r, z);
    var w := WarmStep(r, z);
    ProvEncodeExtends(r.prov, w.prov, z.province);
    CantonEncodeExtends(r.cantons, w.cantons, ProvIdOf(Registry(w.prov, r.cantons), z), z.canton);
  }

  lemma WarmStepKnown(r: Registry, z: Zone)
    requires Encoders.Bijective(r.prov) && !r.prov.frozen
    ensures KnownZone(WarmStep(r, z), z) && !WarmStep(r, z).prov.frozen
  {
    WarmStepProv(r, z);
    var w := WarmStep(r, z);
    var v1 := Encoders.VocabEncode(r.prov, z.province).0;
    var idProv := ProvIdOf(Registry(v1, r.cantons), z);
    assert w.prov == v1;
    assert ProvIdOf(w, z) == idProv;
    var h := Encoders.CantonEncode(r.cantons, idProv, z.canton).0;
    assert w.cantons == h;
    if !Strings.Blank(z.canton) {
      assert idProv in h && Strings.Trim(z.canton) in h[idProv];
    }
  }

  lemma WarmStepConsistent(r: Registry, z: Zone)
    requires Consistent(r)
    ensures Consistent(WarmStep(r, z))
  {
    WarmStepProv(r, z);
    var v1 := Encoders.VocabEncode(r.prov, z.province).0;
    Encoders.CantonEncodeDense(r.cantons, ProvIdOf(Registry(v1, r.cantons), z), z.canton);
  }

  lemma WarmStepFacts(r: Registry, z: Zone)
    requires Consistent(r) && !r.prov.frozen
    ensures Consistent(WarmStep(r, z)) && Extends(r, WarmStep(r, z))
    ensures KnownZone(WarmStep(r, z), z) && !WarmStep(r, z).prov.frozen
  {
    WarmStepConsistent(r, z);
    WarmStepExtends(r, z);
    WarmStepKnown(r, z);
  }

  lemma KnownStep(u: Registry, w: Registry, zones: seq<Zone>)
    requires zones != []
    requires Known(u, zones[..|zones| - 1]) && Extends(u, w) && KnownZone(w, zones[|zones| - 1])
    ensures Known(w, zones)
  {
    forall i | 0 <= i < |zones|
      ensures KnownZone(w, zones[i])
    {
      if i < |zones| - 1 {
        assert zones[..|zones| - 1][i] == zones[i];
        KnownZoneExtends(u, w, zones[i]);
      }
    }
  }

  /**
   * Warm-up numbers every zone of the table: afterwards both encoders know
   * every zone, and they stay consistent.
   */
  lemma {:induction false} WarmKnown(r: Registry, zones: seq<Zone>)
    requires Consistent(r) && !r.prov.frozen
    ensures Consistent(Warm(r, zones)) && Known(Warm(r, zones), zones) && !Warm(r, zones).prov.frozen
  {
    if zones != [] {
      var init := zones[..|zones| - 1];
      var u := Warm(r, init);
      WarmKnown(r, init);
      WarmStepFacts(u, zones[|zones| - 1]);
      KnownStep(u, WarmStep(u, zones[|zones| - 1]), zones);
    }
  }

  /* ---------------- the query vector ---------------- */

  /** Slot `i` of the query vector of a zone with province id `pIdx` and canton id `idCanton`. */
  function Slot(pIdx: int, idCanton: int, i: int): real
  {
    if i == 0 then QUERY_DATE
    else if i == CANTON_SLOT then idCanton as real
    else if 0 <= pIdx < PROVINCE_SLOTS && i == 1 + pIdx then 1.0
    else 0.0
  }

  /** The first `n` slots. */
  function QueryPrefix(pIdx: int, idCanton: int, n: nat): seq<real>
  {
    if n == 0 then [] else QueryPrefix(pIdx, idCanton, n - 1) + [Slot(pIdx, idCanton, n - 1)]
  }

  function QueryVector(pIdx: int, idCanton: int): seq<real>
  {
    QueryPrefix(pIdx, idCanton, N_FEATS)
  }

  lemma {:induction false} QueryPrefixSlots(pIdx: int, idCanton: int, n: nat)
    ensures |QueryPrefix(pIdx, idCanton, n)| == n
    ensures forall i :: 0 <= i < n ==> QueryPrefix(pIdx, idCanton, n)[i] == Slot(pIdx, idCanton, i)
  {
    if n > 0 {
      QueryPrefixSlots(pIdx, idCanton, n - 1);
    }
  }

  /**
   * 42 slots: the date in slot 0, a one-hot province block in slots 1 to 24
   * that is set only for a province id below 24, the canton id in slot 25,
   * zeros everywhere else.
   */
  lemma QuerySlots(pIdx: int, idCanton: int)
    ensures var q := QueryVector(pIdx, idCanton);
      |q| == N_FEATS && q[0] == QUERY_DATE && q[CANTON_SLOT] == idCanton as real &&
      (forall i :: 1 <= i <= PROVINCE_SLOTS ==> (q[i] == 1.0 <==> 0 <= pIdx < PROVINCE_SLOTS && i == 1 + pIdx)) &&
      (forall i :: 1 <= i <= PROVINCE_SLOTS ==> q[i] == 0.0 || q[i] == 1.0) &&
      (forall i :: CANTON_SLOT < i < N_FEATS ==> q[i] == 0.0)
  {
    QueryPrefixSlots(pIdx, idCanton, N_FEATS);
  }

  /** `queryPoint`: allocated zero-filled, then slots 0, `1 + pIdx` and 25 written. */
  method BuildQuery(pIdx: int, idCanton: int) returns (q: array<real>)
    ensures fresh(q) && q[..] == QueryVector(pIdx, idCanton)
  {
    q := new real[N_FEATS](_ => 0.0);
    q[0] := QUERY_DATE;
    if 0 <= pIdx < PROVINCE_SLOTS {
      q[1 + pIdx] := 1.0;
    }
    q[CANTON_SLOT] := idCanton as real;
    QueryPrefixSlots(pIdx, idCanton, N_FEATS);
    assert forall i :: 0 <= i < N_FEATS ==> q[i] == Slot(pIdx, idCanton, i);
  }

  /* ---------------- the /riesgo handler ---------------- */

  /**
   * One element of the response: the zone's position and names with the
   * province and canton ids it was classified on; its query vector is
   * `QueryVector(provId, cantonId)`.
   */
  datatype Answer = Answer(lat: real, lon: real, canton: string, province: string, provId: int, cantonId: int)

  /** The answer for zone `z` classified with ids `p` and `c`. */
  function Emit(z: Zone, p: int, c: int): seq<Answer>
  {
    [Answer(z.lat, z.lon, z.canton, z.province, p, c)]
  }

  /** The query vectors of `answers`, in order. */
  function Points(answers: seq<Answer>): seq<seq<real>>
  {
    if answers == [] then []
    else Points(answers[..|answers| - 1]) + [QueryVector(answers[|answers| - 1].provId, answers[|answers| - 1].cantonId)]
  }

  /** One query vector per answer, built from that answer's ids. */
  lemma {:induction false} PointsIndex(answers: seq<Answer>)
    ensures |Points(answers)| == |answers|
    ensures forall k :: 0 <= k < |answers| ==>
      Points(answers)[k] == QueryVector(answers[k].provId, answers[k].cantonId)
  {
    if answers != [] {
      var init := answers[..|answers| - 1];
      PointsIndex(init);
      assert forall k :: 0 <= k < |init| ==> init[k] == answers[k];
    }
  }

  lemma PointsEmit(z: Zone, p: int, c: int)
    ensures Points(Emit(z, p, c)) == [QueryVector(p, c)]
  {
    assert Emit(z, p, c)[..0] == [];
  }

  lemma {:induction false} PointsAppend(a: seq<Answer>, b: seq<Answer>)
    ensures Points(a + b) == Points(a) + Points(b)
  {
    if b == [] {
      assert a + b == a;
    } else {
      PointsAppend(a, b[..|b| - 1]);
      assert (a + b)[..|a + b| - 1] == a + b[..|b| - 1];
    }
  }

  /** One zone of the handler loop: the encoders' new state and the answer, if any. */
  function HandleZone(r: Registry, z: Zone, reqProv: string, reqCant: string): (Registry, seq<Answer>)
  {
    if !Matches(z, reqProv, reqCant) then (r, [])
    else
      var e := EncodeIds(r, z);
      (e.0, if e.1 < 0 || e.2 < 0 then [] else Emit(z, e.1, e.2))
  }

  /** Both encodings of a matching zone: the encoders' new state, the province id and the canton id. */
  function EncodeIds(r: Registry, z: Zone): (Registry, int, int)
  {
    var pe := Encoders.VocabEncode(r.prov, z.province);
    var ce := Encoders.CantonEncode(r.cantons, pe.1, z.canton);
    (Registry(pe.0, ce.0), pe.1, ce.1)
  }

  /** The handler over `zones` in table order. */
  function Handle(r: Registry, zones: seq<Zone>, reqProv: string, reqCant: string): (Registry, seq<Answer>)
  {
    if zones == [] then (r, [])
    else
      var (u, a) := Handle(r, zones[..|zones| - 1], reqProv, reqCant);
      var (w, b) := HandleZone(u, zones[|zones| - 1], reqProv, reqCant);
      (w, a + b)
  }

  /**
   * What the service is meant to answer: in table order, one answer for
   * every matching zone whose province and canton names are not blank,
   * with the province's id and the composite canton id `provId * 1000 +
   * local id` from the encoders.
   */
  function Expected(r: Registry, zones: seq<Zone>, reqProv: string, reqCant: string): seq<Answer>
    requires Known(r, zones)
  {
    if zones == [] then []
    else Expected(r, zones[..|zones| - 1], reqProv, reqCant) + ExpectedOne(r, zones[|zones| - 1], reqProv, reqCant)
  }

  /** The answer `Expected` gives for one zone. */
  function ExpectedOne(r: Registry, z: Zone, reqProv: string, reqCant: string): seq<Answer>
    requires KnownZone(r, z)
  {
    if Matches(z, reqProv, reqCant) && !Strings.Blank(z.province) && !Strings.Blank(z.canton) then
      Emit(z, KnownProvId(r, z), KnownCantonId(r, z))
    else []
  }

  /** The id the province encoder holds for the zone's trimmed province name. */
  function KnownProvId(r: Registry, z: Zone): int
    requires KnownZone(r, z) && !Strings.Blank(z.province)
  {
    r.prov.forward[Strings.Trim(z.province)]
  }

  /** The composite id: the province id times 1000 plus the canton's local id under that province. */
  function KnownCantonId(r: Registry, z: Zone): int
    requires KnownZone(r, z) && !Strings.Blank(z.province) && !Strings.Blank(z.canton)
  {
    KnownProvId(r, z) * Encoders.OFFSET_MULTIPLIER + Encoders.Children(r.cantons, KnownProvId(r, z))[Strings.Trim(z.canton)]
  }

  /** A known province encodes to its id, at least 0, without changing the encoder; a blank one to -1. */
  lemma ProvEncodeKnown(r: Registry, z: Zone)
    requires Encoders.Bijective(r.prov) && KnownZone(r, z)
    ensures Encoders.VocabEncode(r.prov, z.province) ==
      (r.prov, if Strings.Blank(z.province) then -1 else r.prov.forward[Strings.Trim(z.province)])
    ensures !Strings.Blank(z.province) ==> r.prov.forward[Strings.Trim(z.province)] >= 0
  {
  }

  /** A known canton encodes to its composite id without changing the encoder; a blank one to -1. */
  lemma CantonEncodeKnown(h: map<int, map<string, int>>, p: int, name: string)
    requires Encoders.DenseLocal(h)
    requires !Strings.Blank(name) ==> Strings.Trim(name) in Encoders.Children(h, p)
    ensures Encoders.CantonEncode(h, p, name).0 == h
    ensures Strings.Blank(name) ==> Encoders.CantonEncode(h, p, name).1 == -1
    ensures !Strings.Blank(name) ==>
      Encoders.Children(h, p)[Strings.Trim(name)] >= 0 &&
      Encoders.CantonEncode(h, p, name).1 == p * Encoders.OFFSET_MULTIPLIER + Encoders.Children(h, p)[Strings.Trim(name)]
  {
    if !Strings.Blank(name) {
      assert Encoders.LocalIdsDense(h[p]);
    }
  }

  /** Encoding a known zone leaves both encoders alone and yields its known ids, which are negative only for a blank name. */
  lemma EncodeKnownZone(r: Registry, z: Zone)
    requires Consistent(r) && KnownZone(r, z)
    ensures EncodeIds(r, z).0 == r
    ensures EncodeIds(r, z).1 >= 0 && EncodeIds(r, z).2 >= 0 <==> !Strings.Blank(z.province) && !Strings.Blank(z.canton)
    ensures !Strings.Blank(z.province) && !Strings.Blank(z.canton) ==>
      EncodeIds(r, z).1 == KnownProvId(r, z) && EncodeIds(r, z).2 == KnownCantonId(r, z)
  {
    ProvEncodeKnown(r, z);
    CantonEncodeKnown(r.cantons, ProvIdOf(r, z), z.canton);
  }

  lemma HandleZoneStable(r: Registry, z: Zone, reqProv: string, reqCant: string)
    requires Consistent(r) && KnownZone(r, z)
    ensures HandleZone(r, z, reqProv, reqCant).0 == r
    ensures HandleZone(r, z, reqProv, reqCant).1 == ExpectedOne(r, z, reqProv, reqCant)
  {
    EncodeKnownZone(r, z);
  }

  /**
   * On encoders that already know every zone, the handler changes neither
   * encoder and answers exactly `Expected`: the matching zones with both
   * names present, once each, in table order.
   */
  lemma {:induction false} HandleStable(r: Registry, zones: seq<Zone>, reqProv: string, reqCant: string)
    requires Consistent(r) && Known(r, zones)
    ensures Handle(r, zones, reqProv, reqCant) == (r, Expected(r, zones, reqProv, reqCant))
  {
    if zones != [] {
      var init := zones[..|zones| - 1];
      var z := zones[|zones| - 1];
      assert Known(r, init) by {
        forall i | 0 <= i < |init|
          ensures KnownZone(r, init[i])
        {
          assert init[i] == zones[i];
        }
      }
      HandleStable(r, init, reqProv, reqCant);
      HandleZoneStable(r, z, reqProv, reqCant);
    }
  }

  /** Freezing the province encoder changes no id of a province it knows. */
  lemma FrozenKnown(w: Registry, zones: seq<Zone>)
    requires Consistent(w) && Known(w, zones)
    ensures var s := w.(prov := w.prov.(frozen := true)); Consistent(s) && Known(s, zones)
  {
    var s := w.(prov := w.prov.(frozen := true));
    forall i | 0 <= i < |zones|
      ensures KnownZone(s, zones[i])
    {
      assert ProvIdOf(s, zones[i]) == ProvIdOf(w, zones[i]);
    }
  }

  /**
   * The running service: after warm-up and freezing, every request leaves
   * both encoders as they were and answers with `Expected`.
   */
  lemma ServedStable(zones: seq<Zone>, reqProv: string, reqCant: string)
    ensures Consistent(Served(zones)) && Known(Served(zones), zones)
    ensures Handle(Served(zones), zones, reqProv, reqCant) ==
      (Served(zones), Expected(Served(zones), zones, reqProv, reqCant))
  {
    Encoders.EmptyBijective();
    WarmKnown(START, zones);
    FrozenKnown(Warm(START, zones), zones);
    HandleStable(Served(zones), zones, reqProv, reqCant);
  }

  /** Only the zones' names and coordinates matter: the table's own id columns never reach an answer. */
  lemma {:induction false} IgnoresTableIds(r: Registry, zones: seq<Zone>, other: seq<Zone>, reqProv: string, reqCant: string)
    requires |zones| == |other|
    requires forall i :: 0 <= i < |zones| ==>
      other[i] == zones[i].(idCanton := other[i].idCanton, idProvincia := other[i].idProvincia)
    ensures Handle(r, zones, reqProv, reqCant) == Handle(r, other, reqProv, reqCant)
  {
    if zones != [] {
      var n := |zones| - 1;
      assert other[n] == zones[n].(idCanton := other[n].idCanton, idProvincia := other[n].idProvincia);
      IgnoresTableIds(r, zones[..n], other[..n], reqProv, reqCant);
    }
  }

  /* ---------------- the service's methods ---------------- */

  function RegistryOf(encProv: Encoders.LabelEncoder, encCanton: Encoders.HierarchicalCantonEncoder): Registry
    reads encProv, encCanton
  {
    Registry(encProv.State(), encCanton.hierarchy)
  }

  /** One iteration of the warm-up loop. */
  method WarmZone(encProv: Encoders.LabelEncoder, encCanton: Encoders.HierarchicalCantonEncoder, z: Zone)
    modifies encProv, encCanton
    ensures RegistryOf(encProv, encCanton) == WarmStep(old(RegistryOf(encProv, encCanton)), z)
  {
    var _ := encProv.Encode(z.province);
    var idProv := encProv.Encode(z.province);
    var _ := encCanton.Encode(idProv, z.canton);
  }

  /** The warm-up loop over the table. */
  method WarmAll(encProv: Encoders.LabelEncoder, encCanton: Encoders.HierarchicalCantonEncoder, zones: seq<Zone>)
    modifies encProv, encCanton
    ensures RegistryOf(encProv, encCanton) == Warm(old(RegistryOf(encProv, encCanton)), zones)
  {
    ghost var start := RegistryOf(encProv, encCanton);
    var i := 0;
    while i < |zones|
      invariant 0 <= i <= |zones|
      invariant RegistryOf(encProv, encCanton) == Warm(start, zones[..i])
    {
      WarmZone(encProv, encCanton, zones[i]);
      assert zones[..i + 1][..i] == zones[..i];
      i := i + 1;
    }
    assert zones[..i] == zones;
  }

  /** The warm-up in `main`: fresh encoders fed with every zone, then the province encoder frozen. */
  method WarmUp(zones: seq<Zone>) returns (encProv: Encoders.LabelEncoder, encCanton: Encoders.HierarchicalCantonEncoder)
    ensures fresh(encProv) && fresh(encCanton)
    ensures RegistryOf(encProv, encCanton) == Served(zones)
  {
    encProv := new Encoders.LabelEncoder();
    encCanton := new Encoders.HierarchicalCantonEncoder();
    WarmAll(encProv, encCanton, zones);
    encProv.Freeze();
  }

  /** The two `encode` calls of the handler for one zone. */
  method EncodeZone(encProv: Encoders.LabelEncoder, encCanton: Encoders.HierarchicalCantonEncoder, zone: Zone)
    returns (idProvincia: int, idCanton: int)
    modifies encProv, encCanton
    ensures (RegistryOf(encProv, encCanton), idProvincia, idCanton) == EncodeIds(old(RegistryOf(encProv, encCanton)), zone)
  {
    idProvincia := encProv.Encode(zone.province);
    idCanton := encCanton.Encode(idProvincia, zone.canton);
  }

  /** One iteration of the handler loop: the answer for `zone`, if any, and its query vector. */
  method RiesgoZone(encProv: Encoders.LabelEncoder, encCanton: Encoders.HierarchicalCantonEncoder, zone: Zone,
                    reqProv: string, reqCant: string, targetProv: string, targetCant: string)
    returns (b: seq<Answer>, pts: seq<seq<real>>)
    requires targetProv == ToUpper(reqProv) && targetCant == ToUpper(reqCant)
    modifies encProv, encCanton
    ensures (RegistryOf(encProv, encCanton), b) == HandleZone(old(RegistryOf(encProv, encCanton)), zone, reqProv, reqCant)
    ensures pts == Points(b)
  {
    b, pts := [], [];
    var matchProv := reqProv == "" || ToUpper(zone.province) == targetProv;
    var matchCant := reqCant == "" || ToUpper(zone.canton) == targetCant;
    if matchProv && matchCant {
      var idProvincia, idCanton := EncodeZone(encProv, encCanton, zone);
      if idProvincia >= 0 && idCanton >= 0 {
        var queryPoint := BuildQuery(idProvincia, idCanton);
        b := Emit(zone, idProvincia, idCanton);
        pts := [queryPoint[..]];
        PointsEmit(zone, idProvincia, idCanton);
      }
    }
  }

  /**
   * The `/riesgo` handler: filter the table, encode each matching zone,
   * skip negative ids, build its query vector. `points[k]` is the vector
   * classified for `answers[k]`.
   */
  method Riesgo(zones: seq<Zone>, encProv: Encoders.LabelEncoder, encCanton: Encoders.HierarchicalCantonEncoder,
                reqProv: string, reqCant: string) returns (answers: seq<Answer>, points: seq<seq<real>>)
    modifies encProv, encCanton
    ensures (RegistryOf(encProv, encCanton), answers) ==
      Handle(old(RegistryOf(encProv, encCanton)), zones, reqProv, reqCant)
    ensures points == Points(answers)
  {
    ghost var start := RegistryOf(encProv, encCanton);
    var targetProv := ToUpper(reqProv);
    var targetCant := ToUpper(reqCant);
    answers := [];
    points := [];
    var i := 0;
    while i < |zones|
      invariant 0 <= i <= |zones|
      invariant (RegistryOf(encProv, encCanton), answers) == Handle(start, zones[..i], reqProv, reqCant)
      invariant points == Points(answers)
    {
      var b, pts := RiesgoZone(encProv, encCanton, zones[i], reqProv, reqCant, targetProv, targetCant);
      assert zones[..i + 1][..i] == zones[..i];
      PointsAppend(answers, b);
      answers := answers + b;
      points := points + pts;
      i := i + 1;
    }
    assert zones[..i] == zones;
  }
}
