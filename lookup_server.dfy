/**
 * The lookup caches of Server/server_lookup.cpp: `load_inec` and
 * `load_embeddings_lookup` fill three global maps from CSV lines, and the
 * `/predict` handler looks a zone up in them and fuses its embedding with
 * its INEC features. Files are given as their lines (`None` when the file
 * cannot be opened); `std::stof` is the parameter `decimal`, which may fail.
 */
module LookupServer {
  import opened Wrappers
  import Strings
  import Numbers
  import Tokenizer

  /** `EMB_DIM`: the width of an embedding. */
  const EMB_DIM: nat := 32
  /** A zone, a date and the embedding: the fields an embeddings row needs. */
  const EMB_MIN_FIELDS: nat := 2 + EMB_DIM
  /** A zone, a name and at least one feature: the fields an INEC row needs. */
  const INEC_MIN_FIELDS: nat := 3
  /** The INEC width used for a zone without INEC data when the INEC cache is empty. */
  const DEFAULT_INEC_WIDTH: nat := 5

  function Row(line: string): seq<string>
  {
    Tokenizer.Fields(line, ',')
  }

  /** The lines after the header line, which both loaders skip. */
  function Body(lines: seq<string>): seq<string>
  {
    if lines == [] then [] else lines[1..]
  }

  /** `std::stof` inside its `try`: the converted value, or 0 when the conversion throws. */
  function Stof(cell: string, decimal: string -> Option<real>): real
  {
    match decimal(cell)
    case None => 0.0
    case Some(v) => v
  }

  /** The cells `[lo, hi)` of `row`, each converted with the 0 fallback. */
  function Cells(row: seq<string>, lo: nat, hi: nat, decimal: string -> Option<real>): (r: seq<real>)
    requires lo <= hi <= |row|
    ensures |r| == hi - lo
    ensures forall i :: 0 <= i < hi - lo ==> r[i] == Stof(row[lo + i], decimal)
    decreases hi - lo
  {
    if hi == lo then [] else Cells(row, lo, hi - 1, decimal) + [Stof(row[hi - 1], decimal)]
  }

  /** The conversion loops of both loaders: one `push_back` per cell. */
  method ParseCells(row: seq<string>, lo: nat, hi: nat, decimal: string -> Option<real>) returns (feats: seq<real>)
    requires lo <= hi <= |row|
    ensures feats == Cells(row, lo, hi, decimal)
  {
    feats := [];
    var i := lo;
    while i < hi
      invariant lo <= i <= hi
      invariant feats == Cells(row, lo, i, decimal)
    {
      feats := feats + [Stof(row[i], decimal)];
      i := i + 1;
    }
  }

  /* ---------------- load_inec ---------------- */

  /** A row `load_inec` stores under zone `z`. */
  predicate InecKeyed(row: seq<string>, z: string)
  {
    |row| >= INEC_MIN_FIELDS && row[0] == z
  }

  /** One line of `load_inec`: a row with three fields or more stores its features from field 2 on under `row[0]`. */
  function InecLine(cache: map<string, seq<real>>, line: string, decimal: string -> Option<real>): map<string, seq<real>>
  {
    var row := Row(line);
    if |row| < INEC_MIN_FIELDS then cache else cache[row[0] := Cells(row, 2, |row|, decimal)]
  }

  /** The INEC cache after the lines `lines` (header already skipped). */
  function InecLoad(cache: map<string, seq<real>>, lines: seq<string>, decimal: string -> Option<real>)
    : map<string, seq<real>>
  {
    if lines == [] then cache
    else InecLine(InecLoad(cache, lines[..|lines| - 1], decimal), lines[|lines| - 1], decimal)
  }

  /** Line `j` is the last line stored under `z`. */
  predicate LastInec(lines: seq<string>, j: int, z: string)
  {
    0 <= j < |lines| && InecKeyed(Row(lines[j]), z) && forall k :: j < k < |lines| ==> !InecKeyed(Row(lines[k]), z)
  }

  /** After `load_inec` a zone has an entry exactly when it had one or some line is stored under it. */
  lemma {:induction false} InecLoadKeys(cache: map<string, seq<real>>, lines: seq<string>, z: string,
                                        decimal: string -> Option<real>)
    ensures z in InecLoad(cache, lines, decimal) <==>
      z in cache || exists j :: 0 <= j < |lines| && InecKeyed(Row(lines[j]), z)
  {
    if lines != [] {
      var init := lines[..|lines| - 1];
      InecLoadKeys(cache, init, z, decimal);
      if exists j :: 0 <= j < |init| && InecKeyed(Row(init[j]), z) {
        var j :| 0 <= j < |init| && InecKeyed(Row(init[j]), z);
        assert init[j] == lines[j];
      }
      if exists j :: 0 <= j < |lines| && InecKeyed(Row(lines[j]), z) {
        var j :| 0 <= j < |lines| && InecKeyed(Row(lines[j]), z);
        if j < |init| {
          assert init[j] == lines[j];
        }
      }
    }
  }

  /** The later row wins: the entry of a zone holds the fields from index 2 on of the last line stored under it. */
  lemma {:induction false} InecLoadLast(cache: map<string, seq<real>>, lines: seq<string>, z: string, j: int,
                                        decimal: string -> Option<real>)
    requires LastInec(lines, j, z)
    ensures z in InecLoad(cache, lines, decimal)
    ensures InecLoad(cache, lines, decimal)[z] == Cells(Row(lines[j]), 2, |Row(lines[j])|, decimal)
  {
    var init := lines[..|lines| - 1];
    if j < |init| {
      assert init[j] == lines[j];
      forall k | j < k < |init|
        ensures !InecKeyed(Row(init[k]), z)
      {
        assert init[k] == lines[k];
      }
      InecLoadLast(cache, init, z, j, decimal);
    }
  }

  /** A zone no line names keeps its entry. */
  lemma {:induction false} InecLoadUntouched(cache: map<string, seq<real>>, lines: seq<string>, z: string,
                                             decimal: string -> Option<real>)
    requires z in cache
    requires forall j :: 0 <= j < |lines| ==> !InecKeyed(Row(lines[j]), z)
    ensures z in InecLoad(cache, lines, decimal) && InecLoad(cache, lines, decimal)[z] == cache[z]
  {
    if lines != [] {
      var init := lines[..|lines| - 1];
      forall j | 0 <= j < |init|
        ensures !InecKeyed(Row(init[j]), z)
      {
        assert init[j] == lines[j];
      }
      InecLoadUntouched(cache, init, z, decimal);
    }
  }

  /* ---------------- load_embeddings_lookup ---------------- */

  /** The embedding cache together with the latest-date cache. */
  datatype Embeddings = Embeddings(emb: map<string, seq<real>>, latest: map<string, int>)

  /** Both maps have the same zones and every stored embedding has `EMB_DIM` entries. */
  predicate CacheValid(st: Embeddings)
  {
    st.emb.Keys == st.latest.Keys && forall z :: z in st.emb ==> |st.emb[z]| == EMB_DIM
  }

  /** The date column: `std::stol` of field 1, 0 when it throws. */
  function DateOf(row: seq<string>): int
    requires |row| >= 2
  {
    match Numbers.Stol(row[1])
    case None => 0
    case Some(d) => d
  }

  /** A row with an embedding, for zone `z`. */
  predicate EmbKeyed(row: seq<string>, z: string)
  {
    |row| >= EMB_MIN_FIELDS && row[0] == z
  }

  /** A long enough row replaces its zone's entry when the zone is new or its date is not older. */
  predicate Updates(st: Embeddings, row: seq<string>)
  {
    |row| >= EMB_MIN_FIELDS && (row[0] !in st.latest || DateOf(row) >= st.latest[row[0]])
  }

  /** One line of `load_embeddings_lookup`. */
  function EmbLine(st: Embeddings, line: string, decimal: string -> Option<real>): (r: Embeddings)
  {
    var row := Row(line);
    if Updates(st, row) then
      Embeddings(st.emb[row[0] := Cells(row, 2, EMB_MIN_FIELDS, decimal)], st.latest[row[0] := DateOf(row)])
    else st
  }

  /** The caches after the lines `lines` (header already skipped). */
  function EmbLoad(st: Embeddings, lines: seq<string>, decimal: string -> Option<real>): Embeddings
  {
    if lines == [] then st
    else EmbLine(EmbLoad(st, lines[..|lines| - 1], decimal), lines[|lines| - 1], decimal)
  }

  /** Loading keeps the two maps' zones equal and every embedding `EMB_DIM` wide. */
  lemma {:induction false} EmbLoadValid(st: Embeddings, lines: seq<string>, decimal: string -> Option<real>)
    requires CacheValid(st)
    ensures CacheValid(EmbLoad(st, lines, decimal))
  {
    if lines != [] {
      EmbLoadValid(st, lines[..|lines| - 1], decimal);
    }
  }

  /**
   * The stored date of a zone never decreases, and after loading it is at
   * least the date of every row for that zone: the maximum seen.
   */
  lemma {:induction false} EmbLoadMax(st: Embeddings, lines: seq<string>, z: string, decimal: string -> Option<real>)
    ensures var r := EmbLoad(st, lines, decimal);
      (z in st.latest ==> z in r.latest && st.latest[z] <= r.latest[z]) &&
      forall j :: 0 <= j < |lines| && EmbKeyed(Row(lines[j]), z) ==> z in r.latest && DateOf(Row(lines[j])) <= r.latest[z]
  {
    if lines != [] {
      var init := lines[..|lines| - 1];
      EmbLoadMax(st, init, z, decimal);
      var u := EmbLoad(st, init, decimal);
      forall j | 0 <= j < |init|
        ensures init[j] == lines[j]
      {
      }
      StepMonotone(u, lines[|lines| - 1], z, decimal);
    }
  }

  lemma StepMonotone(u: Embeddings, line: string, z: string, decimal: string -> Option<real>)
    ensures var r := EmbLine(u, line, decimal);
      (z in u.latest ==> z in r.latest && u.latest[z] <= r.latest[z]) &&
      (EmbKeyed(Row(line), z) ==> z in r.latest && DateOf(Row(line)) <= r.latest[z])
  {
  }

  /** The stored date is one that was seen: the old date or the date of some row for that zone. */
  lemma {:induction false} EmbLoadAttained(st: Embeddings, lines: seq<string>, z: string,
                                           decimal: string -> Option<real>)
    ensures var r := EmbLoad(st, lines, decimal);
      z in r.latest ==>
        ((z in st.latest && r.latest[z] == st.latest[z]) ||
         exists j :: 0 <= j < |lines| && EmbKeyed(Row(lines[j]), z) && DateOf(Row(lines[j])) == r.latest[z])
  {
    if lines != [] {
      var init := lines[..|lines| - 1];
      EmbLoadAttained(st, init, z, decimal);
      var u := EmbLoad(st, init, decimal);
      var r := EmbLoad(st, lines, decimal);
      if z in r.latest && Updates(u, Row(lines[|lines| - 1])) && Row(lines[|lines| - 1])[0] == z {
        assert EmbKeyed(Row(lines[|lines| - 1]), z);
      } else if z in r.latest {
        assert r == u || Row(lines[|lines| - 1])[0] != z;
        if !(z in st.latest && r.latest[z] == st.latest[z]) {
          var j :| 0 <= j < |init| && EmbKeyed(Row(init[j]), z) && DateOf(Row(init[j])) == u.latest[z];
          assert init[j] == lines[j];
        }
      }
    }
  }

  /** Loading `a` then `b` is loading `a + b`. */
  lemma {:induction false} EmbLoadAppend(st: Embeddings, a: seq<string>, b: seq<string>, decimal: string -> Option<real>)
    ensures EmbLoad(st, a + b, decimal) == EmbLoad(EmbLoad(st, a, decimal), b, decimal)
  {
    if b != [] {
      EmbLoadAppend(st, a, b[..|b| - 1], decimal);
      assert (a + b)[..|a + b| - 1] == a + b[..|b| - 1];
    } else {
      assert a + b == a;
    }
  }

  /** Rows for `z` older than its stored date change nothing for `z`. */
  lemma {:induction false} EmbLoadOlder(st: Embeddings, lines: seq<string>, z: string, decimal: string -> Option<real>)
    requires z in st.latest && z in st.emb
    requires forall j :: 0 <= j < |lines| && EmbKeyed(Row(lines[j]), z) ==> DateOf(Row(lines[j])) < st.latest[z]
    ensures var r := EmbLoad(st, lines, decimal);
      z in r.latest && z in r.emb && r.latest[z] == st.latest[z] && r.emb[z] == st.emb[z]
  {
    if lines != [] {
      var init := lines[..|lines| - 1];
      forall j | 0 <= j < |init|
        ensures init[j] == lines[j]
      {
      }
      EmbLoadOlder(st, init, z, decimal);
    }
  }

  /** Line `j` is the last row for `z` carrying the date `date`. */
  predicate LastAtLatest(lines: seq<string>, j: nat, z: string, date: int)
  {
    j < |lines| && EmbKeyed(Row(lines[j]), z) && DateOf(Row(lines[j])) == date &&
    forall k :: j < k < |lines| && EmbKeyed(Row(lines[k]), z) ==> DateOf(Row(lines[k])) != date
  }

  /** Loading up to row `j`, then row `j`, then the rest, is loading all rows. */
  lemma EmbLoadSplit(st: Embeddings, lines: seq<string>, j: nat, decimal: string -> Option<real>)
    requires j < |lines|
    ensures EmbLoad(st, lines, decimal) ==
      EmbLoad(EmbLine(EmbLoad(st, lines[..j], decimal), lines[j], decimal), lines[j + 1..], decimal)
  {
    assert lines == lines[..j + 1] + lines[j + 1..];
    EmbLoadAppend(st, lines[..j + 1], lines[j + 1..], decimal);
    assert lines[..j + 1][..j] == lines[..j];
  }

  /** A row whose date ends up stored for its zone was taken when it was read. */
  lemma RowTaken(before: Embeddings, line: string, rest: seq<string>, z: string, decimal: string -> Option<real>)
    requires EmbKeyed(Row(line), z)
    requires var r := EmbLoad(EmbLine(before, line, decimal), rest, decimal);
      z in r.latest && r.latest[z] == DateOf(Row(line))
    ensures Updates(before, Row(line))
  {
    var u := EmbLine(before, line, decimal);
    EmbLoadMax(u, rest, z, decimal);
  }

  /**
   * Latest date wins and ties go to the later row: the embedding stored for
   * a zone is the one of the last row for that zone whose date is the
   * stored (maximum) date.
   */
  lemma EmbLoadTieLater(st: Embeddings, lines: seq<string>, z: string, j: nat, decimal: string -> Option<real>)
    requires z in EmbLoad(st, lines, decimal).latest
    requires LastAtLatest(lines, j, z, EmbLoad(st, lines, decimal).latest[z])
    ensures z in EmbLoad(st, lines, decimal).emb
    ensures EmbLoad(st, lines, decimal).emb[z] == Cells(Row(lines[j]), 2, EMB_MIN_FIELDS, decimal)
  {
    var date := EmbLoad(st, lines, decimal).latest[z];
    EmbLoadSplit(st, lines, j, decimal);
    var before := EmbLoad(st, lines[..j], decimal);
    var b := lines[j + 1..];
    RowTaken(before, lines[j], b, z, decimal);
    var u := EmbLine(before, lines[j], decimal);
    assert u.latest[z] == date && u.emb[z] == Cells(Row(lines[j]), 2, EMB_MIN_FIELDS, decimal);
    EmbLoadMax(u, b, z, decimal);
    forall k | 0 <= k < |b| && EmbKeyed(Row(b[k]), z)
      ensures DateOf(Row(b[k])) < u.latest[z]
    {
      assert b[k] == lines[j + 1 + k];
    }
    EmbLoadOlder(u, b, z, decimal);
  }

  /* ---------------- /predict ---------------- */

  /** The `/predict` answer: 400 without a zone, 404 for a zone without an embedding, otherwise the features. */
  datatype Response = BadRequest | NotFound | Found(features: seq<real>, date: int)

  function Status(r: Response): int
  {
    match r
    case BadRequest => 400
    case NotFound => 404
    case Found(_, _) => 200
  }

  /**
   * The INEC part of the features: the zone's own INEC features, or zeros
   * as many as the first (least-keyed) INEC entry has, or 5 zeros when the
   * INEC cache is empty.
   */
  function InecPart(inec: map<string, seq<real>>, zone: string): (r: seq<real>)
    ensures zone in inec ==> r == inec[zone]
    ensures zone !in inec ==> forall i :: 0 <= i < |r| ==> r[i] == 0.0
    ensures zone !in inec && inec != map[] ==> |r| == |inec[Strings.LeastKey(inec.Keys)]|
    ensures zone !in inec && inec == map[] ==> |r| == DEFAULT_INEC_WIDTH
  {
    if zone in inec then inec[zone]
    else if inec != map[] then Zeros(|inec[Strings.LeastKey(inec.Keys)]|)
    else Zeros(DEFAULT_INEC_WIDTH)
  }

  function Zeros(n: nat): (r: seq<real>)
    ensures |r| == n && forall i :: 0 <= i < n ==> r[i] == 0.0
  {
    seq(n, _ => 0.0)
  }

  /**
   * When every INEC entry has the same width `w`, every zone this server
   * answers for gets `EMB_DIM + w` features, whether it has INEC data or not.
   */
  lemma FusedWidth(inec: map<string, seq<real>>, st: Embeddings, zone: string, w: nat)
    requires CacheValid(st) && zone in st.emb
    requires inec != map[] && forall z :: z in inec ==> |inec[z]| == w
    ensures |st.emb[zone] + InecPart(inec, zone)| == EMB_DIM + w
  {
    if zone !in inec {
      var k := Strings.LeastKey(inec.Keys);
    }
  }

  /** The three global maps, with the loaders that fill them and the `/predict` lookup. */
  class LookupCaches {
    var inecCache: map<string, seq<real>>
    var embeddingCache: map<string, seq<real>>
    var latestDateCache: map<string, int>

    function Embeds(): Embeddings
      reads this
    {
      Embeddings(embeddingCache, latestDateCache)
    }

    predicate Valid()
      reads this
    {
      CacheValid(Embeds())
    }

    constructor ()
      ensures inecCache == map[] && Embeds() == Embeddings(map[], map[]) && Valid()
    {
      inecCache := map[];
      embeddingCache := map[];
      latestDateCache := map[];
    }

    /** `load_inec`: nothing changes when the file cannot be opened; otherwise every line after the header is read. */
    method LoadInec(file: Option<seq<string>>, decimal: string -> Option<real>)
      modifies this`inecCache
      ensures file.None? ==> inecCache == old(inecCache)
      ensures file.Some? ==> inecCache == InecLoad(old(inecCache), Body(file.value), decimal)
    {
      if file.None? {
        return;
      }
      var lines := Body(file.value);
      ghost var start := inecCache;
      var i := 0;
      while i < |lines|
        invariant 0 <= i <= |lines|
        invariant inecCache == InecLoad(start, lines[..i], decimal)
      {
        var row := Tokenizer.GetlineFields(lines[i], ',');
        if |row| >= INEC_MIN_FIELDS {
          var feats := ParseCells(row, 2, |row|, decimal);
          inecCache := inecCache[row[0] := feats];
        }
        assert lines[..i + 1][..i] == lines[..i];
        i := i + 1;
      }
      assert lines[..i] == lines;
    }

    /** `load_embeddings_lookup`: nothing changes when the file cannot be opened; the caches stay consistent. */
    method LoadEmbeddings(file: Option<seq<string>>, decimal: string -> Option<real>)
      requires Valid()
      modifies this`embeddingCache, this`latestDateCache
      ensures Valid()
      ensures file.None? ==> Embeds() == old(Embeds())
      ensures file.Some? ==> Embeds() == EmbLoad(old(Embeds()), Body(file.value), decimal)
    {
      if file.None? {
        return;
      }
      var lines := Body(file.value);
      ghost var start := Embeds();
      var i := 0;
      while i < |lines|
        invariant 0 <= i <= |lines|
        invariant Embeds() == EmbLoad(start, lines[..i], decimal)
      {
        var row := Tokenizer.GetlineFields(lines[i], ',');
        if |row| >= EMB_MIN_FIELDS {
          var zona := row[0];
          var fecha := 0;
          var parsed := Numbers.Stol(row[1]);
          if parsed.Some? {
            fecha := parsed.value;
          }
          if zona !in latestDateCache || fecha >= latestDateCache[zona] {
            var embs := ParseCells(row, 2, EMB_MIN_FIELDS, decimal);
            embeddingCache := embeddingCache[zona := embs];
            latestDateCache := latestDateCache[zona := fecha];
          }
        }
        assert lines[..i + 1][..i] == lines[..i];
        i := i + 1;
      }
      assert lines[..i] == lines;
      EmbLoadValid(start, lines, decimal);
    }

    /** The `/predict` handler after its readiness check, minus the classifier call. */
    method Predict(zone: string) returns (r: Response)
      requires embeddingCache.Keys == latestDateCache.Keys
      ensures zone == "" ==> r == BadRequest
      ensures zone != "" && zone !in embeddingCache ==> r == NotFound
      ensures zone != "" && zone in embeddingCache ==>
        r == Found(embeddingCache[zone] + InecPart(inecCache, zone), latestDateCache[zone])
    {
      if zone == "" {
        return BadRequest;
      }
      if zone !in embeddingCache {
        return NotFound;
      }
      var lstmFeats := embeddingCache[zone];
      var fechaDato := latestDateCache[zone];
      var inecFeats: seq<real> := [];
      if zone in inecCache {
        inecFeats := inecCache[zone];
      } else if inecCache != map[] {
        inecFeats := Zeros(|inecCache[Strings.LeastKey(inecCache.Keys)]|);
      } else {
        inecFeats := Zeros(DEFAULT_INEC_WIDTH);
      }
      r := Found(lstmFeats + inecFeats, fechaDato);
    }
  }
}
