/**
 * The training-data pipeline of main.cpp: the header scan, Pass 1 (count
 * the rows and fill the vocabularies), Pass 2 (fill the pre-sized feature
 * matrix, the label row and the per-canton label histories) and the
 * windowing of the histories into (current, next) pairs. The file is given
 * as the sequence of its lines.
 */
module Pipeline {
  import opened Wrappers
  import Strings
  import Tokenizer
  import Encoders
  import Helpers
  import Windowing

  /** Fields a row needs before either pass looks at it. */
  const MIN_FIELDS: nat := 5
  /** Width of the one-hot province block. */
  const PROVINCES: nat := 24
  /** Date, the province block, canton and subtype: the columns before the statistics. */
  const FIXED_FEATURES: nat := 27

  /** The comma-separated fields of one line, as the `getline(lineStream, cell, ',')` loop collects them. */
  function Row(line: string): seq<string>
  {
    Tokenizer.Fields(line, ',')
  }

  predicate Long(line: string)
  {
    |Row(line)| >= MIN_FIELDS
  }

  /** The header is the first line, or empty when the file has none. */
  function Header(lines: seq<string>): string
  {
    if lines == [] then "" else lines[0]
  }

  /** The lines after the header. */
  function Body(lines: seq<string>): seq<string>
  {
    if lines == [] then [] else lines[1..]
  }

  /** `numStatsCols`: the header's fields beyond the first five. */
  function NumStatsCols(lines: seq<string>): (n: nat)
    ensures |Row(Header(lines))| >= MIN_FIELDS ==> n == |Row(Header(lines))| - MIN_FIELDS
    ensures |Row(Header(lines))| <= MIN_FIELDS ==> n == 0
  {
    var cols := |Row(Header(lines))|;
    if cols > MIN_FIELDS then cols - MIN_FIELDS else 0
  }

  /** `n_feats`: the fixed columns plus one per statistics column. */
  function NumFeatures(lines: seq<string>): (n: nat)
    ensures n >= FIXED_FEATURES && n - FIXED_FEATURES == NumStatsCols(lines)
  {
    1 + PROVINCES + 1 + 1 + NumStatsCols(lines)
  }

  /** The four encoders' values, as one record. */
  datatype EncoderStates = EncoderStates(
    prov: Encoders.Vocabulary,
    canton: map<int, map<string, int>>,
    serv: Encoders.Vocabulary,
    sub: Encoders.Vocabulary)

  const FRESH: EncoderStates := EncoderStates(Encoders.EMPTY, map[], Encoders.EMPTY, Encoders.EMPTY)

  /** The number of rows with at least five fields: `totalRows` after Pass 1. */
  function CountLong(rows: seq<seq<string>>): (n: nat)
    ensures n <= |rows|
  {
    if rows == [] then 0
    else CountLong(rows[..|rows| - 1]) + (if |rows[|rows| - 1]| >= MIN_FIELDS then 1 else 0)
  }

  /**
   * One Pass 1 row: the province is encoded (twice, as the source does),
   * its id keys the canton, then service and subtype are encoded.
   */
  function Pass1Row(e: EncoderStates, row: seq<string>): EncoderStates
    requires |row| >= MIN_FIELDS
  {
    var p1 := Encoders.VocabEncode(e.prov, row[0]).0;
    var (p2, provId) := Encoders.VocabEncode(p1, row[0]);
    var c := Encoders.CantonEncode(e.canton, provId, row[1]).0;
    var s := Encoders.VocabEncode(e.serv, row[2]).0;
    var b := Encoders.VocabEncode(e.sub, row[3]).0;
    EncoderStates(p2, c, s, b)
  }

  /** The encoders after the Pass 1 loop has read `rows`; short rows are skipped. */
  function Pass1Loop(e: EncoderStates, rows: seq<seq<string>>): EncoderStates
  {
    if rows == [] then e
    else
      var u := Pass1Loop(e, rows[..|rows| - 1]);
      var row := rows[|rows| - 1];
      if |row| < MIN_FIELDS then u else Pass1Row(u, row)
  }

  /** The fields of every line. */
  function Rows(lines: seq<string>): (rows: seq<seq<string>>)
    ensures |rows| == |lines| && forall j :: 0 <= j < |lines| ==> rows[j] == Row(lines[j])
  {
    seq(|lines|, j requires 0 <= j < |lines| => Row(lines[j]))
  }

  /** The encoders after Pass 1: the loop from fresh encoders, then province and subtype frozen. */
  function Pass1Result(body: seq<string>): EncoderStates
  {
    var e := Pass1Loop(FRESH, Rows(body));
    e.(prov := e.prov.(frozen := true), sub := e.sub.(frozen := true))
  }

  predicate SubMap<K, V(==)>(a: map<K, V>, b: map<K, V>)
  {
    forall k :: k in a ==> k in b && b[k] == a[k]
  }

  /** `e2` extends `e1`: no name loses or changes its id in any encoder. */
  predicate Grows(e1: EncoderStates, e2: EncoderStates)
  {
    SubMap(e1.prov.forward, e2.prov.forward) &&
    SubMap(e1.serv.forward, e2.serv.forward) &&
    forall p :: p in e1.canton ==> p in e2.canton && SubMap(e1.canton[p], e2.canton[p])
  }

  /** The province id the encoders give a row's province: -1 for a blank one. */
  function ProvIdNow(e: EncoderStates, row: seq<string>): int
    requires |row| >= MIN_FIELDS
  {
    var t := Strings.Trim(row[0]);
    if t == [] || t !in e.prov.forward then -1 else e.prov.forward[t]
  }

  /** The encoders already know a row's province, service and (under its province id) canton. */
  predicate Known(e: EncoderStates, row: seq<string>)
    requires |row| >= MIN_FIELDS
  {
    (Strings.Blank(row[0]) || Strings.Trim(row[0]) in e.prov.forward) &&
    (Strings.Blank(row[2]) || Strings.Trim(row[2]) in e.serv.forward) &&
    (Strings.Blank(row[1]) || Strings.Trim(row[1]) in Encoders.Children(e.canton, ProvIdNow(e, row)))
  }

  lemma KnownGrows(e1: EncoderStates, e2: EncoderStates, row: seq<string>)
    requires |row| >= MIN_FIELDS && Known(e1, row) && Grows(e1, e2)
    ensures Known(e2, row)
  {
    assert ProvIdNow(e2, row) == ProvIdNow(e1, row);
  }

  lemma GrowsTransitive(e1: EncoderStates, e2: EncoderStates, e3: EncoderStates)
    requires Grows(e1, e2) && Grows(e2, e3)
    ensures Grows(e1, e3)
  {
  }

  /** One Pass 1 row on unfrozen province and service encoders: everything grows and the row becomes known. */
  lemma Pass1RowKnown(e: EncoderStates, row: seq<string>)
    requires |row| >= MIN_FIELDS && !e.prov.frozen && !e.serv.frozen
    ensures var e' := Pass1Row(e, row);
      Grows(e, e') && Known(e', row) && !e'.prov.frozen && !e'.serv.frozen
  {
    Pass1RowGrows(e, row);
    Pass1RowKnows(e, row);
  }

  lemma Pass1RowGrows(e: EncoderStates, row: seq<string>)
    requires |row| >= MIN_FIELDS
    ensures Grows(e, Pass1Row(e, row))
    ensures Pass1Row(e, row).prov.frozen == e.prov.frozen && Pass1Row(e, row).serv.frozen == e.serv.frozen
  {
    var p1 := Encoders.VocabEncode(e.prov, row[0]).0;
    var (p2, provId) := Encoders.VocabEncode(p1, row[0]);
    VocabGrows(e.prov, p1, row[0]);
    VocabGrows(p1, p2, row[0]);
    VocabGrows(e.serv, Encoders.VocabEncode(e.serv, row[2]).0, row[2]);
    CantonGrows(e.canton, Encoders.CantonEncode(e.canton, provId, row[1]).0, provId, row[1]);
  }

  lemma VocabGrows(v: Encoders.Vocabulary, w: Encoders.Vocabulary, s: string)
    requires w == Encoders.VocabEncode(v, s).0
    ensures SubMap(v.forward, w.forward) && w.frozen == v.frozen
  {
  }

  lemma CantonGrows(h: map<int, map<string, int>>, g: map<int, map<string, int>>, p: int, name: string)
    requires g == Encoders.CantonEncode(h, p, name).0
    ensures forall q :: q in h ==> q in g && SubMap(h[q], g[q])
  {
  }

  lemma Pass1RowKnows(e: EncoderStates, row: seq<string>)
    requires |row| >= MIN_FIELDS && !e.prov.frozen && !e.serv.frozen
    ensures Known(Pass1Row(e, row), row)
  {
    var e' := Pass1Row(e, row);
    var p1 := Encoders.VocabEncode(e.prov, row[0]).0;
    var provId := Encoders.VocabEncode(p1, row[0]).1;
    assert p1 == e'.prov;
    assert ProvIdNow(e', row) == provId;
  }

  /** After the Pass 1 loop every long row read so far is known, and the encoders only grew. */
  lemma {:induction false} Pass1LoopKnown(e: EncoderStates, rows: seq<seq<string>>)
    requires !e.prov.frozen && !e.serv.frozen
    ensures var r := Pass1Loop(e, rows);
      Grows(e, r) && !r.prov.frozen && !r.serv.frozen &&
      forall j :: 0 <= j < |rows| && |rows[j]| >= MIN_FIELDS ==> Known(r, rows[j])
  {
    if rows != [] {
      var init := rows[..|rows| - 1];
      var last := rows[|rows| - 1];
      var u := Pass1Loop(e, init);
      Pass1LoopKnown(e, init);
      assert rows == init + [last];
      if |last| >= MIN_FIELDS {
        assert Pass1Loop(e, rows) == Pass1Row(u, last);
        Pass1StepKnown(e, u, init, last);
      } else {
        assert Pass1Loop(e, rows) == u;
        KnownSnoc(u, init, last);
      }
    }
  }

  lemma Pass1StepKnown(e: EncoderStates, u: EncoderStates, init: seq<seq<string>>, last: seq<string>)
    requires |last| >= MIN_FIELDS
    requires Grows(e, u) && !u.prov.frozen && !u.serv.frozen
    requires forall j :: 0 <= j < |init| && |init[j]| >= MIN_FIELDS ==> Known(u, init[j])
    ensures var r := Pass1Row(u, last); var rows := init + [last];
      Grows(e, r) && !r.prov.frozen && !r.serv.frozen &&
      forall j :: 0 <= j < |rows| && |rows[j]| >= MIN_FIELDS ==> Known(r, rows[j])
  {
    var r := Pass1Row(u, last);
    Pass1RowKnown(u, last);
    GrowsTransitive(e, u, r);
    forall j | 0 <= j < |init| && |init[j]| >= MIN_FIELDS
      ensures Known(r, init[j])
    {
      KnownGrows(u, r, init[j]);
    }
    KnownSnoc(r, init, last);
  }

  lemma KnownSnoc(r: EncoderStates, init: seq<seq<string>>, last: seq<string>)
    requires forall j :: 0 <= j < |init| && |init[j]| >= MIN_FIELDS ==> Known(r, init[j])
    requires |last| >= MIN_FIELDS ==> Known(r, last)
    ensures var rows := init + [last];
      forall j :: 0 <= j < |rows| && |rows[j]| >= MIN_FIELDS ==> Known(r, rows[j])
  {
    var rows := init + [last];
    forall j | 0 <= j < |rows| && |rows[j]| >= MIN_FIELDS
      ensures Known(r, rows[j])
    {
      if j < |init| {
        assert rows[j] == init[j];
      }
    }
  }

  /** Pass 2 on this row changes none of the four encoders. */
  predicate Stable(e: EncoderStates, row: seq<string>)
    requires |row| >= MIN_FIELDS
  {
    var provId := Encoders.VocabEncode(e.prov, row[0]).1;
    Encoders.VocabEncode(e.serv, row[2]).0 == e.serv &&
    Encoders.VocabEncode(e.prov, row[0]).0 == e.prov &&
    Encoders.CantonEncode(e.canton, provId, row[1]).0 == e.canton &&
    Encoders.VocabEncode(e.sub, row[3]).0 == e.sub
  }

  /**
   * After Pass 1 the province and subtype encoders are frozen, the service
   * encoder is not, and re-encoding any long row of the same lines, as Pass
   * 2 does, changes no encoder.
   */
  lemma Pass1Warm(body: seq<string>)
    ensures var e := Pass1Result(body);
      e.prov.frozen && e.sub.frozen && !e.serv.frozen &&
      forall j :: 0 <= j < |body| && Long(body[j]) ==> Stable(e, Row(body[j]))
  {
    var l := Pass1Loop(FRESH, Rows(body));
    var e := Pass1Result(body);
    Pass1LoopKnown(FRESH, Rows(body));
    forall j | 0 <= j < |body| && Long(body[j])
      ensures Stable(e, Row(body[j]))
    {
      var row := Rows(body)[j];
      assert Known(l, row);
      assert Encoders.VocabEncode(e.prov, row[0]).1 == ProvIdNow(l, row);
    }
  }

  lemma CountLongSnoc(rows: seq<seq<string>>, row: seq<string>)
    ensures CountLong(rows + [row]) == CountLong(rows) + (if |row| >= MIN_FIELDS then 1 else 0)
  {
    assert (rows + [row])[..|rows|] == rows;
  }

  lemma RowsSnoc(lines: seq<string>, i: nat)
    requires i < |lines|
    ensures Rows(lines[..i + 1]) == Rows(lines[..i]) + [Row(lines[i])]
  {
  }

  lemma Pass1LoopSnoc(e: EncoderStates, rows: seq<seq<string>>, row: seq<string>)
    ensures Pass1Loop(e, rows + [row]) ==
      if |row| < MIN_FIELDS then Pass1Loop(e, rows) else Pass1Row(Pass1Loop(e, rows), row)
  {
    assert (rows + [row])[..|rows|] == rows;
  }

  /** The body of the Pass 1 loop for a row with at least five fields. */
  method Pass1Encode(encProv: Encoders.LabelEncoder, encCanton: Encoders.HierarchicalCantonEncoder,
                     encServ: Encoders.LabelEncoder, encSubtipo: Encoders.LabelEncoder, row: seq<string>)
    requires |row| >= MIN_FIELDS
    requires encProv != encServ && encProv != encSubtipo && encServ != encSubtipo
    modifies encProv, encCanton, encServ, encSubtipo
    ensures EncoderStates(encProv.State(), encCanton.hierarchy, encServ.State(), encSubtipo.State()) ==
      Pass1Row(old(EncoderStates(encProv.State(), encCanton.hierarchy, encServ.State(), encSubtipo.State())), row)
  {
    var _ := encProv.Encode(row[0]);
    var provId := encProv.Encode(row[0]);
    var _ := encCanton.Encode(provId, row[1]);
    var _ := encServ.Encode(row[2]);
    var _ := encSubtipo.Encode(row[3]);
  }

  /** Pass 1 over the lines after the header, with fresh encoders. */
  method Pass1(body: seq<string>)
    returns (encProv: Encoders.LabelEncoder, encCanton: Encoders.HierarchicalCantonEncoder,
             encServ: Encoders.LabelEncoder, encSubtipo: Encoders.LabelEncoder, totalRows: nat)
    ensures fresh(encProv) && fresh(encCanton) && fresh(encServ) && fresh(encSubtipo)
    ensures encProv != encServ && encProv != encSubtipo && encServ != encSubtipo
    ensures EncoderStates(encProv.State(), encCanton.hierarchy, encServ.State(), encSubtipo.State()) == Pass1Result(body)
    ensures totalRows == CountLong(Rows(body))
  {
    encProv := new Encoders.LabelEncoder();
    encSubtipo := new Encoders.LabelEncoder();
    encServ := new Encoders.LabelEncoder();
    encCanton := new Encoders.HierarchicalCantonEncoder();
    totalRows := Pass1Scan(encProv, encCanton, encServ, encSubtipo, body);
    encProv.Freeze();
    encSubtipo.Freeze();
  }

  /** The Pass 1 loop: every line is split, and the long ones are fed to the encoders and counted. */
  method Pass1Scan(encProv: Encoders.LabelEncoder, encCanton: Encoders.HierarchicalCantonEncoder,
                   encServ: Encoders.LabelEncoder, encSubtipo: Encoders.LabelEncoder, body: seq<string>)
    returns (totalRows: nat)
    requires encProv != encServ && encProv != encSubtipo && encServ != encSubtipo
    modifies encProv, encCanton, encServ, encSubtipo
    ensures EncoderStates(encProv.State(), encCanton.hierarchy, encServ.State(), encSubtipo.State()) ==
      Pass1Loop(old(EncoderStates(encProv.State(), encCanton.hierarchy, encServ.State(), encSubtipo.State())), Rows(body))
    ensures totalRows == CountLong(Rows(body))
  {
    ghost var e := EncoderStates(encProv.State(), encCanton.hierarchy, encServ.State(), encSubtipo.State());
    totalRows := 0;
    var i := 0;
    while i < |body|
      invariant 0 <= i <= |body|
      invariant EncoderStates(encProv.State(), encCanton.hierarchy, encServ.State(), encSubtipo.State())
        == Pass1Loop(e, Rows(body[..i]))
      invariant totalRows == CountLong(Rows(body[..i]))
    {
      totalRows := Pass1Line(encProv, encCanton, encServ, encSubtipo, body, i, e, totalRows);
      i := i + 1;
    }
    assert body[..i] == body;
  }

  /** One iteration of the Pass 1 loop: line `i` is split, and fed to the encoders and counted when long. */
  method Pass1Line(encProv: Encoders.LabelEncoder, encCanton: Encoders.HierarchicalCantonEncoder,
                   encServ: Encoders.LabelEncoder, encSubtipo: Encoders.LabelEncoder, body: seq<string>, i: nat,
                   ghost e: EncoderStates, count: nat)
    returns (count': nat)
    requires i < |body|
    requires encProv != encServ && encProv != encSubtipo && encServ != encSubtipo
    requires EncoderStates(encProv.State(), encCanton.hierarchy, encServ.State(), encSubtipo.State())
      == Pass1Loop(e, Rows(body[..i]))
    requires count == CountLong(Rows(body[..i]))
    modifies encProv, encCanton, encServ, encSubtipo
    ensures EncoderStates(encProv.State(), encCanton.hierarchy, encServ.State(), encSubtipo.State())
      == Pass1Loop(e, Rows(body[..i + 1]))
    ensures count' == CountLong(Rows(body[..i + 1]))
  {
    var row := Tokenizer.GetlineFields(body[i], ',');
    count' := count;
    if |row| >= MIN_FIELDS {
      Pass1Encode(encProv, encCanton, encServ, encSubtipo, row);
      count' := count + 1;
    }
    RowsSnoc(body, i);
    CountLongSnoc(Rows(body[..i]), row);
    Pass1LoopSnoc(e, Rows(body[..i]), row);
  }

  /* ---------------- Pass 2 ---------------- */

  /** The ids Pass 2 reads off the encoders for a row. */
  function ProvIdOf(e: EncoderStates, row: seq<string>): int
    requires |row| >= MIN_FIELDS
  {
    Encoders.VocabEncode(e.prov, row[0]).1
  }

  function CantonIdOf(e: EncoderStates, row: seq<string>): int
    requires |row| >= MIN_FIELDS
  {
    Encoders.CantonEncode(e.canton, ProvIdOf(e, row), row[1]).1
  }

  function ServIdOf(e: EncoderStates, row: seq<string>): int
    requires |row| >= MIN_FIELDS
  {
    Encoders.VocabEncode(e.serv, row[2]).1
  }

  function SubIdOf(e: EncoderStates, row: seq<string>): int
    requires |row| >= MIN_FIELDS
  {
    Encoders.VocabEncode(e.sub, row[3]).1
  }

  /** Pass 2 keeps a row when it has five fields and its service does not encode to -1. */
  predicate Accepts(e: EncoderStates, row: seq<string>)
  {
    |row| >= MIN_FIELDS && ServIdOf(e, row) >= 0
  }

  /** The rows Pass 2 keeps, in file order. */
  function Accepted(e: EncoderStates, rows: seq<seq<string>>): (acc: seq<seq<string>>)
    ensures |acc| <= |rows|
    ensures forall k :: 0 <= k < |acc| ==> |acc[k]| >= MIN_FIELDS
  {
    if rows == [] then []
    else
      var init := Accepted(e, rows[..|rows| - 1]);
      var row := rows[|rows| - 1];
      if Accepts(e, row) then init + [row] else init
  }

  /** Every row kept is one Pass 2 accepts. */
  lemma {:induction false} AcceptedAccepts(e: EncoderStates, rows: seq<seq<string>>)
    ensures forall k :: 0 <= k < |Accepted(e, rows)| ==> Accepts(e, Accepted(e, rows)[k])
  {
    if rows != [] {
      AcceptedAccepts(e, rows[..|rows| - 1]);
    }
  }

  lemma AcceptedSnoc(e: EncoderStates, rows: seq<seq<string>>, row: seq<string>)
    ensures Accepted(e, rows + [row]) == Accepted(e, rows) + (if Accepts(e, row) then [row] else [])
  {
    assert (rows + [row])[..|rows|] == rows;
  }

  /** The rows kept among the first `i` are the first rows kept overall. */
  lemma {:induction false} AcceptedPrefix(e: EncoderStates, rows: seq<seq<string>>, i: nat)
    requires i <= |rows|
    ensures Accepted(e, rows[..i]) <= Accepted(e, rows)
  {
    if i < |rows| {
      var init := rows[..|rows| - 1];
      assert init[..i] == rows[..i];
      AcceptedPrefix(e, init, i);
      AcceptedInit(e, rows);
    } else {
      assert rows[..i] == rows;
    }
  }

  /** The rows kept before the last row are a prefix of those kept with it. */
  lemma AcceptedInit(e: EncoderStates, rows: seq<seq<string>>)
    requires rows != []
    ensures Accepted(e, rows[..|rows| - 1]) <= Accepted(e, rows)
  {
  }

  /**
   * Column `k` of the matrix holds row `row` the way Pass 2 lays it out:
   * the numeric field 4 in column 0 (the source's comment calls it the
   * date, but it goes through `parseNumeric`), a one at `1 + provId` among
   * columns 1..24 and zeros elsewhere in that block, the canton id at 25,
   * the subtype id at 26, and statistic `c` at `27 + c` where the row has
   * field `5 + c`. Other cells of the column are not described.
   */
  predicate ColumnHolds(m: array2<real>, k: int, row: seq<string>, e: EncoderStates, numStatsCols: nat,
                        decimal: string -> Option<real>)
    reads m
    requires |row| >= MIN_FIELDS
  {
    ColumnCells(m, k, row, ProvIdOf(e, row), CantonIdOf(e, row), SubIdOf(e, row), numStatsCols, decimal)
  }

  /** The cells of column `k` for a row whose ids are `provId`, `cantonId` and `subId`. */
  predicate ColumnCells(m: array2<real>, k: int, row: seq<string>, provId: int, cantonId: int, subId: int,
                        numStatsCols: nat, decimal: string -> Option<real>)
    reads m
    requires |row| >= MIN_FIELDS
  {
    FIXED_FEATURES + numStatsCols <= m.Length0 && 0 <= k < m.Length1 &&
    m[0, k] == Helpers.ParseNumeric(row[4], decimal) &&
    (forall p :: 1 <= p <= PROVINCES ==> m[p, k] == if p - 1 == provId then 1.0 else 0.0) &&
    m[25, k] == cantonId as real &&
    m[26, k] == subId as real &&
    (forall c :: FIXED_FEATURES <= c < FIXED_FEATURES + numStatsCols && c - FIXED_FEATURES + MIN_FIELDS < |row| ==>
      m[c, k] == Helpers.ParseNumeric(row[c - FIXED_FEATURES + MIN_FIELDS], decimal))
  }

  /** The feature cells of column `idx` for a kept row. */
  method WriteColumn(m: array2<real>, idx: nat, row: seq<string>, provId: int, cantonId: int, subId: int,
                     numStatsCols: nat, decimal: string -> Option<real>)
    requires |row| >= MIN_FIELDS
    requires FIXED_FEATURES + numStatsCols <= m.Length0 && idx < m.Length1
    modifies m
    ensures ColumnCells(m, idx, row, provId, cantonId, subId, numStatsCols, decimal)
    ensures forall r, c :: 0 <= r < m.Length0 && 0 <= c < m.Length1 && c != idx ==> m[r, c] == old(m[r, c])
  {
    m[0, idx] := Helpers.ParseNumeric(row[4], decimal);
    WriteOneHot(m, idx, provId);
    m[25, idx] := cantonId as real;
    m[26, idx] := subId as real;
    WriteStats(m, idx, row, numStatsCols, decimal);
  }

  /** The one-hot province block of column `idx`. */
  method WriteOneHot(m: array2<real>, idx: nat, provId: int)
    requires FIXED_FEATURES <= m.Length0 && idx < m.Length1
    modifies m
    ensures forall p :: 1 <= p <= PROVINCES ==> m[p, idx] == if p - 1 == provId then 1.0 else 0.0
    ensures forall r, c :: 0 <= r < m.Length0 && 0 <= c < m.Length1 && (c != idx || r < 1 || PROVINCES < r) ==>
      m[r, c] == old(m[r, c])
  {
    var p := 0;
    while p < PROVINCES
      invariant 0 <= p <= PROVINCES
      invariant forall q :: 1 <= q <= p ==> m[q, idx] == if q - 1 == provId then 1.0 else 0.0
      invariant forall r, c :: 0 <= r < m.Length0 && 0 <= c < m.Length1 && (c != idx || r < 1 || p < r) ==>
        m[r, c] == old(m[r, c])
    {
      m[1 + p, idx] := if p == provId then 1.0 else 0.0;
      p := p + 1;
    }
  }

  /** The statistics columns of column `idx`: each written only when the row has that field. */
  method WriteStats(m: array2<real>, idx: nat, row: seq<string>, numStatsCols: nat, decimal: string -> Option<real>)
    requires FIXED_FEATURES + numStatsCols <= m.Length0 && idx < m.Length1
    modifies m
    ensures forall c :: FIXED_FEATURES <= c < FIXED_FEATURES + numStatsCols && c - FIXED_FEATURES + MIN_FIELDS < |row| ==>
      m[c, idx] == Helpers.ParseNumeric(row[c - FIXED_FEATURES + MIN_FIELDS], decimal)
    ensures forall r, c :: 0 <= r < m.Length0 && 0 <= c < m.Length1 && (c != idx || r < FIXED_FEATURES) ==>
      m[r, c] == old(m[r, c])
  {
    var k := 0;
    while k < numStatsCols
      invariant 0 <= k <= numStatsCols
      invariant forall c :: FIXED_FEATURES <= c < FIXED_FEATURES + k && c - FIXED_FEATURES + MIN_FIELDS < |row| ==>
        m[c, idx] == Helpers.ParseNumeric(row[c - FIXED_FEATURES + MIN_FIELDS], decimal)
      invariant forall r, c :: 0 <= r < m.Length0 && 0 <= c < m.Length1 && (c != idx || r < FIXED_FEATURES) ==>
        m[r, c] == old(m[r, c])
      invariant forall r, c :: 0 <= r < m.Length0 && 0 <= c < m.Length1 && FIXED_FEATURES + k <= r ==>
        m[r, c] == old(m[r, c])
    {
      if MIN_FIELDS + k < |row| {
        m[FIXED_FEATURES + k, idx] := Helpers.ParseNumeric(row[MIN_FIELDS + k], decimal);
      }
      k := k + 1;
    }
  }

  /** The history of canton `c`, empty when it has none yet (what `canton_histories[c]` creates). */
  function History(h: map<int, seq<int>>, c: int): seq<int>
  {
    if c in h then h[c] else []
  }

  /** The per-canton label histories after the rows `acc` were kept: each label appended to its canton's list. */
  function Histories(e: EncoderStates, acc: seq<seq<string>>): map<int, seq<int>>
    requires forall k :: 0 <= k < |acc| ==> |acc[k]| >= MIN_FIELDS
  {
    if acc == [] then map[]
    else
      var init := acc[..|acc| - 1];
      var row := acc[|acc| - 1];
      var h := Histories(e, init);
      var c := CantonIdOf(e, row);
      h[c := History(h, c) + [ServIdOf(e, row)]]
  }

  lemma HistoriesSnoc(e: EncoderStates, acc: seq<seq<string>>, row: seq<string>)
    requires forall k :: 0 <= k < |acc| ==> |acc[k]| >= MIN_FIELDS
    requires |row| >= MIN_FIELDS
    ensures var h := Histories(e, acc); var c := CantonIdOf(e, row);
      Histories(e, acc + [row]) == h[c := History(h, c) + [ServIdOf(e, row)]]
  {
    assert (acc + [row])[..|acc|] == acc;
  }

  /** The body of the Pass 2 loop for a row with at least five fields. */
  method Pass2Row(m: array2<real>, labels: array<int>, idx: nat, row: seq<string>, numStatsCols: nat,
                  encProv: Encoders.LabelEncoder, encCanton: Encoders.HierarchicalCantonEncoder,
                  encServ: Encoders.LabelEncoder, encSubtipo: Encoders.LabelEncoder,
                  decimal: string -> Option<real>, ghost e: EncoderStates)
    returns (accepted: bool, target: int, cantonId: int)
    requires |row| >= MIN_FIELDS
    requires encProv != encServ && encProv != encSubtipo && encServ != encSubtipo
    requires EncoderStates(encProv.State(), encCanton.hierarchy, encServ.State(), encSubtipo.State()) == e
    requires Stable(e, row)
    requires FIXED_FEATURES + numStatsCols <= m.Length0 && idx < m.Length1 && idx < labels.Length
    modifies m, labels, encProv, encCanton, encServ, encSubtipo
    ensures EncoderStates(encProv.State(), encCanton.hierarchy, encServ.State(), encSubtipo.State()) == e
    ensures accepted == Accepts(e, row)
    ensures accepted ==> (target == ServIdOf(e, row) && cantonId == CantonIdOf(e, row) &&
      labels[idx] == target && ColumnHolds(m, idx, row, e, numStatsCols, decimal))
    ensures forall r, c :: 0 <= r < m.Length0 && 0 <= c < m.Length1 && c != idx ==> m[r, c] == old(m[r, c])
    ensures forall j :: 0 <= j < labels.Length && j != idx ==> labels[j] == old(labels[j])
    ensures !accepted ==> unchanged(m, labels)
  {
    target := encServ.Encode(row[2]);
    if target < 0 {
      return false, target, 0;
    }
    accepted := true;
    labels[idx] := target;
    var provId := encProv.Encode(row[0]);
    cantonId := encCanton.Encode(provId, row[1]);
    var subtype := encSubtipo.Encode(row[3]);
    WriteColumn(m, idx, row, provId, cantonId, subtype, numStatsCols, decimal);
  }

  /** The first `idx` columns and labels hold the first `idx` kept rows. */
  predicate Filled(m: array2<real>, labels: array<int>, e: EncoderStates, acc: seq<seq<string>>, idx: nat,
                   numStatsCols: nat, decimal: string -> Option<real>)
    reads m, labels
  {
    idx <= |acc| && idx <= labels.Length &&
    forall k :: 0 <= k < idx ==>
      |acc[k]| >= MIN_FIELDS && labels[k] == ServIdOf(e, acc[k]) &&
      ColumnHolds(m, k, acc[k], e, numStatsCols, decimal)
  }

  /**
   * Pass 2 over the same lines with the encoders Pass 1 left: `dataMat`
   * has `27 + numStatsCols` rows and `totalRows` columns, and the kept rows
   * fill its columns from 0, never past `totalRows`.
   */
  method Pass2(body: seq<string>, numStatsCols: nat, totalRows: nat,
               encProv: Encoders.LabelEncoder, encCanton: Encoders.HierarchicalCantonEncoder,
               encServ: Encoders.LabelEncoder, encSubtipo: Encoders.LabelEncoder,
               decimal: string -> Option<real>)
    returns (dataMat: array2<real>, labelMat: array<int>, histories: map<int, seq<int>>, idx: nat)
    requires encProv != encServ && encProv != encSubtipo && encServ != encSubtipo
    requires var e := EncoderStates(encProv.State(), encCanton.hierarchy, encServ.State(), encSubtipo.State());
      forall j :: 0 <= j < |body| && |Rows(body)[j]| >= MIN_FIELDS ==> Stable(e, Rows(body)[j])
    modifies encProv, encCanton, encServ, encSubtipo
    ensures EncoderStates(encProv.State(), encCanton.hierarchy, encServ.State(), encSubtipo.State()) ==
      old(EncoderStates(encProv.State(), encCanton.hierarchy, encServ.State(), encSubtipo.State()))
    ensures fresh(dataMat) && fresh(labelMat)
    ensures dataMat.Length0 == FIXED_FEATURES + numStatsCols && dataMat.Length1 == totalRows
    ensures labelMat.Length == totalRows
    ensures var e := EncoderStates(encProv.State(), encCanton.hierarchy, encServ.State(), encSubtipo.State());
      var acc := Accepted(e, Rows(body));
      idx == (if |acc| < totalRows then |acc| else totalRows) &&
      Filled(dataMat, labelMat, e, acc, idx, numStatsCols, decimal) &&
      histories == Histories(e, acc[..idx])
  {
    ghost var e := EncoderStates(encProv.State(), encCanton.hierarchy, encServ.State(), encSubtipo.State());
    dataMat := new real[FIXED_FEATURES + numStatsCols, totalRows];
    labelMat := new int[totalRows];
    ghost var i;
    histories, idx, i := Pass2Loop(body, dataMat, labelMat, numStatsCols, encProv, encCanton, encServ, encSubtipo,
                                   decimal, e);
    Pass2Exit(e, body, i);
    ghost var acc := Accepted(e, Rows(body[..i]));
    FilledPrefix(dataMat, labelMat, e, acc, Accepted(e, Rows(body)), idx, numStatsCols, decimal);
    assert Accepted(e, Rows(body))[..idx] == acc;
  }

  /**
   * The Pass 2 loop: it stops after `consumed` lines, either at the end of
   * the file or once `totalRows` columns are filled.
   */
  method Pass2Loop(body: seq<string>, dataMat: array2<real>, labelMat: array<int>, numStatsCols: nat,
                   encProv: Encoders.LabelEncoder, encCanton: Encoders.HierarchicalCantonEncoder,
                   encServ: Encoders.LabelEncoder, encSubtipo: Encoders.LabelEncoder,
                   decimal: string -> Option<real>, ghost e: EncoderStates)
    returns (histories: map<int, seq<int>>, idx: nat, ghost consumed: nat)
    requires encProv != encServ && encProv != encSubtipo && encServ != encSubtipo
    requires EncoderStates(encProv.State(), encCanton.hierarchy, encServ.State(), encSubtipo.State()) == e
    requires forall j :: 0 <= j < |body| && |Rows(body)[j]| >= MIN_FIELDS ==> Stable(e, Rows(body)[j])
    requires dataMat.Length0 == FIXED_FEATURES + numStatsCols && dataMat.Length1 == labelMat.Length
    modifies dataMat, labelMat, encProv, encCanton, encServ, encSubtipo
    ensures EncoderStates(encProv.State(), encCanton.hierarchy, encServ.State(), encSubtipo.State()) == e
    ensures consumed <= |body| && idx <= labelMat.Length && (consumed == |body| || idx == labelMat.Length)
    ensures var acc := Accepted(e, Rows(body[..consumed]));
      idx == |acc| && Filled(dataMat, labelMat, e, acc, idx, numStatsCols, decimal) &&
      histories == Histories(e, acc)
  {
    histories := map[];
    idx := 0;
    var i := 0;
    ghost var acc: seq<seq<string>> := [];
    while i < |body| && idx < labelMat.Length
      invariant 0 <= i <= |body| && idx <= labelMat.Length
      invariant EncoderStates(encProv.State(), encCanton.hierarchy, encServ.State(), encSubtipo.State()) == e
      invariant acc == Accepted(e, Rows(body[..i]))
      invariant idx == |acc| && Filled(dataMat, labelMat, e, acc, idx, numStatsCols, decimal)
      invariant histories == Histories(e, acc)
    {
      idx, histories, acc := Pass2Line(body, i, dataMat, labelMat, idx, numStatsCols,
        encProv, encCanton, encServ, encSubtipo, decimal, e, acc, histories);
      i := i + 1;
    }
    consumed := i;
  }

  /** One iteration of the Pass 2 loop, on line `i`. */
  method Pass2Line(body: seq<string>, i: nat, m: array2<real>, labels: array<int>, idx: nat, numStatsCols: nat,
                   encProv: Encoders.LabelEncoder, encCanton: Encoders.HierarchicalCantonEncoder,
                   encServ: Encoders.LabelEncoder, encSubtipo: Encoders.LabelEncoder,
                   decimal: string -> Option<real>, ghost e: EncoderStates, ghost acc: seq<seq<string>>,
                   histories: map<int, seq<int>>)
    returns (idx': nat, histories': map<int, seq<int>>, ghost acc': seq<seq<string>>)
    requires i < |body|
    requires encProv != encServ && encProv != encSubtipo && encServ != encSubtipo
    requires EncoderStates(encProv.State(), encCanton.hierarchy, encServ.State(), encSubtipo.State()) == e
    requires forall j :: 0 <= j < |body| && |Rows(body)[j]| >= MIN_FIELDS ==> Stable(e, Rows(body)[j])
    requires FIXED_FEATURES + numStatsCols <= m.Length0 && idx < m.Length1 && idx < labels.Length
    requires acc == Accepted(e, Rows(body[..i]))
    requires idx == |acc| && Filled(m, labels, e, acc, idx, numStatsCols, decimal)
    requires histories == Histories(e, acc)
    modifies m, labels, encProv, encCanton, encServ, encSubtipo
    ensures EncoderStates(encProv.State(), encCanton.hierarchy, encServ.State(), encSubtipo.State()) == e
    ensures acc' == Accepted(e, Rows(body[..i + 1]))
    ensures idx' == |acc'| && Filled(m, labels, e, acc', idx', numStatsCols, decimal)
    ensures histories' == Histories(e, acc')
  {
    var row := Tokenizer.GetlineFields(body[i], ',');
    RowsSnoc(body, i);
    AcceptedSnoc(e, Rows(body[..i]), row);
    assert |row| >= MIN_FIELDS ==> Stable(e, row) by {
      assert Rows(body)[i] == row;
    }
    idx', histories' := Pass2Step(m, labels, idx, row, numStatsCols,
      encProv, encCanton, encServ, encSubtipo, decimal, e, acc, histories);
    acc' := acc + (if Accepts(e, row) then [row] else []);
  }

  /**
   * One iteration of the Pass 2 loop: a long row whose service is known is
   * written to column `idx`, labelled, and appended to its canton's history.
   */
  method Pass2Step(m: array2<real>, labels: array<int>, idx: nat, row: seq<string>, numStatsCols: nat,
                   encProv: Encoders.LabelEncoder, encCanton: Encoders.HierarchicalCantonEncoder,
                   encServ: Encoders.LabelEncoder, encSubtipo: Encoders.LabelEncoder,
                   decimal: string -> Option<real>, ghost e: EncoderStates, ghost acc: seq<seq<string>>,
                   histories: map<int, seq<int>>)
    returns (idx': nat, histories': map<int, seq<int>>)
    requires encProv != encServ && encProv != encSubtipo && encServ != encSubtipo
    requires EncoderStates(encProv.State(), encCanton.hierarchy, encServ.State(), encSubtipo.State()) == e
    requires |row| >= MIN_FIELDS ==> Stable(e, row)
    requires FIXED_FEATURES + numStatsCols <= m.Length0 && idx < m.Length1 && idx < labels.Length
    requires idx == |acc| && Filled(m, labels, e, acc, idx, numStatsCols, decimal)
    requires histories == Histories(e, acc)
    modifies m, labels, encProv, encCanton, encServ, encSubtipo
    ensures EncoderStates(encProv.State(), encCanton.hierarchy, encServ.State(), encSubtipo.State()) == e
    ensures var acc' := acc + (if Accepts(e, row) then [row] else []);
      idx' == |acc'| && Filled(m, labels, e, acc', idx', numStatsCols, decimal)
    ensures histories' == Histories(e, acc + (if Accepts(e, row) then [row] else []))
  {
    idx', histories' := idx, histories;
    assert acc + [] == acc;
    if |row| >= MIN_FIELDS {
      var accepted, target, cantonId := Pass2Fill(m, labels, idx, row, numStatsCols,
        encProv, encCanton, encServ, encSubtipo, decimal, e, acc);
      if accepted {
        HistoriesSnoc(e, acc, row);
        histories' := histories[cantonId := History(histories, cantonId) + [target]];
        idx' := idx + 1;
      }
    }
  }

  /** `Pass2Row` keeping what the earlier columns and labels hold. */
  method Pass2Fill(m: array2<real>, labels: array<int>, idx: nat, row: seq<string>, numStatsCols: nat,
                   encProv: Encoders.LabelEncoder, encCanton: Encoders.HierarchicalCantonEncoder,
                   encServ: Encoders.LabelEncoder, encSubtipo: Encoders.LabelEncoder,
                   decimal: string -> Option<real>, ghost e: EncoderStates, ghost acc: seq<seq<string>>)
    returns (accepted: bool, target: int, cantonId: int)
    requires |row| >= MIN_FIELDS
    requires encProv != encServ && encProv != encSubtipo && encServ != encSubtipo
    requires EncoderStates(encProv.State(), encCanton.hierarchy, encServ.State(), encSubtipo.State()) == e
    requires Stable(e, row)
    requires FIXED_FEATURES + numStatsCols <= m.Length0 && idx < m.Length1 && idx < labels.Length
    requires idx == |acc| && Filled(m, labels, e, acc, idx, numStatsCols, decimal)
    modifies m, labels, encProv, encCanton, encServ, encSubtipo
    ensures EncoderStates(encProv.State(), encCanton.hierarchy, encServ.State(), encSubtipo.State()) == e
    ensures accepted == Accepts(e, row)
    ensures accepted ==> target == ServIdOf(e, row) && cantonId == CantonIdOf(e, row)
    ensures Filled(m, labels, e, acc + (if accepted then [row] else []), idx + (if accepted then 1 else 0),
                   numStatsCols, decimal)
  {
    accepted, target, cantonId := Pass2Kept(m, labels, idx, row, numStatsCols,
      encProv, encCanton, encServ, encSubtipo, decimal, e, acc);
    if accepted {
      FilledSnoc(m, labels, e, acc, row, idx, numStatsCols, decimal);
    } else {
      assert acc + [] == acc;
    }
  }

  /** `Pass2Row`, with the columns already filled kept as they were. */
  method Pass2Kept(m: array2<real>, labels: array<int>, idx: nat, row: seq<string>, numStatsCols: nat,
                   encProv: Encoders.LabelEncoder, encCanton: Encoders.HierarchicalCantonEncoder,
                   encServ: Encoders.LabelEncoder, encSubtipo: Encoders.LabelEncoder,
                   decimal: string -> Option<real>, ghost e: EncoderStates, ghost acc: seq<seq<string>>)
    returns (accepted: bool, target: int, cantonId: int)
    requires |row| >= MIN_FIELDS
    requires encProv != encServ && encProv != encSubtipo && encServ != encSubtipo
    requires EncoderStates(encProv.State(), encCanton.hierarchy, encServ.State(), encSubtipo.State()) == e
    requires Stable(e, row)
    requires FIXED_FEATURES + numStatsCols <= m.Length0 && idx < m.Length1 && idx < labels.Length
    requires idx == |acc| && Filled(m, labels, e, acc, idx, numStatsCols, decimal)
    modifies m, labels, encProv, encCanton, encServ, encSubtipo
    ensures EncoderStates(encProv.State(), encCanton.hierarchy, encServ.State(), encSubtipo.State()) == e
    ensures accepted == Accepts(e, row)
    ensures accepted ==> (target == ServIdOf(e, row) && cantonId == CantonIdOf(e, row) &&
      labels[idx] == target && ColumnHolds(m, idx, row, e, numStatsCols, decimal))
    ensures Filled(m, labels, e, acc, idx, numStatsCols, decimal)
  {
    accepted, target, cantonId := Pass2Row(m, labels, idx, row, numStatsCols,
      encProv, encCanton, encServ, encSubtipo, decimal, e);
    forall k | 0 <= k < idx
      ensures ColumnHolds(m, k, acc[k], e, numStatsCols, decimal)
    {
      assert old(ColumnHolds(m, k, acc[k], e, numStatsCols, decimal));
    }
  }

  lemma FilledSnoc(m: array2<real>, labels: array<int>, e: EncoderStates, acc: seq<seq<string>>, row: seq<string>,
                   idx: nat, numStatsCols: nat, decimal: string -> Option<real>)
    requires idx == |acc| && idx < labels.Length && Filled(m, labels, e, acc, idx, numStatsCols, decimal)
    requires |row| >= MIN_FIELDS && labels[idx] == ServIdOf(e, row) && ColumnHolds(m, idx, row, e, numStatsCols, decimal)
    ensures Filled(m, labels, e, acc + [row], idx + 1, numStatsCols, decimal)
  {
    var acc' := acc + [row];
    assert forall k :: 0 <= k < idx ==> acc'[k] == acc[k];
  }

  /** What holds of the first `idx` rows of `a` holds of the first `idx` rows of any extension of `a`. */
  lemma FilledPrefix(m: array2<real>, labels: array<int>, e: EncoderStates, a: seq<seq<string>>, b: seq<seq<string>>,
                     idx: nat, numStatsCols: nat, decimal: string -> Option<real>)
    requires a <= b && Filled(m, labels, e, a, idx, numStatsCols, decimal)
    ensures Filled(m, labels, e, b, idx, numStatsCols, decimal)
  {
    assert forall k :: 0 <= k < idx ==> a[k] == b[k];
  }

  /** Where the Pass 2 loop stops, the rows kept so far are the first ones kept overall. */
  lemma Pass2Exit(e: EncoderStates, body: seq<string>, i: nat)
    requires i <= |body|
    ensures Accepted(e, Rows(body[..i])) <= Accepted(e, Rows(body))
    ensures i == |body| ==> Accepted(e, Rows(body[..i])) == Accepted(e, Rows(body))
  {
    AcceptedPrefix(e, Rows(body), i);
    assert Rows(body)[..i] == Rows(body[..i]);
    assert i == |body| ==> body[..i] == body;
  }

  /* ---------------- what Pass 2 computes, after Pass 1 ---------------- */

  /** Pass 1 keeps the service encoder bijective. */
  lemma {:induction false} Pass1LoopServBijective(e: EncoderStates, rows: seq<seq<string>>)
    requires Encoders.Bijective(e.serv)
    ensures Encoders.Bijective(Pass1Loop(e, rows).serv)
  {
    if rows != [] {
      var u := Pass1Loop(e, rows[..|rows| - 1]);
      var row := rows[|rows| - 1];
      Pass1LoopServBijective(e, rows[..|rows| - 1]);
      if |row| >= MIN_FIELDS {
        Encoders.EncodeBijective(u.serv, row[2]);
      }
    }
  }

  /** The rows with at least five fields and a service that is not blank. */
  function CountServed(rows: seq<seq<string>>): (n: nat)
    ensures n <= CountLong(rows)
  {
    if rows == [] then 0
    else
      var row := rows[|rows| - 1];
      CountServed(rows[..|rows| - 1]) + (if |row| >= MIN_FIELDS && !Strings.Blank(row[2]) then 1 else 0)
  }

  /** With a bijective service encoder that is not frozen, Pass 2 keeps exactly the long rows with a service. */
  lemma {:induction false} AcceptedCount(e: EncoderStates, rows: seq<seq<string>>)
    requires Encoders.Bijective(e.serv) && !e.serv.frozen
    ensures |Accepted(e, rows)| == CountServed(rows)
  {
    if rows != [] {
      var row := rows[|rows| - 1];
      AcceptedCount(e, rows[..|rows| - 1]);
      if |row| >= MIN_FIELDS {
        Encoders.UnfrozenSentinel(e.serv, row[2]);
      }
    }
  }

  /** Pass 2 keeps no more rows than Pass 1 counted, so the `idx < totalRows` guard never cuts it short. */
  lemma {:induction false} AcceptedAtMostLong(e: EncoderStates, rows: seq<seq<string>>)
    ensures |Accepted(e, rows)| <= CountLong(rows)
  {
    if rows != [] {
      AcceptedAtMostLong(e, rows[..|rows| - 1]);
    }
  }

  /** Every kept row is one of the rows read. */
  lemma {:induction false} AcceptedFrom(e: EncoderStates, rows: seq<seq<string>>)
    ensures forall k :: 0 <= k < |Accepted(e, rows)| ==> Accepted(e, rows)[k] in rows
  {
    if rows != [] {
      var init := rows[..|rows| - 1];
      AcceptedFrom(e, init);
      forall k | 0 <= k < |Accepted(e, init)|
        ensures Accepted(e, init)[k] in rows
      {
        var j :| 0 <= j < |init| && init[j] == Accepted(e, init)[k];
        assert rows[j] == init[j];
      }
    }
  }

  /** A kept row whose encoding changes nothing has a label that is a class id: below `numClasses()`. */
  lemma LabelInRange(e: EncoderStates, row: seq<string>)
    requires |row| >= MIN_FIELDS && Encoders.Bijective(e.serv) && Stable(e, row) && Accepts(e, row)
    ensures 0 <= ServIdOf(e, row) < |e.serv.reverse|
  {
    Encoders.EncodeIdInRange(e.serv, row[2]);
  }

  predicate Bounded(h: map<int, seq<int>>, lo: int, hi: int)
  {
    forall c, i :: c in h && 0 <= i < |h[c]| ==> lo <= h[c][i] < hi
  }

  lemma AppendBounded(h: map<int, seq<int>>, c: int, x: int, lo: int, hi: int)
    requires Bounded(h, lo, hi) && lo <= x < hi
    ensures Bounded(h[c := History(h, c) + [x]], lo, hi)
  {
    var v := History(h, c) + [x];
    forall i | 0 <= i < |v|
      ensures lo <= v[i] < hi
    {
      if i < |v| - 1 {
        assert v[i] == History(h, c)[i];
      }
    }
  }

  /** When every kept row's label lies in `[lo, hi)`, so does every label in every history. */
  lemma {:induction false} HistoriesBounded(e: EncoderStates, acc: seq<seq<string>>, lo: int, hi: int)
    requires forall k :: 0 <= k < |acc| ==> |acc[k]| >= MIN_FIELDS && lo <= ServIdOf(e, acc[k]) < hi
    ensures Bounded(Histories(e, acc), lo, hi)
  {
    if acc != [] {
      var init := acc[..|acc| - 1];
      var row := acc[|acc| - 1];
      assert forall k :: 0 <= k < |init| ==> init[k] == acc[k];
      HistoriesBounded(e, init, lo, hi);
      AppendBounded(Histories(e, init), CantonIdOf(e, row), ServIdOf(e, row), lo, hi);
    }
  }

  /** The labels of the kept rows of canton `c`, in file order. */
  function LabelsOf(e: EncoderStates, acc: seq<seq<string>>, c: int): seq<int>
    requires forall k :: 0 <= k < |acc| ==> |acc[k]| >= MIN_FIELDS
  {
    if acc == [] then []
    else
      var row := acc[|acc| - 1];
      LabelsOf(e, acc[..|acc| - 1], c) + (if CantonIdOf(e, row) == c then [ServIdOf(e, row)] else [])
  }

  /**
   * `canton_histories[c]` lists the labels of the kept rows of canton `c`
   * in file order, and a canton has an entry exactly when it has a kept row.
   */
  lemma {:induction false} HistoriesByCanton(e: EncoderStates, acc: seq<seq<string>>, c: int)
    requires forall k :: 0 <= k < |acc| ==> |acc[k]| >= MIN_FIELDS
    ensures History(Histories(e, acc), c) == LabelsOf(e, acc, c)
    ensures c in Histories(e, acc) <==> LabelsOf(e, acc, c) != []
  {
    if acc != [] {
      HistoriesByCanton(e, acc[..|acc| - 1], c);
    }
  }

  /** The histories hold one label per kept row in all: their lengths add up to `idx`. */
  lemma {:induction false} HistoriesTotal(e: EncoderStates, acc: seq<seq<string>>)
    requires forall k :: 0 <= k < |acc| ==> |acc[k]| >= MIN_FIELDS
    ensures var h := Histories(e, acc); Windowing.LengthSum(h, h.Keys) == |acc|
  {
    if acc != [] {
      var init := acc[..|acc| - 1];
      var row := acc[|acc| - 1];
      var h := Histories(e, init);
      var c := CantonIdOf(e, row);
      var h' := Histories(e, acc);
      HistoriesTotal(e, init);
      assert h' == h[c := History(h, c) + [ServIdOf(e, row)]];
      Windowing.LengthSumUpdate(h, c, History(h, c) + [ServIdOf(e, row)]);
    }
  }

  /**
   * After Pass 1 over `body`, Pass 2 keeps one row per long line with a
   * service, every label is a class id of the service encoder, and so is
   * every label in the histories.
   */
  lemma Pass2Facts(body: seq<string>)
    ensures var e := Pass1Result(body); var acc := Accepted(e, Rows(body));
      Encoders.Bijective(e.serv) && |acc| == CountServed(Rows(body)) &&
      (forall k :: 0 <= k < |acc| ==> 0 <= ServIdOf(e, acc[k]) < |e.serv.reverse|) &&
      Bounded(Histories(e, acc), 0, |e.serv.reverse|)
  {
    var e := Pass1Result(body);
    var rows := Rows(body);
    var acc := Accepted(e, rows);
    Encoders.EmptyBijective();
    Pass1LoopServBijective(FRESH, rows);
    Pass1LoopKnown(FRESH, rows);
    AcceptedCount(e, rows);
    Pass1Warm(body);
    AcceptedFrom(e, rows);
    AcceptedAccepts(e, rows);
    forall k | 0 <= k < |acc|
      ensures 0 <= ServIdOf(e, acc[k]) < |e.serv.reverse|
    {
      var j :| 0 <= j < |rows| && rows[j] == acc[k];
      assert Long(body[j]);
      LabelInRange(e, acc[k]);
    }
    HistoriesBounded(e, acc, 0, |e.serv.reverse|);
  }

  /** The number of comma-separated header fields, counted by the getline loop. */
  method CountColumns(header: string) returns (totalCsvCols: nat)
    ensures totalCsvCols == |Row(header)|
  {
    var cells := Tokenizer.GetlineFields(header, ',');
    totalCsvCols := |cells|;
  }

  /**
   * The data steps of `main` on the lines of the training file: the header
   * fixes the statistics columns, Pass 1 fills the encoders and counts the
   * rows, Pass 2 fills the matrix, the labels and the histories, and the
   * windowing cuts the histories into samples with `numClasses()` classes.
   * What Pass 2 keeps, and the range of its labels, are stated by
   * `Pass2Facts` about the same functions.
   */
  method Run(lines: seq<string>, decimal: string -> Option<real>)
    returns (dataMat: array2<real>, labelMat: array<int>, idx: nat, histories: map<int, seq<int>>,
             inputCube: array2<int>, targetCube: array<int>, cIdx: nat)
    ensures var body := Body(lines); var e := Pass1Result(body); var acc := Accepted(e, Rows(body));
      dataMat.Length0 == NumFeatures(lines) && dataMat.Length1 == labelMat.Length == CountLong(Rows(body)) &&
      idx == |acc| && Filled(dataMat, labelMat, e, acc, idx, NumStatsCols(lines), decimal) &&
      histories == Histories(e, acc)
    ensures var numClasses := |Pass1Result(Body(lines)).serv.reverse|;
      var w := Windowing.Windows(histories, Windowing.SortedKeys(histories.Keys), numClasses);
      cIdx == |w| && Windowing.CubesHold(inputCube, targetCube, w, cIdx)
  {
    var header := Header(lines);
    var totalCsvCols := CountColumns(header);
    var numStatsCols := if totalCsvCols > MIN_FIELDS then totalCsvCols - MIN_FIELDS else 0;
    var numClasses;
    dataMat, labelMat, idx, histories, numClasses := BothPasses(Body(lines), numStatsCols, decimal);
    inputCube, targetCube, cIdx := Windowing.Window(histories, numClasses);
  }

  /** Pass 1 and then Pass 2 over the lines after the header. */
  method BothPasses(body: seq<string>, numStatsCols: nat, decimal: string -> Option<real>)
    returns (dataMat: array2<real>, labelMat: array<int>, idx: nat, histories: map<int, seq<int>>, numClasses: nat)
    ensures fresh(dataMat) && fresh(labelMat)
    ensures numClasses == |Pass1Result(body).serv.reverse|
    ensures var e := Pass1Result(body); var acc := Accepted(e, Rows(body));
      dataMat.Length0 == FIXED_FEATURES + numStatsCols && dataMat.Length1 == labelMat.Length == CountLong(Rows(body)) &&
      idx == |acc| && Filled(dataMat, labelMat, e, acc, idx, numStatsCols, decimal) &&
      histories == Histories(e, acc)
  {
    var encProv, encCanton, encServ, encSubtipo, totalRows := Pass1(body);
    ghost var e := Pass1Result(body);
    Pass1Warm(body);
    dataMat, labelMat, histories, idx := Pass2(body, numStatsCols, totalRows, encProv, encCanton, encServ, encSubtipo,
                                               decimal);
    ghost var acc := Accepted(e, Rows(body));
    AcceptedAtMostLong(e, Rows(body));
    assert acc[..idx] == acc;
    numClasses := encServ.NumClasses();
  }
}
