/**
 * The freezable `LabelEncoder` and the `HierarchicalCantonEncoder` of
 * Encoders.cpp. Each operation is first written as a function on the
 * encoder's value (`Vocabulary`, or the hierarchy map), and the classes'
 * methods are proved to move their fields exactly as those functions say.
 */
module Encoders {
  import opened Wrappers
  import Strings
  import Numbers
  import Tokenizer

  /** What `decode` answers for an id that has no entry. */
  const UNKNOWN: string := "UNKNOWN"

  /** The stride between provinces in a composite canton id. */
  const OFFSET_MULTIPLIER: int := 1000

  /** The value of a `LabelEncoder`: its forward map, its reverse table and its frozen flag. */
  datatype Vocabulary = Vocabulary(forward: map<string, int>, reverse: seq<string>, frozen: bool)

  /** A fresh encoder: both tables empty and not frozen. */
  const EMPTY: Vocabulary := Vocabulary(map[], [], false)

  /** The forward map and the reverse table are inverse to each other. */
  predicate Bijective(v: Vocabulary)
  {
    (forall s :: s in v.forward ==> 0 <= v.forward[s] < |v.reverse| && v.reverse[v.forward[s]] == s) &&
    (forall i :: 0 <= i < |v.reverse| ==> v.reverse[i] in v.forward && v.forward[v.reverse[i]] == i)
  }

  /**
   * `LabelEncoder::encode` on a value: the new value and the id returned.
   * A blank input, and an unseen input while frozen, give the sentinel -1
   * and change nothing; a known input gives its id whether frozen or not;
   * an unseen input while not frozen gets the next dense id.
   */
  function VocabEncode(v: Vocabulary, s: string): (r: (Vocabulary, int))
    ensures Strings.Blank(s) ==> r == (v, -1)
    ensures !Strings.Blank(s) && Strings.Trim(s) in v.forward ==> r == (v, v.forward[Strings.Trim(s)])
    ensures v.frozen && Strings.Trim(s) !in v.forward ==> r == (v, -1)
    ensures !v.frozen && !Strings.Blank(s) && Strings.Trim(s) !in v.forward ==>
      r.1 == |v.reverse| && r.0.reverse == v.reverse + [Strings.Trim(s)] &&
      r.0.forward == v.forward[Strings.Trim(s) := |v.reverse|] && r.0.frozen == v.frozen
  {
    var t := Strings.Trim(s);
    if t == [] then (v, -1)
    else if t in v.forward then (v, v.forward[t])
    else if v.frozen then (v, -1)
    else
      var n := |v.reverse|;
      (Vocabulary(v.forward[t := n], v.reverse + [t], v.frozen), n)
  }

  /** Adding an unseen name at the end of the table keeps a bijective encoder bijective. */
  lemma AddPreservesBijective(v: Vocabulary, t: string)
    requires t !in v.forward
    ensures var w := Vocabulary(v.forward[t := |v.reverse|], v.reverse + [t], v.frozen);
      Bijective(v) ==> Bijective(w)
  {
    var n := |v.reverse|;
    var w := Vocabulary(v.forward[t := n], v.reverse + [t], v.frozen);
    if Bijective(v) {
      forall i | 0 <= i < |w.reverse|
        ensures w.reverse[i] in w.forward && w.forward[w.reverse[i]] == i
      {
        if i < n {
          assert w.reverse[i] == v.reverse[i] != t;
        }
      }
    }
  }

  /**
   * Encoding keeps the forward map and the reverse table inverse to each
   * other, and whatever id it hands out decodes to the trimmed input.
   */
  lemma EncodeBijective(v: Vocabulary, s: string)
    requires Bijective(v)
    ensures var (w, id) := VocabEncode(v, s);
      Bijective(w) && (id != -1 ==> VocabDecode(w, id) == Strings.Trim(s))
  {
    var t := Strings.Trim(s);
    if t != [] && t !in v.forward && !v.frozen {
      AddPreservesBijective(v, t);
    }
  }

  /** On a bijective encoder every id other than the sentinel indexes the table after the call. */
  lemma EncodeIdInRange(v: Vocabulary, s: string)
    requires Bijective(v)
    ensures var (w, id) := VocabEncode(v, s); id == -1 || 0 <= id < |w.reverse|
  {
  }

  /** While not frozen, a bijective encoder hands out the sentinel exactly for blank input. */
  lemma UnfrozenSentinel(v: Vocabulary, s: string)
    requires Bijective(v) && !v.frozen
    ensures VocabEncode(v, s).1 >= 0 <==> !Strings.Blank(s)
  {
  }

  /** `LabelEncoder::decode` on a value: the stored string, or `UNKNOWN` outside the table. */
  function VocabDecode(v: Vocabulary, id: int): (r: string)
    ensures 0 <= id < |v.reverse| ==> r == v.reverse[id]
    ensures id < 0 || |v.reverse| <= id ==> r == UNKNOWN
  {
    if 0 <= id < |v.reverse| then v.reverse[id] else UNKNOWN
  }

  /** Encoding the same input twice: the second call returns the same id and changes nothing. */
  lemma EncodeTwice(v: Vocabulary, s: string)
    requires Bijective(v)
    ensures var (w, id) := VocabEncode(v, s); VocabEncode(w, s) == (w, id)
  {
    var (w, id) := VocabEncode(v, s);
    if !Strings.Blank(s) && !(Strings.Trim(s) !in v.forward && v.frozen) {
      assert Strings.Trim(s) in w.forward;
    }
  }

  /** Ids handed out by a sequence of encodings from a fresh encoder are dense: the table is exactly the ids so far. */
  lemma {:induction false} EncodeAllBijective(v: Vocabulary, inputs: seq<string>)
    requires Bijective(v)
    ensures Bijective(EncodeAll(v, inputs))
    decreases |inputs|
  {
    if inputs != [] {
      EncodeBijective(v, inputs[0]);
      EncodeAllBijective(VocabEncode(v, inputs[0]).0, inputs[1..]);
    }
  }

  /** The value after encoding `inputs` in order. */
  function EncodeAll(v: Vocabulary, inputs: seq<string>): Vocabulary
    decreases |inputs|
  {
    if inputs == [] then v else EncodeAll(VocabEncode(v, inputs[0]).0, inputs[1..])
  }

  lemma EmptyBijective()
    ensures Bijective(EMPTY)
  {
  }

  /* ---------------- save / load ---------------- */

  /** The line `save` writes for entry `i`: its index in decimal, a comma, the name. */
  function SaveLine(i: nat, name: string): string
  {
    Numbers.NatToString(i) + "," + name
  }

  /** The lines `save` writes, one per entry of the reverse table, in order. */
  function SaveLines(reverse: seq<string>): (lines: seq<string>)
    ensures |lines| == |reverse|
    ensures forall i :: 0 <= i < |reverse| ==> lines[i] == SaveLine(i, reverse[i])
  {
    seq(|reverse|, i requires 0 <= i < |reverse| => SaveLine(i, reverse[i]))
  }

  /** The text of the file `save` writes: each line followed by a newline. */
  function SavedText(reverse: seq<string>): string
  {
    Tokenizer.Terminated(SaveLines(reverse), '\n')
  }

  /**
   * What `load` takes from one line: the id `stoi` reads from the text
   * before the first comma, and everything after that comma as the name;
   * `None` when there is no comma or `stoi` throws.
   */
  function LineEntry(line: string): Option<(int, string)>
  {
    var k := Tokenizer.FindFirst(line, ',');
    if k == |line| then None
    else
      match Numbers.Stoi(line[..k])
      case None => None
      case Some(id) => Some((id, line[k + 1..]))
  }

  /**
   * A line without a comma has no entry; a line with one has the `stoi` of
   * the text before its first comma as id and the text after it as name,
   * and has an entry exactly when that `stoi` succeeds.
   */
  lemma LineEntrySpec(line: string)
    ensures Tokenizer.Free(line, ',') ==> LineEntry(line).None?
    ensures LineEntry(line).Some? ==>
      var k := |line| - |LineEntry(line).value.1| - 1;
      0 <= k && line[k] == ',' && Tokenizer.Free(line[..k], ',') &&
      Numbers.Stoi(line[..k]) == Some(LineEntry(line).value.0) && LineEntry(line).value.1 == line[k + 1..]
    ensures forall k :: 0 <= k < |line| && line[k] == ',' && Tokenizer.Free(line[..k], ',') ==>
      LineEntry(line) ==
        (if Numbers.Stoi(line[..k]).Some? then Some((Numbers.Stoi(line[..k]).value, line[k + 1..])) else None)
  {
    var k := Tokenizer.FindFirst(line, ',');
    if Tokenizer.Free(line, ',') && k < |line| {
      assert false;
    }
    forall c | 0 <= c < |line| && line[c] == ',' && Tokenizer.Free(line[..c], ',')
      ensures LineEntry(line) ==
        (if Numbers.Stoi(line[..c]).Some? then Some((Numbers.Stoi(line[..c]).value, line[c + 1..])) else None)
    {
      FirstComma(line, c);
    }
  }

  /** A comma with no comma before it is the first one. */
  lemma FirstComma(line: string, c: nat)
    requires c < |line| && line[c] == ',' && Tokenizer.Free(line[..c], ',')
    ensures Tokenizer.FindFirst(line, ',') == c
  {
  }

  /**
   * The lines on which `load` is defined. An id of -1 makes it resize the
   * table to 0 and write outside it, and an id of `INT_MAX` overflows
   * `id + 1`; every other line is handled.
   */
  predicate LoadDefined(line: string)
  {
    match LineEntry(line)
    case None => true
    case Some((id, _)) => id != -1 && id != Numbers.INT_MAX
  }

  /** `n` empty strings: what `resize` appends. */
  function Padding(n: nat): (p: seq<string>)
    ensures |p| == n && forall i :: 0 <= i < n ==> p[i] == ""
  {
    seq(n, _ => "")
  }

  /**
   * One iteration of the `load` loop. Lines without a comma or with an id
   * `stoi` rejects are skipped. An id below -1 asks `resize` for more than
   * `max_size()` elements, which throws and is caught: skipped as well. Any
   * other id grows the table with empty names up to `id + 1` entries if it
   * is short, stores the name at `id`, and maps the name to `id`.
   */
  function LoadLine(v: Vocabulary, line: string): (r: Vocabulary)
    requires LoadDefined(line)
    ensures r.frozen == v.frozen
    ensures LineEntry(line).None? ==> r == v
    ensures LineEntry(line).Some? && LineEntry(line).value.0 < 0 ==> r == v
    ensures LineEntry(line).Some? && LineEntry(line).value.0 >= 0 ==>
      var (id, name) := LineEntry(line).value;
      |r.reverse| == (if |v.reverse| <= id then id + 1 else |v.reverse|) &&
      r.reverse[id] == name && r.forward == v.forward[name := id] &&
      (forall j :: 0 <= j < |r.reverse| && j != id ==>
        r.reverse[j] == if j < |v.reverse| then v.reverse[j] else "")
  {
    match LineEntry(line)
    case None => v
    case Some((id, name)) =>
      if id < 0 then v
      else
        var grown := if |v.reverse| <= id then v.reverse + Padding(id + 1 - |v.reverse|) else v.reverse;
        Vocabulary(v.forward[name := id], grown[id := name], v.frozen)
  }

  /** The `load` loop over `lines`, starting from `v`. */
  function LoadLines(v: Vocabulary, lines: seq<string>): (r: Vocabulary)
    requires forall j :: 0 <= j < |lines| ==> LoadDefined(lines[j])
    ensures r.frozen == v.frozen && |v.reverse| <= |r.reverse|
    ensures forall j :: 0 <= j < |lines| ==> StoredBelow(lines[j], |r.reverse|)
  {
    if lines == [] then v
    else
      var init := lines[..|lines| - 1];
      assert forall j :: 0 <= j < |init| ==> init[j] == lines[j];
      var u := LoadLines(v, init);
      var r := LoadLine(u, lines[|lines| - 1]);
      LoadLineStores(u, lines[|lines| - 1]);
      StoredBelowMono(init, |u.reverse|, |r.reverse|);
      r
  }

  /** A loaded line never shrinks the table, and a stored id lies inside it. */
  lemma LoadLineStores(v: Vocabulary, line: string)
    requires LoadDefined(line)
    ensures |v.reverse| <= |LoadLine(v, line).reverse| && StoredBelow(line, |LoadLine(v, line).reverse|)
  {
  }

  /** A line that `load` stores puts its name at an index below `n`. */
  predicate StoredBelow(line: string, n: int)
  {
    LineEntry(line).Some? && LineEntry(line).value.0 >= 0 ==> LineEntry(line).value.0 < n
  }

  lemma StoredBelowMono(lines: seq<string>, n: int, m: int)
    requires n <= m && forall j :: 0 <= j < |lines| ==> StoredBelow(lines[j], n)
    ensures forall j :: 0 <= j < |lines| ==> StoredBelow(lines[j], m)
  {
  }

  /** The encoder after a `load` that opened its file: cleared, refilled from the lines, frozen. */
  function Loaded(lines: seq<string>): (r: Vocabulary)
    requires forall j :: 0 <= j < |lines| ==> LoadDefined(lines[j])
    ensures r.frozen
  {
    LoadLines(EMPTY, lines).(frozen := true)
  }

  /** Where each name last occurs in `reverse`: the forward map a load of `reverse`'s lines builds. */
  function LastIndex(reverse: seq<string>): (m: map<string, int>)
    ensures forall s :: s in m <==> s in reverse
    ensures forall s :: s in m ==> 0 <= m[s] < |reverse| && reverse[m[s]] == s
  {
    if reverse == [] then map[]
    else
      var n := |reverse| - 1;
      var m := LastIndex(reverse[..n]);
      assert forall s :: s in reverse[..n] ==> s in reverse;
      assert reverse == reverse[..n] + [reverse[n]];
      m[reverse[n] := n]
  }

  /** The position `LastIndex` gives a name is its last one: the name does not occur after it. */
  lemma {:induction false} LastIndexIsLast(reverse: seq<string>, s: string, j: int)
    requires s in LastIndex(reverse) && LastIndex(reverse)[s] < j < |reverse|
    ensures reverse[j] != s
  {
    var n := |reverse| - 1;
    if s != reverse[n] && j < n {
      LastIndexIsLast(reverse[..n], s, j);
      assert reverse[..n][j] == reverse[j];
    }
  }

  /** A saved line is read back as the entry it was written from. */
  lemma SaveLineEntry(i: nat, name: string)
    requires i < Numbers.INT_MAX
    ensures LineEntry(SaveLine(i, name)) == Some((i, name)) && LoadDefined(SaveLine(i, name))
  {
    var digits := Numbers.NatToString(i);
    var line := SaveLine(i, name);
    assert line == digits + [','] + name;
    assert Tokenizer.Free(digits, ',') by {
      forall j | 0 <= j < |digits| ensures digits[j] != ',' {
        assert Numbers.IsDigit(digits[j]);
      }
    }
    Tokenizer.FindFirstAt(digits, ',', name);
    assert line[..|digits|] == digits;
    assert line[|digits| + 1..] == name;
    Numbers.StoiOfNatToString(i);
  }

  /** The saved line for the next entry of a table is read back as that entry. */
  lemma LoadSaveLine(v: Vocabulary, name: string)
    requires |v.reverse| < Numbers.INT_MAX
    ensures LoadDefined(SaveLine(|v.reverse|, name))
    ensures LoadLine(v, SaveLine(|v.reverse|, name)) ==
      Vocabulary(v.forward[name := |v.reverse|], v.reverse + [name], v.frozen)
  {
    SaveLineEntry(|v.reverse|, name);
    var r := LoadLine(v, SaveLine(|v.reverse|, name));
    assert r.reverse == v.reverse + [name];
  }

  /** `load` is defined on every line `save` writes. */
  lemma SavedLinesDefined(reverse: seq<string>)
    requires |reverse| <= Numbers.INT_MAX
    ensures forall j :: 0 <= j < |reverse| ==> LoadDefined(SaveLines(reverse)[j])
  {
    forall j | 0 <= j < |reverse|
      ensures LoadDefined(SaveLines(reverse)[j])
    {
      SaveLineEntry(j, reverse[j]);
    }
  }

  /** Loading the lines saved from `reverse`, from a fresh encoder, gives back `reverse`. */
  lemma {:induction false} LoadSavedLines(reverse: seq<string>)
    requires |reverse| <= Numbers.INT_MAX
    ensures forall j :: 0 <= j < |reverse| ==> LoadDefined(SaveLines(reverse)[j])
    ensures LoadLines(EMPTY, SaveLines(reverse)) == Vocabulary(LastIndex(reverse), reverse, false)
  {
    SavedLinesDefined(reverse);
    if reverse != [] {
      var n := |reverse| - 1;
      LoadSavedLines(reverse[..n]);
      var lines := SaveLines(reverse);
      assert lines[..n] == SaveLines(reverse[..n]);
      var u := LoadLines(EMPTY, lines[..n]);
      LoadSaveLine(u, reverse[n]);
      assert reverse[..n] + [reverse[n]] == reverse;
    }
  }


  /** In a bijective encoder the forward map sends each name to its only position. */
  lemma BijectiveLastIndex(v: Vocabulary)
    requires Bijective(v)
    ensures LastIndex(v.reverse) == v.forward
  {
    var m := LastIndex(v.reverse);
    forall s | s in m ensures s in v.forward && v.forward[s] == m[s] {
      assert v.reverse[m[s]] == s;
    }
    forall s | s in v.forward ensures s in m {
      assert v.reverse[v.forward[s]] == s;
    }
  }

  /**
   * Save then load: reading back the text `save` writes restores the reverse
   * table, the forward map when the encoder was bijective, and leaves the
   * encoder frozen, provided no name holds a newline.
   */
  lemma SaveLoadRoundTrip(v: Vocabulary)
    requires |v.reverse| <= Numbers.INT_MAX
    requires forall i :: 0 <= i < |v.reverse| ==> Tokenizer.Free(v.reverse[i], '\n')
    ensures var lines := Tokenizer.Fields(SavedText(v.reverse), '\n');
      (forall j :: 0 <= j < |lines| ==> LoadDefined(lines[j])) &&
      Loaded(lines).reverse == v.reverse && Loaded(lines).frozen &&
      (Bijective(v) ==> Loaded(lines) == v.(frozen := true))
  {
    var lines := SaveLines(v.reverse);
    forall j | 0 <= j < |lines| ensures Tokenizer.Free(lines[j], '\n') {
      var digits := Numbers.NatToString(j);
      assert lines[j] == digits + [','] + v.reverse[j];
      forall k | 0 <= k < |lines[j]| ensures lines[j][k] != '\n' {
        if k < |digits| {
          assert Numbers.IsDigit(digits[k]);
        } else if k > |digits| {
          assert lines[j][k] == v.reverse[j][k - |digits| - 1];
        }
      }
    }
    Tokenizer.ReadTerminated(lines, '\n');
    LoadSavedLines(v.reverse);
    if Bijective(v) {
      BijectiveLastIndex(v);
    }
  }

  /** The freezable label encoder of Encoders.cpp. */
  class LabelEncoder {
    var forwardMap: map<string, int>
    var reverseMap: seq<string>
    var frozen: bool

    function State(): Vocabulary
      reads this
    {
      Vocabulary(forwardMap, reverseMap, frozen)
    }

    constructor ()
      ensures State() == EMPTY
    {
      forwardMap := map[];
      reverseMap := [];
      frozen := false;
    }

    method Encode(s: string) returns (id: int)
      modifies this
      ensures (State(), id) == VocabEncode(old(State()), s)
    {
      var trimmed := Strings.Trim(s);
      if trimmed == [] {
        return -1;
      }
      if trimmed in forwardMap {
        return forwardMap[trimmed];
      }
      if frozen {
        return -1;
      }
      id := |reverseMap|;
      forwardMap := forwardMap[trimmed := id];
      reverseMap := reverseMap + [trimmed];
    }

    method Decode(id: int) returns (r: string)
      ensures r == VocabDecode(State(), id)
    {
      if 0 <= id < |reverseMap| {
        r := reverseMap[id];
      } else {
        r := UNKNOWN;
      }
    }

    method Freeze()
      modifies this`frozen
      ensures State() == old(State()).(frozen := true)
    {
      frozen := true;
    }

    method Unfreeze()
      modifies this`frozen
      ensures State() == old(State()).(frozen := false)
    {
      frozen := false;
    }

    method NumClasses() returns (n: nat)
      ensures n == |reverseMap|
    {
      n := |reverseMap|;
    }

    /** The text `save` writes to its file, one `i,name` line per entry. */
    method Save() returns (text: string)
      ensures text == SavedText(reverseMap)
    {
      text := "";
      var i := 0;
      while i < |reverseMap|
        invariant 0 <= i <= |reverseMap|
        invariant text == Tokenizer.Terminated(SaveLines(reverseMap[..i]), '\n')
      {
        var line := Numbers.NatToString(i) + "," + reverseMap[i];
        TerminatedSnoc(SaveLines(reverseMap[..i]), line, '\n');
        assert SaveLines(reverseMap[..i + 1]) == SaveLines(reverseMap[..i]) + [line];
        text := text + line + "\n";
        i := i + 1;
      }
      assert reverseMap[..i] == reverseMap;
    }

    /**
     * `load`: `file` is the file's text, `None` when it cannot be opened,
     * which leaves the encoder as it was.
     */
    method Load(file: Option<string>)
      requires file.Some? ==> forall line :: line in Tokenizer.Fields(file.value, '\n') ==> LoadDefined(line)
      modifies this
      ensures file.None? ==> State() == old(State())
      ensures file.Some? ==> State() == Loaded(Tokenizer.Fields(file.value, '\n'))
    {
      if file.None? {
        return;
      }
      var lines := Tokenizer.GetlineFields(file.value, '\n');
      forwardMap := map[];
      reverseMap := [];
      frozen := false;
      var i := 0;
      while i < |lines|
        invariant 0 <= i <= |lines|
        invariant State() == LoadLines(EMPTY, lines[..i])
      {
        var line := lines[i];
        assert lines[..i + 1][..i] == lines[..i];
        var commaPos := Tokenizer.FindFirst(line, ',');
        if commaPos < |line| {
          var parsed := Numbers.Stoi(line[..commaPos]);
          if parsed.Some? && parsed.value >= 0 {
            var id := parsed.value;
            var name := line[commaPos + 1..];
            if |reverseMap| <= id {
              reverseMap := reverseMap + Padding(id + 1 - |reverseMap|);
            }
            reverseMap := reverseMap[id := name];
            forwardMap := forwardMap[name := id];
          }
        }
        i := i + 1;
      }
      assert lines[..i] == lines;
      frozen := true;
    }
  }

  lemma {:induction false} TerminatedSnoc(lines: seq<string>, line: string, d: char)
    ensures Tokenizer.Terminated(lines + [line], d) == Tokenizer.Terminated(lines, d) + line + [d]
  {
    if lines != [] {
      TerminatedSnoc(lines[1..], line, d);
      assert (lines + [line])[1..] == lines[1..] + [line];
    }
  }

  /* ---------------- hierarchical canton encoder ---------------- */

  /** The local ids of province `p`, empty when `p` has none yet (what `hierarchy[p]` creates). */
  function Children(h: map<int, map<string, int>>, p: int): map<string, int>
  {
    if p in h then h[p] else map[]
  }

  /** Every province numbers its cantons densely from 0, each local id used once. */
  predicate DenseLocal(h: map<int, map<string, int>>)
  {
    forall p :: p in h ==> LocalIdsDense(h[p])
  }

  predicate LocalIdsDense(c: map<string, int>)
  {
    (forall s :: s in c ==> 0 <= c[s] < |c|) &&
    (forall s, t :: s in c && t in c && c[s] == c[t] ==> s == t)
  }

  /**
   * `HierarchicalCantonEncoder::encode` on the hierarchy: a blank name
   * gives -1 and leaves the hierarchy alone; otherwise a name new to
   * province `p` gets local id equal to the province's child count, and
   * the result is `p * 1000` plus the name's local id. No other province
   * changes.
   */
  function CantonEncode(h: map<int, map<string, int>>, p: int, name: string): (r: (map<int, map<string, int>>, int))
    ensures Strings.Blank(name) ==> r == (h, -1)
    ensures !Strings.Blank(name) ==>
      p in r.0 && Strings.Trim(name) in r.0[p] &&
      r.1 == p * OFFSET_MULTIPLIER + r.0[p][Strings.Trim(name)]
    ensures !Strings.Blank(name) && Strings.Trim(name) in Children(h, p) ==> r.0 == h
    ensures !Strings.Blank(name) && Strings.Trim(name) !in Children(h, p) ==>
      r.0[p] == Children(h, p)[Strings.Trim(name) := |Children(h, p)|]
    ensures forall q :: q != p ==> (q in r.0 <==> q in h) && (q in h ==> r.0[q] == h[q])
  {
    var t := Strings.Trim(name);
    if t == [] then (h, -1)
    else
      var c := Children(h, p);
      var h' := if t in c then h else h[p := c[t := |c|]];
      (h', p * OFFSET_MULTIPLIER + h'[p][t])
  }

  lemma CantonEncodeBody(h: map<int, map<string, int>>, p: int, name: string, t: string, c: map<string, int>)
    requires t == Strings.Trim(name) && t != [] && c == Children(h, p)
    ensures CantonEncode(h, p, name) ==
      var h' := if t in c then h else h[p := c[t := |c|]]; (h', p * OFFSET_MULTIPLIER + h'[p][t])
  {
  }

  /** Encoding keeps every province's local ids dense from 0. */
  lemma CantonEncodeDense(h: map<int, map<string, int>>, p: int, name: string)
    requires DenseLocal(h)
    ensures DenseLocal(CantonEncode(h, p, name).0)
  {
    var t := Strings.Trim(name);
    var c := Children(h, p);
    if t != [] && t !in c {
      assert LocalIdsDense(c);
      assert |c[t := |c|]| == |c| + 1;
    }
  }

  /** Repeating an encoding returns the same value and changes nothing more. */
  lemma CantonEncodeTwice(h: map<int, map<string, int>>, p: int, name: string)
    ensures var (h', id) := CantonEncode(h, p, name); CantonEncode(h', p, name) == (h', id)
  {
  }

  /**
   * While every province has at most 1000 cantons, distinct (province,
   * canton) pairs of a dense hierarchy have distinct composite ids.
   */
  lemma CompositeUnique(h: map<int, map<string, int>>, p: int, s: string, q: int, t: string)
    requires DenseLocal(h)
    requires forall x :: x in h ==> |h[x]| <= OFFSET_MULTIPLIER
    requires p in h && s in h[p] && q in h && t in h[q]
    requires p * OFFSET_MULTIPLIER + h[p][s] == q * OFFSET_MULTIPLIER + h[q][t]
    ensures p == q && s == t
  {
    var a, b := h[p][s], h[q][t];
    assert 0 <= a < OFFSET_MULTIPLIER && 0 <= b < OFFSET_MULTIPLIER;
    assert (p - q) * OFFSET_MULTIPLIER == b - a;
  }

  /** The hierarchical encoder of Encoders.cpp (and of Server/HierarchicalCantonEncoder.cpp). */
  class HierarchicalCantonEncoder {
    var hierarchy: map<int, map<string, int>>

    constructor ()
      ensures hierarchy == map[]
    {
      hierarchy := map[];
    }

    method Encode(provId: int, cantonName: string) returns (id: int)
      modifies this
      ensures (hierarchy, id) == CantonEncode(old(hierarchy), provId, cantonName)
    {
      var trimmed := Strings.Trim(cantonName);
      if trimmed == [] {
        return -1;
      }
      var children := if provId in hierarchy then hierarchy[provId] else map[];
      ghost var h := hierarchy;
      assert children == Children(h, provId);
      if trimmed !in children {
        var nextLocalId := |children|;
        hierarchy := hierarchy[provId := children[trimmed := nextLocalId]];
      }
      id := provId * OFFSET_MULTIPLIER + hierarchy[provId][trimmed];
      CantonEncodeBody(h, provId, cantonName, trimmed, children);
    }
  }
}
