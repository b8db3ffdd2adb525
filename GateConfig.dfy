/**
 * The gate catalogue (server/config/gateConfig.js): four terminals with their gates and the
 * aircraft categories they serve, the aircraft-to-category mapping, and the two lists built
 * from them.
 */
module GateConfig {
  import opened Wrappers
  import Paging

  datatype Category = NarrowBody | WideBody | Regional

  datatype Terminal = Terminal(code: string, name: string, gates: seq<string>, types: seq<Category>)

  const TerminalA := Terminal("A", "Terminal A - Domestic",
    ["A1", "A2", "A3", "A4", "A5", "A6", "A7", "A8", "A9", "A10", "A11", "A12"], [NarrowBody, Regional])
  const TerminalB := Terminal("B", "Terminal B - International",
    ["B1", "B2", "B3", "B4", "B5", "B6", "B7", "B8", "B9", "B10"], [WideBody, NarrowBody])
  const TerminalC := Terminal("C", "Terminal C - International Wide-body",
    ["C1", "C2", "C3", "C4", "C5", "C6", "C7", "C8"], [WideBody])
  const TerminalD := Terminal("D", "Terminal D - Regional",
    ["D1", "D2", "D3", "D4", "D5", "D6"], [Regional, NarrowBody])

  /** The terminals in declaration order, the order `Object.keys` visits them. */
  const Terminals: seq<Terminal> := [TerminalA, TerminalB, TerminalC, TerminalD]

  /** `aircraftGateMapping`: the category of each listed aircraft type. */
  function CategoryOf(aircraftType: string): (c: Option<Category>)
    ensures c == Some(NarrowBody) <==> aircraftType in {"A320", "B737"}
    ensures c == Some(WideBody) <==> aircraftType in {"A330", "B777", "B787", "A380"}
    ensures c != Some(Regional)
  {
    if aircraftType == "A320" || aircraftType == "B737" then Some(NarrowBody)
    else if aircraftType in {"A330", "B777", "B787", "A380"} then Some(WideBody)
    else None
  }

  /** One element of the lists: the gate with its terminal's code, name and categories. */
  datatype GateEntry = GateEntry(gate: string, terminal: string, terminalName: string, types: seq<Category>)

  function Entry(t: Terminal, gate: string): GateEntry {
    GateEntry(gate, t.code, t.name, t.types)
  }

  /** The entries of one terminal, in the order its gates are listed. */
  function Entries(t: Terminal): (r: seq<GateEntry>)
    ensures |r| == |t.gates|
    ensures forall j :: 0 <= j < |r| ==> r[j] == Entry(t, t.gates[j])
  {
    seq(|t.gates|, j requires 0 <= j < |t.gates| => Entry(t, t.gates[j]))
  }

  /** Whether a terminal is visited: every terminal when no category is given, else those serving it. */
  predicate Serves(t: Terminal, category: Option<Category>) {
    category.None? || category.value in t.types
  }

  /** The entries one terminal contributes. */
  function Part(t: Terminal, category: Option<Category>): seq<GateEntry> {
    if Serves(t, category) then Entries(t) else []
  }

  /** The entries of the visited terminals of `ts`, terminal after terminal. */
  function GatesOf(ts: seq<Terminal>, category: Option<Category>): seq<GateEntry> {
    if ts == [] then [] else GatesOf(ts[..|ts| - 1], category) + Part(ts[|ts| - 1], category)
  }

  /** getAllGates: a nested loop pushing one entry per gate of every terminal. */
  method GetAllGates() returns (gates: seq<GateEntry>)
    ensures gates == GatesOf(Terminals, None)
  {
    gates := CollectGates(Terminals, None);
  }

  /** getCompatibleGates: every gate for an unmapped type, else the gates of the terminals serving its category. */
  method GetCompatibleGates(aircraftType: string) returns (gates: seq<GateEntry>)
    ensures gates == GatesOf(Terminals, CategoryOf(aircraftType))
  {
    var category := CategoryOf(aircraftType);
    if category.None? {
      gates := GetAllGates();
      return;
    }
    gates := CollectGates(Terminals, category);
  }

  /** The two `forEach` loops shared by both lists. */
  method CollectGates(terminals: seq<Terminal>, category: Option<Category>) returns (gates: seq<GateEntry>)
    ensures gates == GatesOf(terminals, category)
  {
    gates := [];
    for i := 0 to |terminals|
      invariant gates == GatesOf(terminals[..i], category)
    {
      var terminal := terminals[i];
      assert terminals[..i + 1][..i] == terminals[..i];
      if Serves(terminal, category) {
        var before := gates;
        for j := 0 to |terminal.gates|
          invariant gates == before + Entries(terminal)[..j]
        {
          gates := gates + [Entry(terminal, terminal.gates[j])];
          assert Entries(terminal)[..j + 1] == Entries(terminal)[..j] + [Entry(terminal, terminal.gates[j])];
        }
        assert Entries(terminal)[..|terminal.gates|] == Entries(terminal);
      }
    }
    assert terminals[..|terminals|] == terminals;
  }

  /** The entries that serve `c`. */
  function HasCategory(c: Category): GateEntry -> bool {
    (e: GateEntry) => c in e.types
  }

  /** The compatible gates are the entries of the full list whose categories include the aircraft's, in the same order. */
  lemma {:induction false} CompatibleIsFilter(ts: seq<Terminal>, c: Category)
    ensures GatesOf(ts, Some(c)) == Paging.Filter(GatesOf(ts, None), HasCategory(c))
    decreases |ts|
  {
    if ts != [] {
      var t := ts[|ts| - 1];
      CompatibleIsFilter(ts[..|ts| - 1], c);
      Paging.FilterAppend(GatesOf(ts[..|ts| - 1], None), Entries(t), HasCategory(c));
      EntriesFilter(t, c);
    }
  }

  lemma {:induction false} EntriesFilter(t: Terminal, c: Category)
    ensures Paging.Filter(Entries(t), HasCategory(c)) == if c in t.types then Entries(t) else []
  {
    FilterUniform(Entries(t), HasCategory(c), c in t.types);
  }

  /** Filtering a list whose elements all pass, or all fail, keeps all or nothing. */
  lemma {:induction false} FilterUniform<T(!new)>(s: seq<T>, keep: T -> bool, pass: bool)
    requires forall j :: 0 <= j < |s| ==> keep(s[j]) == pass
    ensures Paging.Filter(s, keep) == if pass then s else []
    decreases |s|
  {
    if s != [] {
      FilterUniform(s[1..], keep, pass);
    }
  }

  /** Appending a terminal appends its part. */
  lemma GatesOfSnoc(ts: seq<Terminal>, t: Terminal, category: Option<Category>)
    ensures GatesOf(ts + [t], category) == GatesOf(ts, category) + Part(t, category)
  {
    assert (ts + [t])[..|ts|] == ts;
  }

  /** The list for `category`, terminal by terminal. */
  lemma CatalogueGates(category: Option<Category>)
    ensures GatesOf(Terminals, category) ==
              Part(TerminalA, category) + Part(TerminalB, category) + Part(TerminalC, category) + Part(TerminalD, category)
  {
    FourTerminals(TerminalA, TerminalB, TerminalC, TerminalD, category);
  }

  lemma FourTerminals(a: Terminal, b: Terminal, c: Terminal, d: Terminal, category: Option<Category>)
    ensures GatesOf([a, b, c, d], category) == Part(a, category) + Part(b, category) + Part(c, category) + Part(d, category)
  {
    assert GatesOf([a], category) == Part(a, category) by {
      GatesOfSnoc([], a, category);
      assert [] + [a] == [a];
    }
    assert GatesOf([a, b], category) == GatesOf([a], category) + Part(b, category) by {
      GatesOfSnoc([a], b, category);
      assert [a] + [b] == [a, b];
    }
    assert GatesOf([a, b, c], category) == GatesOf([a, b], category) + Part(c, category) by {
      GatesOfSnoc([a, b], c, category);
      assert [a, b] + [c] == [a, b, c];
    }
    assert GatesOf([a, b, c, d], category) == GatesOf([a, b, c], category) + Part(d, category) by {
      GatesOfSnoc([a, b, c], d, category);
      assert [a, b, c] + [d] == [a, b, c, d];
    }
  }

  /** The full list has 12 + 10 + 8 + 6 = 36 entries. */
  lemma AllGatesCount()
    ensures |GatesOf(Terminals, None)| == 36
  {
    CatalogueGates(None);
  }

  /** Narrow-body aircraft get the gates of terminals A, B and D. */
  lemma NarrowBodyTerminals()
    ensures GatesOf(Terminals, Some(NarrowBody)) == Entries(TerminalA) + Entries(TerminalB) + Entries(TerminalD)
  {
    CatalogueGates(Some(NarrowBody));
    assert Part(TerminalC, Some(NarrowBody)) == [];
  }

  /** Wide-body aircraft get the gates of terminals B and C. */
  lemma WideBodyTerminals()
    ensures GatesOf(Terminals, Some(WideBody)) == Entries(TerminalB) + Entries(TerminalC)
  {
    CatalogueGates(Some(WideBody));
    assert Part(TerminalA, Some(WideBody)) == [] && Part(TerminalD, Some(WideBody)) == [];
  }
}
