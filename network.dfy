/**
 * The Network section (`src/components/network.rs`): for each configured
 * interface that the interface list has, a table row with its traffic and/or its
 * MAC address; without the traffic, the interface's name on a line of its own.
 */
module NetworkComponent {
  import opened Wrappers
  import opened Tools
  import opened Tables
  import opened Telemetry
  import opened Console

  /** `[network]`: the interfaces to show, in order, and what to show of each. */
  datatype Config = Config(interfaces: seq<string>, showMac: bool, showFlow: bool)

  /** The section with every field left at its default: nothing to show. */
  const Defaults := Config([], false, false)

  /** Rust's `char::is_whitespace`: the Unicode White_Space property. */
  predicate IsWhitespace(c: char)
  {
    c == ' ' || '\t' <= c <= '\r' || c == '\U{85}' || c == '\U{A0}' || c == '\U{1680}'
    || '\U{2000}' <= c <= '\U{200A}' || c == '\U{2028}' || c == '\U{2029}' || c == '\U{202F}'
    || c == '\U{205F}' || c == '\U{3000}'
  }

  /** `s.trim_start()`. */
  function TrimStart(s: string): string
  {
    if s != [] && IsWhitespace(s[0]) then TrimStart(s[1..]) else s
  }

  /** `s.trim_end()`. */
  function TrimEnd(s: string): string
  {
    if s != [] && IsWhitespace(s[|s| - 1]) then TrimEnd(s[..|s| - 1]) else s
  }

  /** `s.trim()`. */
  function Trim(s: string): string
  {
    TrimEnd(TrimStart(s))
  }

  /** `trim_start` drops exactly the leading whitespace: a suffix of `s` remains, starting with a non-blank. */
  lemma {:induction false} TrimStartDrops(s: string)
    ensures |TrimStart(s)| <= |s| && TrimStart(s) == s[|s| - |TrimStart(s)|..]
    ensures forall k :: 0 <= k < |s| - |TrimStart(s)| ==> IsWhitespace(s[k])
    ensures TrimStart(s) != [] ==> !IsWhitespace(TrimStart(s)[0])
  {
    if s != [] && IsWhitespace(s[0]) {
      TrimStartDrops(s[1..]);
      assert forall k :: 1 <= k < |s| ==> s[1..][k - 1] == s[k];
    }
  }

  /** `trim_end` drops exactly the trailing whitespace: a prefix of `s` remains, ending with a non-blank. */
  lemma {:induction false} TrimEndDrops(s: string)
    ensures |TrimEnd(s)| <= |s| && TrimEnd(s) == s[..|TrimEnd(s)|]
    ensures forall k :: |TrimEnd(s)| <= k < |s| ==> IsWhitespace(s[k])
    ensures TrimEnd(s) != [] ==> !IsWhitespace(TrimEnd(s)[|TrimEnd(s)| - 1])
  {
    if s != [] && IsWhitespace(s[|s| - 1]) {
      TrimEndDrops(s[..|s| - 1]);
    }
  }

  /**
   * `trim` removes whitespace from both ends and nothing else: what is left is a
   * slice of `s` that starts and ends with a non-whitespace character, and
   * trimming it again changes nothing.
   */
  lemma TrimmedSlice(s: string)
    ensures exists i, j :: 0 <= i <= j <= |s| && Trim(s) == s[i..j]
    ensures Trim(s) != [] ==> !IsWhitespace(Trim(s)[0]) && !IsWhitespace(Trim(s)[|Trim(s)| - 1])
    ensures Trim(Trim(s)) == Trim(s)
  {
    var a := TrimStart(s);
    var r := TrimEnd(a);
    TrimStartDrops(s);
    TrimEndDrops(a);
    var i := |s| - |a|;
    assert r == s[i..i + |r|] by {
      forall k | 0 <= k < |r|
        ensures r[k] == s[i + k]
      {
        assert r[k] == a[k];
      }
    }
    assert 0 <= i <= i + |r| <= |s| && Trim(s) == s[i..i + |r|];
    if r != [] {
      assert r[0] == a[0];
      TrimIdle(r);
    }
  }

  /** A string with no whitespace at either end is its own trim. */
  lemma TrimIdle(r: string)
    requires r != [] && !IsWhitespace(r[0]) && !IsWhitespace(r[|r| - 1])
    ensures Trim(r) == r
  {
    assert TrimStart(r) == r;
  }

  /** `"({green}▼{red}▲{reset}"`, shown before the bytes received. */
  const ReceivedIcon: StyledText := [Str("("), Fg(AnsiGreen), Str("\U{25BC}"), Fg(AnsiRed), Str("\U{25B2}"), FgReset]

  /** `"{red}▼{green}▲{reset}"`, shown before the bytes transmitted. */
  const TransmittedIcon: StyledText := [Fg(AnsiRed), Str("\U{25BC}"), Fg(AnsiGreen), Str("\U{25B2}"), FgReset]

  /** The six traffic cells: name, icon, received, "/", icon, transmitted with the closing ")". */
  function FlowCells(name: string, data: NetworkData): Row
  {
    [NewCell([Str(Trim(name))]), NewCell(ReceivedIcon), Cell(ByteStr(data.totalReceived), Right, None),
     NewCell([Str("/")]), NewCell(TransmittedIcon), Cell(ByteStr(data.totalTransmitted) + [Str(")")], Right, None)]
  }

  function MacCell(data: NetworkData): Cell
  {
    NewCell([Str("mac: " + data.macAddress)])
  }

  /** The row of one interface: the traffic cells when shown, then the MAC cell when shown. */
  function InterfaceRow(cfg: Config, name: string, data: NetworkData): Row
  {
    (if cfg.showFlow then FlowCells(name, data) else []) + (if cfg.showMac then [MacCell(data)] else [])
  }

  /** The six traffic cells, in order. */
  lemma FlowLayout(name: string, data: NetworkData)
    ensures var cells := FlowCells(name, data);
            && |cells| == 6
            && cells[0].content == [Str(Trim(name))] && cells[1].content == ReceivedIcon
            && cells[2].content == ByteStr(data.totalReceived) && cells[3].content == [Str("/")]
            && cells[4].content == TransmittedIcon
            && cells[5].content == ByteStr(data.totalTransmitted) + [Str(")")]
  {
  }

  /**
   * The layout of a row: with traffic, the trimmed name, the received icon and
   * count, "/", the transmitted icon and count, in that order; with the MAC
   * address, one "mac: ..." cell after them, and it comes last.
   */
  lemma RowLayout(cfg: Config, name: string, data: NetworkData)
    ensures var row := InterfaceRow(cfg, name, data);
            && |row| == (if cfg.showFlow then 6 else 0) + (if cfg.showMac then 1 else 0)
            && (cfg.showFlow ==> row[..6] == FlowCells(name, data))
            && (cfg.showMac ==> row[|row| - 1] == MacCell(data))
  {
    var row := InterfaceRow(cfg, name, data);
    var flow := if cfg.showFlow then FlowCells(name, data) else [];
    var mac := if cfg.showMac then [MacCell(data)] else [];
    assert row == flow + mac;
    FlowLayout(name, data);
    if cfg.showFlow {
      assert row[..6] == flow;
    }
  }

  /** The configured interfaces that the interface list has, in configured order. */
  function Present(nets: map<string, NetworkData>, names: seq<string>): (r: seq<string>)
    ensures forall k :: 0 <= k < |r| ==> r[k] in nets
  {
    if names == [] then []
    else
      var rest := Present(nets, names[..|names| - 1]);
      var name := names[|names| - 1];
      if name in nets then rest + [name] else rest
  }

  /** The positions in `names` of the interfaces the list has. */
  function Positions(nets: map<string, NetworkData>, names: seq<string>): seq<nat>
  {
    if names == [] then []
    else
      var rest := Positions(nets, names[..|names| - 1]);
      if names[|names| - 1] in nets then rest + [|names| - 1] else rest
  }

  /**
   * Interfaces missing from the list are skipped, without error, and the others
   * keep the configured order.
   */
  lemma {:induction false} PresentExactly(nets: map<string, NetworkData>, names: seq<string>)
    ensures |Present(nets, names)| == |Positions(nets, names)|
    ensures forall k :: 0 <= k < |Positions(nets, names)| ==> Positions(nets, names)[k] < |names|
    ensures forall k, l :: 0 <= k < l < |Positions(nets, names)| ==> Positions(nets, names)[k] < Positions(nets, names)[l]
    ensures forall j :: 0 <= j < |names| ==> (j in Positions(nets, names) <==> names[j] in nets)
    ensures forall k :: 0 <= k < |Positions(nets, names)| ==> Present(nets, names)[k] == names[Positions(nets, names)[k]]
  {
    if names != [] {
      var n := |names| - 1;
      var prefix := names[..n];
      assert forall j :: 0 <= j < n ==> prefix[j] == names[j];
      PresentExactly(nets, prefix);
      if names[n] in nets {
        assert Positions(nets, names) == Positions(nets, prefix) + [n];
        assert Present(nets, names) == Present(nets, prefix) + [names[n]];
      } else {
        assert Positions(nets, names) == Positions(nets, prefix);
        assert Present(nets, names) == Present(nets, prefix);
      }
    }
  }

  /** The rows added to the table, one per present interface. */
  function RowsFor(cfg: Config, nets: map<string, NetworkData>, names: seq<string>): seq<Row>
    requires forall k :: 0 <= k < |names| ==> names[k] in nets
  {
    seq(|names|, k requires 0 <= k < |names| => InterfaceRow(cfg, names[k], nets[names[k]]))
  }

  /** Without traffic, each present interface's name, untrimmed, on a line of its own. */
  function NameLinesFor(cfg: Config, names: seq<string>): seq<Output>
  {
    if cfg.showFlow then [] else seq(|names|, k requires 0 <= k < |names| => Indented([Str(names[k])]))
  }

  /** The largest number of cells in any row: the number of columns the table grows to. */
  function Widest(rows: seq<Row>): (w: nat)
    ensures forall k :: 0 <= k < |rows| ==> |rows[k]| <= w
    ensures rows != [] ==> exists k :: 0 <= k < |rows| && |rows[k]| == w
    ensures rows == [] ==> w == 0
  {
    if rows == [] then 0
    else
      var rest := Widest(rows[..|rows| - 1]);
      var last := |rows[|rows| - 1]|;
      if rest < last then last else rest
  }

  /** The padding loop: columns 1 to 4 get padding (1, 0), the others keep theirs. */
  function PadColumns(cols: seq<Padding>): seq<Padding>
  {
    seq(|cols|, i requires 0 <= i < |cols| => if 1 <= i <= 4 then Padding(1, 0) else cols[i])
  }

  /** The columns a table grows to while `n`-cell rows are added. */
  function DefaultColumns(n: nat): seq<Padding>
  {
    seq(n, _ => DefaultPadding)
  }

  /** The table after the rows loop and before the padding loop. */
  function UnpaddedTable(cfg: Config, nets: map<string, NetworkData>, names: seq<string>): TableView
  {
    var rows := RowsFor(cfg, nets, Present(nets, names));
    TableView(NothingPreset, Dynamic, None, rows, DefaultColumns(Widest(rows)))
  }

  function TableOf(cfg: Config, nets: map<string, NetworkData>): TableView
  {
    var t := UnpaddedTable(cfg, nets, cfg.interfaces);
    t.(columns := PadColumns(t.columns))
  }

  /**
   * `print`: nothing when neither traffic nor MAC is shown; otherwise the title,
   * the name lines, the table, and a blank line.  The shared width is not used.
   */
  function Section(cfg: Config, nets: map<string, NetworkData>): (r: Printed)
    ensures r.fault.None?
    ensures r == Nothing <==> !cfg.showFlow && !cfg.showMac
  {
    if !cfg.showFlow && !cfg.showMac then Nothing
    else
      Printed([Say("Network:")] + NameLinesFor(cfg, Present(nets, cfg.interfaces)) + [WholeTable(TableOf(cfg, nets)), Blank],
              None)
  }

  /**
   * The interfaces loop: a new table with a row per present interface, and,
   * without traffic, the name lines printed on the way.
   */
  method FillTable(cfg: Config, nets: map<string, NetworkData>) returns (names: seq<Output>, table: Table)
    ensures fresh(table)
    ensures names == NameLinesFor(cfg, Present(nets, cfg.interfaces))
    ensures table.View() == UnpaddedTable(cfg, nets, cfg.interfaces)
  {
    names := [];
    table := new Table();
    table.LoadPreset(NothingPreset);
    table.SetContentArrangement(Dynamic);
    ghost var present: seq<string> := [];
    for k := 0 to |cfg.interfaces|
      invariant present == Present(nets, cfg.interfaces[..k])
      invariant names == NameLinesFor(cfg, present)
      invariant table.View() == TableView(NothingPreset, Dynamic, None, RowsFor(cfg, nets, present),
                                          DefaultColumns(Widest(RowsFor(cfg, nets, present))))
    {
      PresentStep(nets, cfg.interfaces, k);
      var interface := cfg.interfaces[k];
      if interface !in nets {
        continue;
      }
      if !cfg.showFlow {
        names := names + [Indented([Str(interface)])];
      }
      var row := BuildRow(cfg, interface, nets[interface]);
      StepTable(cfg, nets, present, interface);
      table.AddRow(row);
      present := present + [interface];
    }
    assert cfg.interfaces[..|cfg.interfaces|] == cfg.interfaces;
  }

  /** The cells of one interface's row, pushed one after another. */
  method BuildRow(cfg: Config, name: string, data: NetworkData) returns (row: Row)
    ensures row == InterfaceRow(cfg, name, data)
  {
    row := [];
    if cfg.showFlow {
      row := row + [NewCell([Str(Trim(name))])];
      row := row + [NewCell(ReceivedIcon)];
      row := row + [Cell(ByteStr(data.totalReceived), Right, None)];
      row := row + [NewCell([Str("/")])];
      row := row + [NewCell(TransmittedIcon)];
      row := row + [Cell(ByteStr(data.totalTransmitted) + [Str(")")], Right, None)];
      assert row == FlowCells(name, data);
    }
    ghost var flow := row;
    if cfg.showMac {
      row := row + [MacCell(data)];
    }
    assert row == flow + (if cfg.showMac then [MacCell(data)] else []);
  }

  lemma PresentStep(nets: map<string, NetworkData>, names: seq<string>, k: nat)
    requires k < |names|
    ensures Present(nets, names[..k + 1]) ==
            if names[k] in nets then Present(nets, names[..k]) + [names[k]] else Present(nets, names[..k])
  {
    assert names[..k + 1][..k] == names[..k];
  }

  /** Adding the next present interface's row, and its name line when there is one. */
  lemma StepTable(cfg: Config, nets: map<string, NetworkData>, before: seq<string>, name: string)
    requires forall k :: 0 <= k < |before| ==> before[k] in nets
    requires name in nets
    ensures NameLinesFor(cfg, before + [name]) ==
            NameLinesFor(cfg, before) + (if cfg.showFlow then [] else [Indented([Str(name)])])
    ensures var rows := RowsFor(cfg, nets, before);
            var rows' := RowsFor(cfg, nets, before + [name]);
            WithRow(TableView(NothingPreset, Dynamic, None, rows, DefaultColumns(Widest(rows))),
                    InterfaceRow(cfg, name, nets[name]))
            == TableView(NothingPreset, Dynamic, None, rows', DefaultColumns(Widest(rows')))
  {
    var rows := RowsFor(cfg, nets, before);
    var row := InterfaceRow(cfg, name, nets[name]);
    assert RowsFor(cfg, nets, before + [name]) == rows + [row];
    assert (rows + [row])[..|rows|] == rows;
  }

  /** The padding loop over every column of the table. */
  method PadTable(table: Table)
    modifies table
    ensures table.View() == old(table.View()).(columns := PadColumns(old(table.columns)))
  {
    ghost var unpadded := table.View();
    for i := 0 to |table.columns|
      invariant table.View() == unpadded.(columns := table.columns)
      invariant |table.columns| == |unpadded.columns|
      invariant forall j :: 0 <= j < i ==> table.columns[j] == if 1 <= j <= 4 then Padding(1, 0) else unpadded.columns[j]
      invariant forall j :: i <= j < |table.columns| ==> table.columns[j] == unpadded.columns[j]
    {
      if 1 <= i <= 4 {
        table.SetColumnPadding(i, Padding(1, 0));
      }
    }
    assert table.columns == PadColumns(unpadded.columns);
  }

  method Print(cfg: Config, nets: map<string, NetworkData>) returns (out: Printed)
    ensures out == Section(cfg, nets)
  {
    if !cfg.showFlow && !cfg.showMac {
      return Nothing;
    }
    var names, table := FillTable(cfg, nets);
    PadTable(table);
    out := Printed([Say("Network:")] + names + [WholeTable(table.View()), Blank], None);
  }

  lemma PaddedDefaults(n: nat)
    ensures |PadColumns(DefaultColumns(n))| == n
    ensures forall i :: 0 <= i < n ==> PadColumns(DefaultColumns(n))[i] == if 1 <= i <= 4 then Padding(1, 0) else DefaultPadding
  {
  }

  /**
   * The table's rows and columns: one row per present interface, in order; as
   * many columns as the widest row, with padding (1, 0) on columns 1 to 4 and
   * the default padding on every other.
   */
  lemma TableLayout(cfg: Config, nets: map<string, NetworkData>)
    ensures var present := Present(nets, cfg.interfaces);
            var t := TableOf(cfg, nets);
            && |t.rows| == |present|
            && (forall k :: 0 <= k < |present| ==> t.rows[k] == InterfaceRow(cfg, present[k], nets[present[k]]))
            && |t.columns| == (if present == [] then 0 else (if cfg.showFlow then 6 else 0) + (if cfg.showMac then 1 else 0))
            && (forall i :: 0 <= i < |t.columns| ==> t.columns[i] == if 1 <= i <= 4 then Padding(1, 0) else DefaultPadding)
  {
    var present := Present(nets, cfg.interfaces);
    var rows := RowsFor(cfg, nets, present);
    var width := (if cfg.showFlow then 6 else 0) + (if cfg.showMac then 1 else 0);
    forall k | 0 <= k < |rows|
      ensures |rows[k]| == width
    {
      RowLayout(cfg, present[k], nets[present[k]]);
    }
    assert Widest(rows) == if rows == [] then 0 else width;
    PaddedDefaults(Widest(rows));
  }

  /** Without traffic, each present interface gets a name line, in order; with traffic, none does. */
  lemma NameLines(cfg: Config, nets: map<string, NetworkData>)
    ensures var present := Present(nets, cfg.interfaces);
            var names := NameLinesFor(cfg, present);
            && |names| == (if cfg.showFlow then 0 else |present|)
            && (forall k :: 0 <= k < |names| ==> names[k] == Indented([Str(present[k])]))
  {
  }

  /** Left at its defaults, the section shows neither flow nor MAC, so it prints nothing. */
  lemma DefaultsShowNothing(nets: map<string, NetworkData>)
    ensures Section(Defaults, nets) == Nothing
  {
  }
}
