/**
 * The connection header of an SQL table file: `%`-prefixed lines before the
 * data, a `CONNECTION` section of `name: value` lines and a `DOMAIN`
 * section. `SqlReader._parse_header` returns the connection parameters and
 * an (always empty) map of type hints.
 */
module SqlReader {
  import opened Wrappers
  import opened Text

  /** The characters `line.strip('% ')` removes from both ends. */
  const HeaderPadding: set<char> := {'%', ' '}

  /** `[line.strip('% ') for line in header.split('\n')]`. */
  function HeaderLines(header: string): (lines: seq<string>)
    ensures |lines| == |Split(header, '\n')|
    ensures forall k | 0 <= k < |lines| :: lines[k] == Strip(Split(header, '\n')[k], HeaderPadding)
  {
    var raw := Split(header, '\n');
    seq(|raw|, k requires 0 <= k < |raw| => Strip(raw[k], HeaderPadding))
  }

  /** The `section` variable: empty at first, then whichever marker line came last. */
  datatype Section = NoSection | Connection | Domain

  /** The section a marker line opens; `NoSection` for any other line. */
  function Marker(line: string): Section {
    if line == "CONNECTION" then Connection
    else if line == "DOMAIN" then Domain
    else NoSection
  }

  function NextSection(section: Section, line: string): Section {
    if Marker(line) == NoSection then section else Marker(line)
  }

  /**
   * A connection line `name: value`: split at the first colon only and
   * whitespace-stripped on both sides; a line without a colon gives nothing.
   */
  function Entry(line: string): (r: Option<(string, string)>)
    ensures r.Some? <==> ':' in line
  {
    var tokens := SplitOnce(line, ':');
    if |tokens| < 2 then None else Some((Strip(tokens[0], Whitespace), Strip(tokens[1], Whitespace)))
  }

  /** The `section` variable after the loop has seen `lines`. */
  function SectionAfter(lines: seq<string>): Section
    decreases |lines|
  {
    if lines == [] then NoSection
    else NextSection(SectionAfter(lines[..|lines| - 1]), lines[|lines| - 1])
  }

  /** The `connection_params` dictionary after the loop has seen `lines`. */
  function ParamsAfter(lines: seq<string>): map<string, string>
    decreases |lines|
  {
    if lines == [] then map[]
    else
      var params := ParamsAfter(lines[..|lines| - 1]);
      var entry := Entry(lines[|lines| - 1]);
      if SectionAfter(lines) == Connection && entry.Some? then params[entry.value.0 := entry.value.1] else params
  }

  /** One more line: the section moves on, then a connection-section entry is stored. */
  lemma AfterOneMore(lines: seq<string>, i: nat)
    requires i < |lines|
    ensures SectionAfter(lines[..i + 1]) == NextSection(SectionAfter(lines[..i]), lines[i])
    ensures var entry := Entry(lines[i]);
      ParamsAfter(lines[..i + 1])
      == if SectionAfter(lines[..i + 1]) == Connection && entry.Some? then ParamsAfter(lines[..i])[entry.value.0 := entry.value.1]
         else ParamsAfter(lines[..i])
  {
    assert lines[..i + 1][..i] == lines[..i];
  }

  /**
   * `_parse_header`: the connection parameters the header's connection
   * section names, and no type hints.
   */
  method ParseHeader(header: string) returns (connectionParams: map<string, string>, typeHints: map<string, string>)
    ensures connectionParams == ParamsAfter(HeaderLines(header))
    ensures typeHints == map[]
  {
    var lines := HeaderLines(header);
    connectionParams := map[];
    var section := NoSection;
    for i := 0 to |lines|
      invariant section == SectionAfter(lines[..i]) && connectionParams == ParamsAfter(lines[..i])
    {
      AfterOneMore(lines, i);
      var line := lines[i];
      if line == "CONNECTION" {
        section := Connection;
      } else if line == "DOMAIN" {
        section := Domain;
      }
      assert section == NextSection(SectionAfter(lines[..i]), line);
      if section == Connection {
        var tokens := SplitOnce(line, ':');
        if |tokens| < 2 {
          continue;
        }
        var name, value := Strip(tokens[0], Whitespace), Strip(tokens[1], Whitespace);
        connectionParams := connectionParams[name := value];
      }
    }
    assert lines[..|lines|] == lines;
    typeHints := map[];
  }

  /** The marker line at or before line `i` that is closest to it, searching backwards; `NoSection` if there is none. */
  function LastMarker(lines: seq<string>, i: int): Section
    requires 0 <= i < |lines|
    decreases i
  {
    if Marker(lines[i]) != NoSection then Marker(lines[i])
    else if i == 0 then NoSection
    else LastMarker(lines, i - 1)
  }

  /** Line `i` lies in the connection section: the last marker line at or before it is `CONNECTION`. */
  predicate InConnection(lines: seq<string>, i: int)
    requires 0 <= i < |lines|
  {
    LastMarker(lines, i) == Connection
  }

  /** Line `i` supplies a value for `name`. */
  predicate Supplies(lines: seq<string>, i: int, name: string) {
    0 <= i < |lines| && InConnection(lines, i) && Entry(lines[i]).Some? && Entry(lines[i]).value.0 == name
  }

  /** The search backwards from line `i` does not look past it. */
  lemma {:induction false} LastMarkerPrefix(lines: seq<string>, n: nat, i: int)
    requires n <= |lines| && 0 <= i < n
    ensures LastMarker(lines[..n], i) == LastMarker(lines, i)
    decreases i
  {
    assert lines[..n][i] == lines[i];
    if i > 0 {
      LastMarkerPrefix(lines, n, i - 1);
    }
  }

  /** The loop's `section` after all of `lines` is the last marker line's section, found searching backwards. */
  lemma {:induction false} ScanSection(lines: seq<string>)
    requires lines != []
    ensures SectionAfter(lines) == LastMarker(lines, |lines| - 1)
    decreases |lines|
  {
    var n := |lines|;
    if n > 1 {
      var init := lines[..n - 1];
      ScanSection(init);
      LastMarkerPrefix(lines, n - 1, n - 2);
    }
  }

  lemma SuppliesPrefix(lines: seq<string>, i: int, name: string)
    requires 0 <= i < |lines| - 1
    ensures Supplies(lines[..|lines| - 1], i, name) <==> Supplies(lines, i, name)
  {
    assert lines[..|lines| - 1][i] == lines[i];
    LastMarkerPrefix(lines, |lines| - 1, i);
  }

  /** The last line supplies a value exactly when the loop stores its entry. */
  lemma SuppliesLast(lines: seq<string>, name: string)
    requires lines != []
    ensures var entry := Entry(lines[|lines| - 1]);
      Supplies(lines, |lines| - 1, name) <==> SectionAfter(lines) == Connection && entry.Some? && entry.value.0 == name
  {
    ScanSection(lines);
  }

  /** The parameters are exactly the names some connection-section line with a colon supplies. */
  lemma {:induction false} ParamsNames(lines: seq<string>)
    ensures forall name :: name in ParamsAfter(lines) <==> exists i :: Supplies(lines, i, name)
    decreases |lines|
  {
    if lines != [] {
      var n := |lines|;
      var init := lines[..n - 1];
      ParamsNames(init);
      forall name
        ensures name in ParamsAfter(lines) <==> exists i :: Supplies(lines, i, name)
      {
        SuppliesLast(lines, name);
        if !Supplies(lines, n - 1, name) {
          if name in ParamsAfter(lines) {
            assert name in ParamsAfter(init);
            var i :| Supplies(init, i, name);
            SuppliesPrefix(lines, i, name);
          }
          if exists i :: Supplies(lines, i, name) {
            var i :| Supplies(lines, i, name);
            SuppliesPrefix(lines, i, name);
          }
        }
      }
    }
  }

  /** The value the last line at or before line `i` that supplies `name` gives it, searching backwards. */
  function SuppliedValue(lines: seq<string>, i: int, name: string): Option<string>
    requires -1 <= i < |lines|
    decreases i + 1
  {
    if i < 0 then None
    else if Supplies(lines, i, name) then Some(Entry(lines[i]).value.1)
    else SuppliedValue(lines, i - 1, name)
  }

  lemma {:induction false} SuppliedValuePrefix(lines: seq<string>, i: int, name: string)
    requires -1 <= i < |lines| - 1
    ensures SuppliedValue(lines[..|lines| - 1], i, name) == SuppliedValue(lines, i, name)
    decreases i + 1
  {
    if i >= 0 {
      SuppliesPrefix(lines, i, name);
      assert lines[..|lines| - 1][i] == lines[i];
      SuppliedValuePrefix(lines, i - 1, name);
    }
  }

  /** Each parameter holds the value of the LAST line that supplies its name: a repeated name keeps its last value. */
  lemma {:induction false} ParamsLastWins(lines: seq<string>, name: string)
    ensures var found := SuppliedValue(lines, |lines| - 1, name);
      && (name in ParamsAfter(lines) <==> found.Some?)
      && (name in ParamsAfter(lines) ==> ParamsAfter(lines)[name] == found.value)
    decreases |lines|
  {
    if lines != [] {
      var n := |lines|;
      var init := lines[..n - 1];
      var entry := Entry(lines[n - 1]);
      ParamsUnfold(lines);
      SuppliesLast(lines, name);
      if Supplies(lines, n - 1, name) {
        assert SuppliedValue(lines, n - 1, name) == Some(entry.value.1);
      } else {
        ParamsLastWins(init, name);
        SuppliedValuePrefix(lines, n - 2, name);
        assert SuppliedValue(lines, n - 1, name) == SuppliedValue(lines, n - 2, name);
      }
    }
  }

  lemma ParamsUnfold(lines: seq<string>)
    requires lines != []
    ensures var entry := Entry(lines[|lines| - 1]);
      ParamsAfter(lines)
      == if SectionAfter(lines) == Connection && entry.Some? then ParamsAfter(lines[..|lines| - 1])[entry.value.0 := entry.value.1]
         else ParamsAfter(lines[..|lines| - 1])
  {
  }

  /** The value keeps every colon after the first. */
  lemma ValueKeepsColons(name: string, value: string)
    requires ':' !in name
    ensures Entry(name + ":" + value) == Some((Strip(name, Whitespace), Strip(value, Whitespace)))
  {
    var rest := ":" + value;
    var line := name + rest;
    assert name + ":" + value == line;
    IndexOfAppend(name, rest, ':');
    assert IndexOf(rest, ':') == 0;
    assert line[..|name|] == name && line[|name| + 1..] == value;
    assert SplitOnce(line, ':') == [name, value];
  }

  /** The first line of a header, stripped, followed by the lines of the rest. */
  lemma HeaderLinesCons(first: string, rest: string)
    requires '\n' !in first
    ensures HeaderLines(first + "\n" + rest) == [Strip(first, HeaderPadding)] + HeaderLines(rest)
  {
    SplitAfter(first, rest, '\n');
    assert first + "\n" + rest == first + ['\n'] + rest;
    var lines := HeaderLines(first + "\n" + rest);
    var tail := HeaderLines(rest);
    assert |lines| == 1 + |tail|;
    forall k | 0 <= k < |lines|
      ensures lines[k] == ([Strip(first, HeaderPadding)] + tail)[k]
    {
      if k > 0 {
        assert Split(first + "\n" + rest, '\n')[k] == Split(rest, '\n')[k - 1];
      }
    }
  }

  /** The marker lines open their sections and hold no colon, so a line with a colon is no marker. */
  lemma MarkerLines(line: string)
    ensures Marker("CONNECTION") == Connection && Marker("DOMAIN") == Domain
    ensures ':' !in "CONNECTION" && ':' !in "DOMAIN"
    ensures ':' in line ==> Marker(line) == NoSection
  {
    var connection, domain := "CONNECTION", "DOMAIN";
    assert |connection| != |domain|;
    forall k | 0 <= k < |connection|
      ensures connection[k] != ':'
    {
    }
    forall k | 0 <= k < |domain|
      ensures domain[k] != ':'
    {
    }
  }

  /** A `CONNECTION` line followed by a `name: value` line: the connection section with one entry. */
  lemma ConnectionThenEntry(entryLine: string)
    requires ':' in entryLine
    ensures var lines := ["CONNECTION", entryLine];
      SectionAfter(lines) == Connection && ParamsAfter(lines) == map[Entry(entryLine).value.0 := Entry(entryLine).value.1]
  {
    var lines := ["CONNECTION", entryLine];
    assert lines[..0] == [];
    MarkerLines(entryLine);
    AfterOneMore(lines, 0);
    AfterOneMore(lines, 1);
    assert lines[..2] == lines;
  }

  /** A `DOMAIN` line and one line after it add no parameter, whatever that line holds. */
  lemma DomainAddsNothing(prefix: seq<string>, domainLine: string)
    ensures ParamsAfter(prefix + ["DOMAIN", domainLine]) == ParamsAfter(prefix)
  {
    var lines := prefix + ["DOMAIN", domainLine];
    var n := |prefix|;
    assert lines[..n] == prefix;
    MarkerLines(domainLine);
    AfterOneMore(lines, n);
    AfterOneMore(lines, n + 1);
    assert lines[..n + 2] == lines;
  }

  /**
   * A connection section with one `name: value` line, closed by a domain
   * section: exactly one parameter, whatever the domain section's line holds.
   */
  lemma OneParameter(entryLine: string, domainLine: string)
    requires ':' in entryLine
    ensures ParamsAfter(["CONNECTION", entryLine, "DOMAIN", domainLine]) == map[Entry(entryLine).value.0 := Entry(entryLine).value.1]
  {
    ConnectionThenEntry(entryLine);
    DomainAddsNothing(["CONNECTION", entryLine], domainLine);
    assert ["CONNECTION", entryLine] + ["DOMAIN", domainLine] == ["CONNECTION", entryLine, "DOMAIN", domainLine];
  }

  lemma HeaderLinesSingle(line: string)
    requires '\n' !in line
    ensures HeaderLines(line) == [Strip(line, HeaderPadding)]
  {
  }

  /** The `%`-prefixed marker lines hold no line break and strip to the markers. */
  lemma MarkerPrefixes()
    ensures '\n' !in "% CONNECTION" && Strip("% CONNECTION", HeaderPadding) == "CONNECTION"
    ensures '\n' !in "% DOMAIN" && Strip("% DOMAIN", HeaderPadding) == "DOMAIN"
  {
    assert "% CONNECTION" == "% " + "CONNECTION" && "% DOMAIN" == "% " + "DOMAIN";
    StripPadded("% ", "CONNECTION", HeaderPadding);
    StripPadded("% ", "DOMAIN", HeaderPadding);
  }

  /** A connection line `name:` followed by whitespace and the value, as in the reader's unit test. */
  lemma PaddedEntry(name: string, pad: string, value: string)
    requires ':' !in name && name != [] && name[0] !in Whitespace && name[|name| - 1] !in Whitespace
    requires forall k | 0 <= k < |pad| :: pad[k] in Whitespace
    requires value != [] && value[0] !in Whitespace && value[|value| - 1] !in Whitespace
    ensures Entry(name + ":" + (pad + value)) == Some((name, value))
  {
    ValueKeepsColons(name, pad + value);
    StripPadded([], name, Whitespace);
    assert [] + name == name;
    StripPadded(pad, value, Whitespace);
  }

  /** The lines of a header whose first and third lines strip to the markers. */
  lemma MarkedLines(open: string, entryLine: string, close: string, other: string)
    requires '\n' !in open && '\n' !in entryLine && '\n' !in close && '\n' !in other
    requires Strip(open, HeaderPadding) == "CONNECTION" && Strip(close, HeaderPadding) == "DOMAIN"
    requires entryLine != [] && entryLine[0] !in HeaderPadding && entryLine[|entryLine| - 1] !in HeaderPadding
    ensures HeaderLines(open + "\n" + ("% " + entryLine + "\n" + (close + "\n" + other)))
      == ["CONNECTION", entryLine, "DOMAIN", Strip(other, HeaderPadding)]
  {
    var tail3 := close + "\n" + other;
    var tail2 := "% " + entryLine + "\n" + tail3;
    HeaderLinesSingle(other);
    HeaderLinesCons(close, other);
    assert '\n' !in "% ";
    HeaderLinesCons("% " + entryLine, tail3);
    HeaderLinesCons(open, tail2);
    StripPadded("% ", entryLine, HeaderPadding);
  }

  /**
   * A header in the shape of the reader's unit test (`% CONNECTION`, one
   * `% name:   value` line, `% DOMAIN`, one more line) yields exactly one
   * parameter: `name`, with the value after the colon and its padding.
   */
  lemma OneConnectionHeader(name: string, pad: string, value: string, other: string)
    requires ':' !in name && name != [] && name[0] !in Whitespace + HeaderPadding && name[|name| - 1] !in Whitespace
    requires forall k | 0 <= k < |pad| :: pad[k] in Whitespace
    requires value != [] && value[0] !in Whitespace && value[|value| - 1] !in Whitespace + HeaderPadding
    requires '\n' !in name && '\n' !in pad && '\n' !in value && '\n' !in other
    ensures ParamsAfter(HeaderLines("% CONNECTION" + "\n" + ("% " + (name + ":" + (pad + value)) + "\n" + ("% DOMAIN" + "\n" + other))))
      == map[name := value]
  {
    var entryLine := name + ":" + (pad + value);
    assert entryLine[|name|] == ':' && entryLine[0] == name[0] && entryLine[|entryLine| - 1] == value[|value| - 1];
    MarkerPrefixes();
    MarkedLines("% CONNECTION", entryLine, "% DOMAIN", other);
    PaddedEntry(name, pad, value);
    OneParameter(entryLine, Strip(other, HeaderPadding));
  }

  /**
   * The header of the reader's unit test gives exactly one parameter, `uri`,
   * whose value keeps its colons and loses the padding after the first one.
   */
  lemma UriHeader()
    ensures ParamsAfter(HeaderLines("% CONNECTION" + "\n" + ("% " + ("uri" + ":" + ("      " + "sql://localhost/test/iris")) + "\n" + ("% DOMAIN" + "\n" + "% test: d"))))
      == map["uri" := "sql://localhost/test/iris"]
  {
    OneConnectionHeader("uri", "      ", "sql://localhost/test/iris", "% test: d");
  }
}
