/** The hand-written parser for the configuration subset of YAML: blocks of mappings and
    sequences, flow collections, quoted and plain scalars. */
module MinimalYamlParser {
  import opened Common
  import opened Text

  datatype Entry = Entry(key: string, value: Yaml)
  datatype Yaml =
    | Null | Bool(b: bool) | Int(n: int) | Float(text: string) | Str(s: string)
    | Seq(items: seq<Yaml>) | Map(entries: seq<Entry>)

  datatype Line = Line(indent: nat, content: string)

  /** A parsed block and the lines after it; Malformed is the FormatException. */
  datatype Parsed = Parsed(value: Yaml, rest: seq<Line>) | Malformed

  // ----- quotes and flow depth ------------------------------------------------------------

  /** What the character scans carry along: inside which quotes, how deep in collections. */
  datatype Scan = Scan(inSingle: bool, inDouble: bool, depth: int)

  const START := Scan(false, false, 0)

  predicate Quoted(scan: Scan) { scan.inSingle || scan.inDouble }

  function Advance(scan: Scan, c: char): Scan {
    if c == '\'' && !scan.inDouble then scan.(inSingle := !scan.inSingle)
    else if c == '"' && !scan.inSingle then scan.(inDouble := !scan.inDouble)
    else if Quoted(scan) then scan
    else if c == '{' || c == '[' then scan.(depth := scan.depth + 1)
    else if c == '}' || c == ']' then scan.(depth := scan.depth - 1)
    else scan
  }

  /** The scan after the first n characters. */
  function ScanAt(s: string, n: nat): Scan
    requires n <= |s|
  {
    if n == 0 then START else Advance(ScanAt(s, n - 1), s[n - 1])
  }

  /** A colon that ends a key: outside quotes and collections, then a space or the end. */
  predicate IsKeyColon(s: string, i: nat)
    requires i < |s|
  {
    && s[i] == ':' && !Quoted(ScanAt(s, i)) && ScanAt(s, i).depth == 0
    && (i + 1 == |s| || s[i + 1] == ' ')
  }

  function KeyColonFrom(s: string, i: nat): (r: Option<nat>)
    requires i <= |s|
    ensures r.Some? ==> i <= r.value < |s| && IsKeyColon(s, r.value)
    ensures r.Some? ==> forall k :: i <= k < r.value ==> !IsKeyColon(s, k)
    ensures r.None? ==> forall k :: i <= k < |s| ==> !IsKeyColon(s, k)
    decreases |s| - i
  {
    if i == |s| then None else if IsKeyColon(s, i) then Some(i) else KeyColonFrom(s, i + 1)
  }

  function KeyColon(s: string): (r: Option<nat>)
    ensures r.Some? ==> r.value < |s|
  {
    KeyColonFrom(s, 0)
  }

  method FindKeyColon(content: string) returns (r: Option<nat>)
    ensures r == KeyColon(content)
  {
    var inSingle, inDouble, depth := false, false, 0;
    for i := 0 to |content|
      invariant ScanAt(content, i) == Scan(inSingle, inDouble, depth)
      invariant KeyColon(content) == KeyColonFrom(content, i)
    {
      var c := content[i];
      if c == '\'' && !inDouble {
        inSingle := !inSingle;
      } else if c == '"' && !inSingle {
        inDouble := !inDouble;
      } else if !inSingle && !inDouble {
        if c == '{' || c == '[' {
          depth := depth + 1;
        } else if c == '}' || c == ']' {
          depth := depth - 1;
        } else if c == ':' && depth == 0 && (i + 1 == |content| || content[i + 1] == ' ') {
          return Some(i);
        }
      }
    }
    return None;
  }

  /** A '#' that starts a comment: outside quotes, first or after white space. */
  predicate StartsComment(s: string, i: nat)
    requires i < |s|
  {
    s[i] == '#' && !Quoted(ScanAt(s, i)) && (i == 0 || IsSpace(s[i - 1]))
  }

  function CommentFrom(s: string, i: nat): (n: nat)
    requires i <= |s|
    ensures i <= n <= |s|
    ensures n == |s| || StartsComment(s, n)
    ensures forall k :: i <= k < n ==> !StartsComment(s, k)
    decreases |s| - i
  {
    if i == |s| || StartsComment(s, i) then i else CommentFrom(s, i + 1)
  }

  function WithoutComment(line: string): string { TrimRight(line[..CommentFrom(line, 0)]) }

  method StripComment(line: string) returns (r: string)
    ensures r == WithoutComment(line)
  {
    var inSingle, inDouble := false, false;
    for i := 0 to |line|
      invariant ScanAt(line, i).inSingle == inSingle && ScanAt(line, i).inDouble == inDouble
      invariant CommentFrom(line, 0) == CommentFrom(line, i)
    {
      var c := line[i];
      if c == '\'' && !inDouble {
        inSingle := !inSingle;
      } else if c == '"' && !inSingle {
        inDouble := !inDouble;
      } else if c == '#' && !inSingle && !inDouble {
        if i == 0 || IsSpace(line[i - 1]) {
          return TrimRight(line[..i]);
        }
      }
    }
    assert line[..|line|] == line;
    return TrimRight(line);
  }

  predicate SeparatesItems(s: string, i: nat)
    requires i < |s|
  {
    s[i] == ',' && !Quoted(ScanAt(s, i)) && ScanAt(s, i).depth == 0
  }

  /** Pieces between top-level commas, from `start` on, scanning from `i`. */
  function FlowItemsFrom(s: string, start: nat, i: nat): (items: seq<string>)
    requires start <= i <= |s|
    ensures forall k :: 0 <= k < |items| ==> |items[k]| <= |s|
    decreases |s| - i
  {
    if i == |s| then [s[start..]]
    else if SeparatesItems(s, i) then [s[start..i]] + FlowItemsFrom(s, i + 1, i + 1)
    else FlowItemsFrom(s, start, i + 1)
  }

  method SplitFlowItems(inner: string) returns (items: seq<string>)
    ensures items == FlowItemsFrom(inner, 0, 0)
  {
    items := [];
    var inSingle, inDouble, depth, start := false, false, 0, 0;
    for i := 0 to |inner|
      invariant ScanAt(inner, i) == Scan(inSingle, inDouble, depth)
      invariant start <= i
      invariant items + FlowItemsFrom(inner, start, i) == FlowItemsFrom(inner, 0, 0)
    {
      var c := inner[i];
      if c == '\'' && !inDouble {
        inSingle := !inSingle;
      } else if c == '"' && !inSingle {
        inDouble := !inDouble;
      } else if !inSingle && !inDouble {
        if c == '[' || c == '{' {
          depth := depth + 1;
        } else if c == ']' || c == '}' {
          depth := depth - 1;
        } else if c == ',' && depth == 0 {
          ghost var piece := [inner[start..i]];
          assert items + (piece + FlowItemsFrom(inner, i + 1, i + 1))
              == (items + piece) + FlowItemsFrom(inner, i + 1, i + 1);
          items := items + [inner[start..i]];
          start := i + 1;
        }
      }
    }
    items := items + [inner[start..]];
  }

  // ----- scalars --------------------------------------------------------------------------------

  function ParseKey(raw: string): string {
    var k := Trim(raw);
    if |k| >= 2 && ((k[0] == '\'' && k[|k| - 1] == '\'') || (k[0] == '"' && k[|k| - 1] == '"'))
    then k[1..|k| - 1] else k
  }

  /** Every '' becomes ', left to right. */
  function Undouble(s: string): (r: string)
    ensures |r| <= |s|
  {
    if |s| >= 2 && s[0] == '\'' && s[1] == '\'' then ['\''] + Undouble(s[2..])
    else if s == [] then [] else [s[0]] + Undouble(s[1..])
  }

  const LONG_MAX := 9223372036854775807

  /** long.TryParse with a leading sign allowed; the caller has refused '+'. */
  function ParseLong(s: string): Option<int> {
    var negative := s != [] && s[0] == '-';
    var body := if negative then s[1..] else s;
    var value := DigitsValue(body);
    if body == [] || value.None? then None
    else
      var n: int := if negative then -(value.value as int) else value.value;
      if -LONG_MAX - 1 <= n <= LONG_MAX then Some(n) else None
  }

  function Unsigned(s: string): string { if s != [] && (s[0] == '-' || s[0] == '+') then s[1..] else s }

  predicate AllDigits(s: string) { forall i :: 0 <= i < |s| ==> IsDigit(s[i]) }

  /** Digits with at most one point among them. */
  predicate IsMantissa(s: string) {
    && (exists i :: 0 <= i < |s| && IsDigit(s[i]))
    && (AllDigits(s) || exists p :: 0 <= p < |s| && s[p] == '.' && AllDigits(s[..p]) && AllDigits(s[p + 1..]))
  }

  /** Decimal notation with an optional exponent. */
  predicate IsFloatText(raw: string) {
    var s := Unsigned(Trim(raw));
    || IsMantissa(s)
    || exists e :: 0 <= e < |s| && (s[e] == 'e' || s[e] == 'E') && IsMantissa(s[..e])
         && Unsigned(s[e + 1..]) != [] && AllDigits(Unsigned(s[e + 1..]))
  }

  function ParseUnquoted(raw: string): Yaml {
    if raw == "true" || raw == "True" then Bool(true)
    else if raw == "false" || raw == "False" then Bool(false)
    else if raw == "null" || raw == "~" || raw == "Null" then Null
    else
      var n := if raw != [] && raw[0] != '+' then ParseLong(raw) else None;
      if n.Some? then Int(n.value) else if IsFloatText(raw) then Float(raw) else Str(raw)
  }

  function ParseScalar(text: string): Option<Yaml>
    decreases |text|, 0
  {
    var raw := Trim(text);
    if raw == [] then Some(Null)
    else
      var last := raw[|raw| - 1];
      if raw[0] == '[' && last == ']' then ParseFlowSequence(Trim(raw[1..|raw| - 1]))
      else if raw[0] == '{' && last == '}' then ParseFlowMapping(Trim(raw[1..|raw| - 1]))
      else if |raw| >= 2 && raw[0] == '\'' && last == '\'' then Some(Str(Undouble(raw[1..|raw| - 1])))
      else if |raw| >= 2 && raw[0] == '"' && last == '"' then Some(Str(raw[1..|raw| - 1]))
      else Some(ParseUnquoted(raw))
  }

  function ParseFlowSequence(inner: string): Option<Yaml>
    decreases |inner|, 2, 0
  {
    if inner == [] then Some(Seq([]))
    else
      var items := FlowItemsFrom(inner, 0, 0);
      ParseItems(items, |inner|)
  }

  function ParseItems(items: seq<string>, size: nat): (r: Option<Yaml>)
    requires forall k :: 0 <= k < |items| ==> |items[k]| <= size
    ensures r.Some? ==> r.value.Seq?
    decreases size, 1, |items|
  {
    if items == [] then Some(Seq([]))
    else
      var n := |items| - 1;
      var before, last := ParseItems(items[..n], size), ParseScalar(Trim(items[n]));
      if before.None? || last.None? then None else Some(Seq(before.value.items + [last.value]))
  }

  function ParseFlowMapping(inner: string): Option<Yaml>
    decreases |inner|, 2, 0
  {
    if inner == [] then Some(Map([]))
    else
      var items := FlowItemsFrom(inner, 0, 0);
      ParseEntries(items, |inner|)
  }

  function ParseEntries(items: seq<string>, size: nat): (r: Option<Yaml>)
    requires forall k :: 0 <= k < |items| ==> |items[k]| <= size
    ensures r.Some? ==> r.value.Map?
    decreases size, 1, |items|
  {
    if items == [] then Some(Map([]))
    else
      var n := |items| - 1;
      var before, entry := ParseEntries(items[..n], size), Trim(items[n]);
      var colon := KeyColon(entry);
      if before.None? || colon.None? then None
      else
        var value := ParseScalar(entry[colon.value + 1..]);
        if value.None? then None
        else Some(Map(SetEntry(before.value.entries, ParseKey(entry[..colon.value]), value.value)))
  }

  /** Dictionary assignment: a known key keeps its place. */
  function SetEntry(entries: seq<Entry>, key: string, value: Yaml): seq<Entry> {
    if entries == [] then [Entry(key, value)]
    else if entries[0].key == key then [Entry(key, value)] + entries[1..]
    else [entries[0]] + SetEntry(entries[1..], key, value)
  }

  // ----- blocks -----------------------------------------------------------------------------------------

  predicate IsBareFlow(content: string) {
    |content| > 0 && (content[0] == '{' || content[0] == '[') && KeyColon(content).None?
  }

  predicate IsItem(content: string) { content == "-" || "- " <= content }

  function ItemText(content: string): (t: string)
    requires IsItem(content)
    ensures |t| < |content|
  {
    if content == "-" then "" else content[2..]
  }

  function HeadLength(lines: seq<Line>): nat { if lines == [] then 0 else |lines[0].content| }

  /** A value block: everything at the first line's indent. It always takes at least one
      line when that indent is deep enough. */
  function ParseBlock(lines: seq<Line>, indent: nat): (r: Parsed)
    ensures r.Parsed? ==> |r.rest| <= |lines|
    ensures r.Parsed? && lines != [] && lines[0].indent >= indent ==> |r.rest| < |lines|
    decreases |lines|, HeadLength(lines), 2
  {
    if lines == [] || lines[0].indent < indent then Parsed(Null, lines)
    else
      var content := lines[0].content;
      if IsBareFlow(content) then
        var value := ParseScalar(content);
        if value.None? then Malformed else Parsed(value.value, lines[1..])
      else if IsItem(content) then ParseSequence(lines, lines[0].indent, [])
      else ParseMapping(lines, lines[0].indent, [])
  }

  /** One item of a sequence. "- key: value" opens a mapping indented past the dash. */
  function ParseItem(lines: seq<Line>, blockIndent: nat): (r: Parsed)
    requires lines != [] && IsItem(lines[0].content)
    ensures r.Parsed? ==> |r.rest| < |lines|
    decreases |lines|, HeadLength(lines), 0
  {
    var text := ItemText(lines[0].content);
    if text == "" then ParseBlock(lines[1..], blockIndent + 1)
    else if KeyColon(text).Some? then ParseBlock([Line(blockIndent + 2, text)] + lines[1..], blockIndent + 2)
    else
      var value := ParseScalar(text);
      if value.None? then Malformed else Parsed(value.value, lines[1..])
  }

  function ParseSequence(lines: seq<Line>, blockIndent: nat, items: seq<Yaml>): (r: Parsed)
    ensures r.Parsed? ==> |r.rest| <= |lines|
    ensures r.Parsed? && lines != [] && lines[0].indent == blockIndent && IsItem(lines[0].content) ==>
      |r.rest| < |lines|
    decreases |lines|, HeadLength(lines), 1
  {
    if lines == [] || lines[0].indent != blockIndent || !IsItem(lines[0].content) then Parsed(Seq(items), lines)
    else
      var item := ParseItem(lines, blockIndent);
      if item.Malformed? then Malformed else ParseSequence(item.rest, blockIndent, items + [item.value])
  }

  function ParseMapping(lines: seq<Line>, blockIndent: nat, entries: seq<Entry>): (r: Parsed)
    ensures r.Parsed? ==> |r.rest| <= |lines|
    ensures r.Parsed? && lines != [] && lines[0].indent == blockIndent ==> |r.rest| < |lines|
    decreases |lines|, HeadLength(lines), 1
  {
    if lines == [] || lines[0].indent != blockIndent then Parsed(Map(entries), lines)
    else
      var content, after := lines[0].content, lines[1..];
      var colon := KeyColon(content);
      if colon.None? then Malformed
      else
        var key, rest := ParseKey(content[..colon.value]), TrimLeft(content[colon.value + 1..]);
        if rest != "" then
          var value := ParseScalar(rest);
          if value.None? then Malformed else ParseMapping(after, blockIndent, SetEntry(entries, key, value.value))
        else if after != [] && after[0].indent > blockIndent then
          var nested := ParseBlock(after, after[0].indent);
          if nested.Malformed? then Malformed
          else ParseMapping(nested.rest, blockIndent, SetEntry(entries, key, nested.value))
        else ParseMapping(after, blockIndent, SetEntry(entries, key, Null))
  }

  // ----- text to lines ----------------------------------------------------------------------------------

  /** Every carriage return before a line feed is dropped. */
  function DropCr(text: string): string {
    if text == [] then []
    else if |text| >= 2 && text[0] == '\r' && text[1] == '\n' then DropCr(text[1..])
    else [text[0]] + DropCr(text[1..])
  }

  function LeadingSpaces(s: string): (n: nat)
    ensures n <= |s|
  {
    if s != [] && s[0] == ' ' then 1 + LeadingSpaces(s[1..]) else 0
  }

  /** The line without its comment, unless nothing is left of it. */
  function LineOf(raw: string): seq<Line> {
    var line := WithoutComment(raw);
    if IsBlank(line) then [] else [Line(LeadingSpaces(line), line[LeadingSpaces(line)..])]
  }

  function LinesOf(raws: seq<string>): seq<Line> {
    if raws == [] then [] else LinesOf(raws[..|raws| - 1]) + LineOf(raws[|raws| - 1])
  }

  function Lines(text: string): seq<Line> { LinesOf(Split(DropCr(text), '\n')) }

  function Parse(text: string): Option<Yaml> {
    var parsed := ParseBlock(Lines(text), 0);
    if parsed.Malformed? then None else Some(parsed.value)
  }

  method CountIndent(line: string) returns (indent: nat)
    ensures indent == LeadingSpaces(line)
  {
    indent := 0;
    while indent < |line| && line[indent] == ' '
      invariant 0 <= indent <= |line|
      invariant LeadingSpaces(line) == indent + LeadingSpaces(line[indent..])
    {
      assert line[indent..][1..] == line[indent + 1..];
      indent := indent + 1;
    }
  }

  method SplitLines(text: string) returns (lines: seq<Line>)
    ensures lines == Lines(text)
  {
    hide WithoutComment, LeadingSpaces, DropCr, Split, IsBlank;
    var raws := Split(DropCr(text), '\n');
    lines := [];
    for i := 0 to |raws|
      invariant lines == LinesOf(raws[..i])
    {
      assert raws[..i + 1][..i] == raws[..i];
      var line := StripComment(raws[i]);
      if !IsBlank(line) {
        var indent := CountIndent(line);
        lines := lines + [Line(indent, line[indent..])];
      }
    }
    assert raws[..|raws|] == raws;
  }

  method ParseText(text: string) returns (value: Option<Yaml>)
    ensures value == Parse(text)
  {
    var split := SplitLines(text);
    var lines := new Line[|split|](i requires 0 <= i < |split| => split[i]);
    assert lines[0..] == split;
    var o := ParseBlockAt(lines, 0, 0);
    return o.value;
  }

  // ----- the parser over its line list, index moving and lines rewritten in place ------------------------

  /** None stands for the FormatException. */
  datatype Outcome = Outcome(value: Option<Yaml>, next: nat)

  predicate Agrees(o: Outcome, spec: Parsed, after: seq<Line>) {
    if spec.Malformed? then o.value.None?
    else o.value == Some(spec.value) && o.next <= |after| && spec.rest == after[o.next..]
  }

  method ParseBlockAt(lines: array<Line>, index: nat, indent: nat) returns (o: Outcome)
    requires index <= lines.Length
    modifies lines
    ensures Agrees(o, ParseBlock(old(lines[index..]), indent), lines[..])
    ensures forall k :: 0 <= k < index ==> lines[k] == old(lines[k])
    decreases lines.Length - index, if index < lines.Length then |lines[index].content| else 0, 2
  {
    if index >= lines.Length || lines[index].indent < indent {
      return Outcome(Some(Null), index);
    }
    var blockIndent, content := lines[index].indent, lines[index].content;
    if IsBareFlow(content) {
      return Outcome(ParseScalar(content), index + 1);
    }
    if IsItem(content) {
      o := ParseSequenceAt(lines, index, blockIndent);
    } else {
      o := ParseMappingAt(lines, index, blockIndent);
    }
  }

  method ParseItemAt(lines: array<Line>, index: nat, blockIndent: nat) returns (o: Outcome)
    requires index < lines.Length && IsItem(lines[index].content)
    modifies lines
    ensures Agrees(o, ParseItem(old(lines[index..]), blockIndent), lines[..])
    ensures forall k :: 0 <= k < index ==> lines[k] == old(lines[k])
    decreases lines.Length - index, |lines[index].content|, 0
  {
    hide ParseBlock, ParseScalar, KeyColon;
    var text := ItemText(lines[index].content);
    ghost var before, tail := lines[index..], lines[index + 1..];
    assert before[0] == lines[index] && before[1..] == tail;
    if text == "" {
      o := ParseBlockAt(lines, index + 1, blockIndent + 1);
    } else if KeyColon(text).Some? {
      lines[index] := Line(blockIndent + 2, text);
      assert lines[index + 1..] == tail;
      assert lines[index..] == [lines[index]] + lines[index + 1..];
      o := ParseBlockAt(lines, index, blockIndent + 2);
    } else {
      return Outcome(ParseScalar(text), index + 1);
    }
  }

  method ParseSequenceAt(lines: array<Line>, start: nat, blockIndent: nat) returns (o: Outcome)
    requires start < lines.Length
    modifies lines
    ensures Agrees(o, ParseSequence(old(lines[start..]), blockIndent, []), lines[..])
    ensures forall k :: 0 <= k < start ==> lines[k] == old(lines[k])
    decreases lines.Length - start, |lines[start].content|, 1
  {
    hide ParseItem, ItemText;
    ghost var spec := ParseSequence(lines[start..], blockIndent, []);
    var index, items := start, [];
    while index < lines.Length && lines[index].indent == blockIndent && IsItem(lines[index].content)
      invariant start <= index <= lines.Length
      invariant index == start ==> lines[start].content == old(lines[start].content)
      invariant spec == ParseSequence(lines[index..], blockIndent, items)
      invariant forall k :: 0 <= k < start ==> lines[k] == old(lines[k])
      decreases lines.Length - index
    {
      assert lines[index..][0] == lines[index];
      var item := ParseItemAt(lines, index, blockIndent);
      if item.value.None? {
        return item;
      }
      items := items + [item.value.value];
      index := item.next;
    }
    return Outcome(Some(Seq(items)), index);
  }

  method ParseMappingAt(lines: array<Line>, start: nat, blockIndent: nat) returns (o: Outcome)
    requires start < lines.Length
    modifies lines
    ensures Agrees(o, ParseMapping(old(lines[start..]), blockIndent, []), lines[..])
    ensures forall k :: 0 <= k < start ==> lines[k] == old(lines[k])
    decreases lines.Length - start, |lines[start].content|, 1
  {
    hide ParseBlock, ParseScalar, KeyColon, ParseKey, SetEntry;
    ghost var spec := ParseMapping(lines[start..], blockIndent, []);
    var index, entries := start, [];
    while index < lines.Length && lines[index].indent == blockIndent
      invariant start <= index <= lines.Length
      invariant spec == ParseMapping(lines[index..], blockIndent, entries)
      invariant forall k :: 0 <= k < start ==> lines[k] == old(lines[k])
      decreases lines.Length - index
    {
      var content := lines[index].content;
      var colon := KeyColon(content);
      if colon.None? {
        return Outcome(None, index);
      }
      var key, rest := ParseKey(content[..colon.value]), TrimLeft(content[colon.value + 1..]);
      index := index + 1;
      if rest == "" {
        if index < lines.Length && lines[index].indent > blockIndent {
          var nested := ParseBlockAt(lines, index, lines[index].indent);
          if nested.value.None? {
            return nested;
          }
          entries := SetEntry(entries, key, nested.value.value);
          index := nested.next;
        } else {
          entries := SetEntry(entries, key, Null);
        }
      } else {
        var value := ParseScalar(rest);
        if value.None? {
          return Outcome(None, index);
        }
        entries := SetEntry(entries, key, value.value);
      }
    }
    return Outcome(Some(Map(entries)), index);
  }
}
