/** The parser undoes the canonical two-space block rendering of every tree of mappings,
    sequences and scalars, strings with any characters but line breaks included. */
module YamlRoundTrip {
  import opened Common
  import opened Text
  import opened MinimalYamlParser

  // ----- rendering ------------------------------------------------------------------------------

  /** Written on the line it belongs to: a scalar or an empty collection. */
  predicate Inline(v: Yaml) { (v.Seq? ==> v.items == []) && (v.Map? ==> v.entries == []) }

  /** Every quote is doubled. */
  function Doubled(s: string): string {
    if s == [] then [] else (if s[0] == '\'' then "''" else [s[0]]) + Doubled(s[1..])
  }

  function IntText(n: int): string { if n < 0 then "-" + Decimal(-n) else Decimal(n) }

  function ScalarText(v: Yaml): string
    requires Inline(v)
  {
    match v
    case Null => "null"
    case Bool(b) => if b then "true" else "false"
    case Int(n) => IntText(n)
    case Float(text) => text
    case Str(s) => "'" + Doubled(s) + "'"
    case Seq(_) => "[]"
    case Map(_) => "{}"
  }

  function Width(v: Yaml): nat { if v.Map? then |v.entries| else if v.Seq? then |v.items| else 0 }

  function Render(v: Yaml, indent: nat): (lines: seq<Line>)
    requires !Inline(v)
    decreases v, Width(v) + 1
  {
    if v.Map? then RenderEntries(v, 0, indent) else RenderItems(v, 0, indent)
  }

  function RenderEntries(v: Yaml, k: nat, indent: nat): seq<Line>
    requires v.Map? && k <= |v.entries|
    decreases v, |v.entries| - k
  {
    if k == |v.entries| then []
    else
      var e := v.entries[k];
      (if Inline(e.value) then [Line(indent, e.key + ": " + ScalarText(e.value))]
       else [Line(indent, e.key + ":")] + Render(e.value, indent + 2))
      + RenderEntries(v, k + 1, indent)
  }

  /** A mapping item starts on the line of its dash. */
  function Hang(lines: seq<Line>, indent: nat): seq<Line> {
    if lines == [] then [] else [Line(indent, "- " + lines[0].content)] + lines[1..]
  }

  function RenderItem(item: Yaml, indent: nat): seq<Line>
    decreases item, Width(item) + 2
  {
    if Inline(item) then [Line(indent, "- " + ScalarText(item))]
    else if item.Map? then Hang(Render(item, indent + 2), indent)
    else [Line(indent, "-")] + Render(item, indent + 2)
  }

  function RenderItems(v: Yaml, k: nat, indent: nat): seq<Line>
    requires v.Seq? && k <= |v.items|
    decreases v, |v.items| - k
  {
    if k == |v.items| then [] else RenderItem(v.items[k], indent) + RenderItems(v, k + 1, indent)
  }

  // ----- what can be rendered ----------------------------------------------------------------------

  predicate KeyChar(c: char) {
    c != '\n' && c != '\r' && c != '\'' && c != '"' && c != '{' && c != '}' && c != '[' && c != ']'
  }

  /** A key that reads as itself without quotes: no colon in it is followed by a space, no
      hash starts a comment, and it does not look like an item. */
  predicate SafeKey(key: string) {
    && key != [] && Tidy(key) && !IsItem(key)
    && (forall i :: 0 <= i < |key| ==> KeyChar(key[i]))
    && (forall i :: 0 <= i < |key| - 1 && key[i] == ':' ==> key[i + 1] != ' ')
    && forall i :: 0 <= i < |key| && key[i] == '#' ==> i > 0 && !IsSpace(key[i - 1])
  }

  predicate FloatChar(c: char) { IsDigit(c) || c == '.' || c == 'e' || c == 'E' || c == '+' || c == '-' }

  predicate SafeScalar(v: Yaml)
    requires Inline(v)
  {
    match v
    case Int(n) => -LONG_MAX - 1 <= n <= LONG_MAX
    case Float(t) => t != [] && (forall i :: 0 <= i < |t| ==> FloatChar(t[i])) && ParseUnquoted(t) == Float(t)
    case Str(s) => Free(s, '\n') && Free(s, '\r')
    case _ => true
  }

  /** Trees with distinct keys that need no quotes and scalars that fit on a line. */
  predicate Renderable(v: Yaml)
    decreases v
  {
    match v
    case Seq(items) => forall i :: 0 <= i < |items| ==> Renderable(items[i])
    case Map(entries) =>
      && (forall i :: 0 <= i < |entries| ==> SafeKey(entries[i].key) && Renderable(entries[i].value))
      && forall i, j :: 0 <= i < j < |entries| ==> entries[i].key != entries[j].key
    case _ => SafeScalar(v)
  }

  // ----- scanning rendered text --------------------------------------------------------------------

  lemma {:induction false} ScanPrefix(a: string, b: string, n: nat)
    requires n <= |a|
    ensures ScanAt(a + b, n) == ScanAt(a, n)
  {
    if n > 0 {
      ScanPrefix(a, b, n - 1);
    }
  }

  lemma {:induction false} ScanConcat(a: string, b: string, n: nat)
    requires n <= |b| && ScanAt(a, |a|) == START
    ensures ScanAt(a + b, |a| + n) == ScanAt(b, n)
  {
    if n == 0 {
      ScanPrefix(a, b, |a|);
    } else {
      ScanConcat(a, b, n - 1);
      assert (a + b)[|a| + n - 1] == b[n - 1];
    }
  }

  /** Text without quotes or brackets leaves the scan where it started. */
  lemma {:induction false} NeutralScan(s: string, n: nat)
    requires n <= |s|
    requires forall i :: 0 <= i < n ==>
      s[i] != '\'' && s[i] != '"' && s[i] != '{' && s[i] != '}' && s[i] != '[' && s[i] != ']'
    ensures ScanAt(s, n) == START
  {
    if n > 0 {
      NeutralScan(s, n - 1);
    }
  }

  /** Colons and hashes only inside quotes. */
  predicate Guarded(t: string) {
    forall k :: 0 <= k < |t| && (t[k] == ':' || t[k] == '#') ==> Quoted(ScanAt(t, k))
  }

  const INSIDE := Scan(true, false, 0)

  /** Inside a single-quoted string only its quotes toggle the scan, always in pairs. */
  lemma {:induction false} ScanDoubled(q: string, m: nat, s: string)
    requires m <= |q| && q[m..] == Doubled(s) + "'" && ScanAt(q, m) == INSIDE
    ensures forall k :: m <= k < |q| && (q[k] == ':' || q[k] == '#') ==> Quoted(ScanAt(q, k))
    decreases |s|
  {
    if s == [] {
      assert q[m] == q[m..][0] == '\'';
    } else {
      var step := if s[0] == '\'' then 2 else 1;
      assert q[m] == q[m..][0] == s[0];
      if s[0] == '\'' {
        assert q[m + 1] == q[m..][1] == '\'';
        assert ScanAt(q, m + 1) == START;
        assert ScanAt(q, m + 2) == INSIDE;
      } else {
        assert ScanAt(q, m + 1) == INSIDE;
      }
      assert q[m + step..] == q[m..][step..];
      assert q[m..][step..] == Doubled(s[1..]) + "'";
      ScanDoubled(q, m + step, s[1..]);
    }
  }

  lemma QuotedGuarded(s: string)
    ensures Guarded("'" + Doubled(s) + "'")
  {
    var q := "'" + Doubled(s) + "'";
    assert q[1..] == Doubled(s) + "'";
    assert ScanAt(q, 0) == START && ScanAt(q, 1) == INSIDE;
    ScanDoubled(q, 1, s);
  }

  lemma {:induction false} UndoubleDoubled(s: string)
    ensures Undouble(Doubled(s)) == s
  {
    if s != [] {
      UndoubleDoubled(s[1..]);
      var d := Doubled(s);
      if s[0] == '\'' {
        assert d[2..] == Doubled(s[1..]);
      } else {
        assert d[0] == s[0] && d[1..] == Doubled(s[1..]);
      }
      assert s == [s[0]] + s[1..];
    }
  }

  // ----- scalars read back ------------------------------------------------------------------------------

  lemma NumberIsNoKeyword(t: string)
    requires t != [] && (t[0] == '-' || IsDigit(t[0]))
    ensures t != "true" && t != "True" && t != "false" && t != "False" && t != "null" && t != "~" && t != "Null"
  {}

  lemma LongReadsBack(n: int)
    requires -LONG_MAX - 1 <= n <= LONG_MAX
    ensures ParseLong(IntText(n)) == Some(n)
    ensures IntText(n) != [] && (IntText(n)[0] == '-' || IsDigit(IntText(n)[0]))
  {
    hide Decimal, DigitsValue;
    var m: nat := if n < 0 then -n else n;
    DecimalValue(m);
    if n < 0 {
      assert IntText(n)[1..] == Decimal(m);
    }
  }

  lemma IntReadsBack(n: int)
    requires -LONG_MAX - 1 <= n <= LONG_MAX
    ensures ParseUnquoted(IntText(n)) == Int(n)
  {
    hide IsFloatText, ParseLong, IntText;
    LongReadsBack(n);
    NumberIsNoKeyword(IntText(n));
  }

  /** A scalar's text is tidy, guarded, on one line, and parses to the scalar. */
  predicate ReadsBack(v: Yaml, t: string) {
    && t != [] && Tidy(t) && Guarded(t) && Free(t, '\n') && Free(t, '\r')
    && ParseScalar(t) == Some(v)
  }

  predicate PlainChar(c: char) { !IsSpace(c) && c != ':' && c != '#' && c != '[' && c != '{' && c != '\'' && c != '"' }

  /** Text of harmless characters is an unquoted scalar. */
  lemma PlainReadsBack(t: string)
    requires t != [] && forall i :: 0 <= i < |t| ==> PlainChar(t[i])
    ensures ReadsBack(ParseUnquoted(t), t)
  {
    hide ParseUnquoted;
    assert PlainChar(t[0]) && PlainChar(t[|t| - 1]);
    TidyTrims(t);
  }

  lemma QuotedParses(d: string)
    ensures
      var t := "'" + d + "'";
      Tidy(t) && ParseScalar(t) == Some(Str(Undouble(d)))
  {
    hide ParseUnquoted, Undouble, FlowItemsFrom, TrimLeft, TrimRight;
    var t := "'" + d + "'";
    assert t[1..|t| - 1] == d && t[0] == '\'' && t[|t| - 1] == '\'';
    TidyTrims(t);
  }

  lemma QuotedFree(d: string, c: char)
    requires Free(d, c) && c != '\''
    ensures Free("'" + d + "'", c)
  {}

  lemma QuotedReadsBack(s: string)
    requires Free(s, '\n') && Free(s, '\r')
    ensures ReadsBack(Str(s), "'" + Doubled(s) + "'")
  {
    hide ParseScalar, Guarded, Free, Tidy, Undouble, Doubled;
    QuotedGuarded(s);
    UndoubleDoubled(s);
    DoubledFree(s);
    QuotedParses(Doubled(s));
    QuotedFree(Doubled(s), '\n');
    QuotedFree(Doubled(s), '\r');
  }

  /** An empty collection is an empty flow collection. */
  lemma EmptyReadsBack()
    ensures ReadsBack(Seq([]), "[]") && ReadsBack(Map([]), "{}")
  {
    TidyTrims("[]");
    TidyTrims("{}");
    assert "[]"[1..1] == "" && "{}"[1..1] == "";
  }

  lemma ScalarReadsBack(v: Yaml)
    requires Inline(v) && SafeScalar(v)
    ensures ReadsBack(v, ScalarText(v))
  {
    hide IsFloatText, ParseLong, ReadsBack;
    var t := ScalarText(v);
    if v.Str? {
      QuotedReadsBack(v.s);
    } else if v.Seq? || v.Map? {
      EmptyReadsBack();
    } else {
      if v.Int? {
        IntReadsBack(v.n);
      }
      forall i | 0 <= i < |t|
        ensures PlainChar(t[i])
      {
        if v.Int? {
          assert t[i] == '-' || IsDigit(t[i]) by { IntChars(v.n, i); }
        } else if v.Float? {
          assert FloatChar(t[i]);
        }
      }
      PlainReadsBack(t);
    }
  }

  lemma IntChars(n: int, i: nat)
    requires i < |IntText(n)|
    ensures IntText(n)[i] == '-' || IsDigit(IntText(n)[i])
  {}

  lemma {:induction false} DoubledFree(s: string)
    requires Free(s, '\n') && Free(s, '\r')
    ensures Free(Doubled(s), '\n') && Free(Doubled(s), '\r')
  {
    if s != [] {
      DoubledFree(s[1..]);
    }
  }

  // ----- lines read back -----------------------------------------------------------------------------------

  lemma GuardedHasNoKey(t: string)
    requires Guarded(t)
    ensures KeyColon(t) == None
  {}

  predicate EntryLine(content: string, key: string, rest: string) {
    content == key + ":" + rest && (rest == [] || rest[0] == ' ')
  }

  /** An entry line splits at its own colon, and is neither an item nor a flow. */
  lemma EntryLineSplits(content: string, key: string, rest: string)
    requires SafeKey(key) && EntryLine(content, key, rest)
    ensures KeyColon(content) == Some(|key|) && !IsItem(content) && !IsBareFlow(content)
    ensures content[..|key|] == key && content[|key| + 1..] == rest && ParseKey(key) == key
  {
    assert forall k :: 0 <= k < |key| ==> content[k] == key[k] && KeyChar(key[k]);
    NeutralScan(content, |key|);
    assert IsKeyColon(content, |key|);
    forall k | 0 <= k < |key|
      ensures !IsKeyColon(content, k)
    {
      assert content[k] == key[k] && content[k + 1] == (if k + 1 < |key| then key[k + 1] else ':');
    }
    var c := KeyColon(content);
    assert content[0] == key[0];
    TidyTrims(key);
  }

  lemma ScalarItemReads(v: Yaml)
    requires Inline(v) && SafeScalar(v)
    ensures
      var content := "- " + ScalarText(v);
      IsItem(content) && !IsBareFlow(content) && ItemText(content) == ScalarText(v) != []
      && KeyColon(ScalarText(v)) == None && ParseScalar(ScalarText(v)) == Some(v)
  {
    ScalarReadsBack(v);
    GuardedHasNoKey(ScalarText(v));
  }

  // ----- blocks read back ------------------------------------------------------------------------------------

  /** What follows a block sits further left. */
  predicate Outside(tail: seq<Line>, indent: nat) { tail == [] || tail[0].indent < indent }

  lemma MapShape(v: Yaml, indent: nat)
    requires v.Map? && v.entries != []
    ensures Render(v, indent) != [] && Render(v, indent)[0].indent == indent
    ensures
      var e := v.entries[0];
      EntryLine(Render(v, indent)[0].content, e.key, if Inline(e.value) then " " + ScalarText(e.value) else "")
  {
    hide ScalarText;
    var e := v.entries[0];
    assert RenderEntries(v, 0, indent)[0].content
        == e.key + (if Inline(e.value) then ": " + ScalarText(e.value) else ":");
    if Inline(e.value) {
      assert e.key + (": " + ScalarText(e.value)) == e.key + ":" + (" " + ScalarText(e.value));
    } else {
      assert e.key + ":" + "" == e.key + ":";
    }
  }

  lemma SeqShape(v: Yaml, indent: nat)
    requires v.Seq? && v.items != []
    ensures Render(v, indent) != [] && Render(v, indent)[0].indent == indent && IsItem(Render(v, indent)[0].content)
  {
    hide ScalarText, RenderEntries;
    var item := v.items[0];
    assert RenderItems(v, 0, indent) == RenderItem(item, indent) + RenderItems(v, 1, indent);
    if !Inline(item) && item.Map? {
      MapShape(item, indent + 2);
    }
  }

  lemma RenderShape(v: Yaml, indent: nat)
    requires !Inline(v)
    ensures Render(v, indent) != [] && Render(v, indent)[0].indent == indent
    ensures v.Map? ==>
      var e := v.entries[0];
      EntryLine(Render(v, indent)[0].content, e.key, if Inline(e.value) then " " + ScalarText(e.value) else "")
    ensures v.Seq? ==> IsItem(Render(v, indent)[0].content)
  {
    hide ScalarText, Render;
    if v.Map? {
      MapShape(v, indent);
    } else {
      SeqShape(v, indent);
    }
  }

  /** A rendered block parses to its tree and stops right after it. */
  lemma {:induction false} BlockReadsBack(v: Yaml, indent: nat, from: nat, tail: seq<Line>)
    requires !Inline(v) && Renderable(v) && from <= indent && Outside(tail, indent)
    ensures ParseBlock(Render(v, indent) + tail, from) == Parsed(v, tail)
    decreases v, Width(v) + 2
  {
    hide ParseSequence, ParseMapping, KeyColon;
    var lines := Render(v, indent) + tail;
    RenderShape(v, indent);
    assert lines[0] == Render(v, indent)[0];
    if v.Map? {
      var e := v.entries[0];
      EntryLineSplits(lines[0].content, e.key, if Inline(e.value) then " " + ScalarText(e.value) else "");
      EntriesReadBack(v, 0, indent, tail);
      assert v.entries[..0] == [];
    } else {
      ItemIsNoFlow(lines[0].content);
      ItemsReadBack(v, 0, indent, tail);
      assert v.items[..0] == [];
    }
  }

  lemma ItemIsNoFlow(content: string)
    requires IsItem(content)
    ensures !IsBareFlow(content)
  {}

  lemma SetFresh(entries: seq<Entry>, key: string, value: Yaml)
    requires forall i :: 0 <= i < |entries| ==> entries[i].key != key
    ensures SetEntry(entries, key, value) == entries + [Entry(key, value)]
  {
    if entries != [] {
      SetFresh(entries[1..], key, value);
      assert entries == [entries[0]] + entries[1..];
    }
  }

  lemma NextEntry(v: Yaml, k: nat, indent: nat, tail: seq<Line>)
    requires v.Map? && k < |v.entries|
    ensures
      var e := v.entries[k];
      var after := RenderEntries(v, k + 1, indent) + tail;
      RenderEntries(v, k, indent) + tail ==
        if Inline(e.value) then [Line(indent, e.key + ": " + ScalarText(e.value))] + after
        else [Line(indent, e.key + ":")] + (Render(e.value, indent + 2) + after)
  {}

  lemma DistinctBefore(v: Yaml, k: nat)
    requires v.Map? && Renderable(v) && k < |v.entries|
    ensures SetEntry(v.entries[..k], v.entries[k].key, v.entries[k].value) == v.entries[..k + 1]
  {
    SetFresh(v.entries[..k], v.entries[k].key, v.entries[k].value);
    assert v.entries[..k + 1] == v.entries[..k] + [v.entries[k]];
  }

  lemma NothingMore(v: Yaml, indent: nat, tail: seq<Line>)
    requires v.Map? && Outside(tail, indent)
    ensures ParseMapping(RenderEntries(v, |v.entries|, indent) + tail, indent, v.entries[..|v.entries|])
         == Parsed(v, tail)
  {
    assert RenderEntries(v, |v.entries|, indent) + tail == tail;
    assert v.entries[..|v.entries|] == v.entries;
  }

  lemma {:induction false} EntriesReadBack(v: Yaml, k: nat, indent: nat, tail: seq<Line>)
    requires v.Map? && Renderable(v) && k <= |v.entries| && Outside(tail, indent)
    ensures ParseMapping(RenderEntries(v, k, indent) + tail, indent, v.entries[..k]) == Parsed(v, tail)
    decreases v, |v.entries| - k
  {
    hide ParseMapping, RenderEntries, Render, SetEntry, ParseBlock, Renderable, ScalarText;
    if k == |v.entries| {
      NothingMore(v, indent, tail);
    } else {
      var e := v.entries[k];
      var after := RenderEntries(v, k + 1, indent) + tail;
      EntriesReadBack(v, k + 1, indent, tail);
      DistinctBefore(v, k);
      EntriesStart(v, k + 1, indent, tail);
      NextEntry(v, k, indent, tail);
      RenderableEntry(v, k);
      if Inline(e.value) {
        RenderableScalar(e.value);
        ScalarEntryReads(e, indent, after, v.entries[..k]);
      } else {
        BlockReadsBack(e.value, indent + 2, indent + 2, after);
        NestedEntryReads(e, indent, after, v.entries[..k]);
      }
    }
  }

  /** Whatever follows an entry is at the mapping's own indent or further left. */
  lemma EntriesStart(v: Yaml, k: nat, indent: nat, tail: seq<Line>)
    requires v.Map? && k <= |v.entries| && Outside(tail, indent)
    ensures Outside(RenderEntries(v, k, indent) + tail, indent + 1)
  {}

  lemma ScalarEntryReads(e: Entry, indent: nat, after: seq<Line>, done: seq<Entry>)
    requires Inline(e.value) && SafeScalar(e.value) && SafeKey(e.key)
    ensures ParseMapping([Line(indent, e.key + ": " + ScalarText(e.value))] + after, indent, done)
         == ParseMapping(after, indent, SetEntry(done, e.key, e.value))
  {
    hide KeyColon, ParseScalar, SetEntry, ScalarText, Guarded;
    var t := ScalarText(e.value);
    var content := e.key + ": " + t;
    assert content == e.key + ":" + (" " + t);
    ScalarReadsBack(e.value);
    EntryLineSplits(content, e.key, " " + t);
    assert TrimLeft(" " + t) == t by { LeadingSpace(t); }
    assert ([Line(indent, content)] + after)[1..] == after;
  }

  lemma LeadingSpace(t: string)
    requires t != [] && Tidy(t)
    ensures TrimLeft(" " + t) == t
  {
    assert (" " + t)[1..] == t;
    TidyTrims(t);
  }

  lemma NestedEntryReads(e: Entry, indent: nat, after: seq<Line>, done: seq<Entry>)
    requires !Inline(e.value) && Renderable(e.value) && SafeKey(e.key)
    requires ParseBlock(Render(e.value, indent + 2) + after, indent + 2) == Parsed(e.value, after)
    ensures ParseMapping([Line(indent, e.key + ":")] + (Render(e.value, indent + 2) + after), indent, done)
         == ParseMapping(after, indent, SetEntry(done, e.key, e.value))
  {
    hide KeyColon, ParseBlock, SetEntry, Render;
    var content := e.key + ":";
    var nested := Render(e.value, indent + 2) + after;
    assert content == e.key + ":" + "";
    EntryLineSplits(content, e.key, "");
    RenderShape(e.value, indent + 2);
    assert ([Line(indent, content)] + nested)[1..] == nested;
    assert nested[0] == Render(e.value, indent + 2)[0];
    assert TrimLeft("") == "";
  }

  lemma {:induction false} ItemsReadBack(v: Yaml, k: nat, indent: nat, tail: seq<Line>)
    requires v.Seq? && Renderable(v) && k <= |v.items| && Outside(tail, indent)
    ensures ParseSequence(RenderItems(v, k, indent) + tail, indent, v.items[..k]) == Parsed(v, tail)
    decreases v, |v.items| - k
  {
    hide ParseItem, RenderItem, RenderItems, ParseSequence, Renderable, IsItem;
    if k == |v.items| {
      NoItemsLeft(v, indent, tail);
    } else {
      var after := RenderItems(v, k + 1, indent) + tail;
      ItemsReadBack(v, k + 1, indent, tail);
      ItemsStart(v, k + 1, indent, tail);
      RenderableItem(v, k);
      ItemReadsBack(v.items[k], indent, after);
      NextItem(v, k, indent, tail);
      SequenceTakesItem(RenderItem(v.items[k], indent) + after, indent, v.items[..k], v.items[k], after);
      assert v.items[..k + 1] == v.items[..k] + [v.items[k]];
    }
  }

  lemma NoItemsLeft(v: Yaml, indent: nat, tail: seq<Line>)
    requires v.Seq? && Outside(tail, indent)
    ensures ParseSequence(RenderItems(v, |v.items|, indent) + tail, indent, v.items[..|v.items|]) == Parsed(v, tail)
  {
    assert RenderItems(v, |v.items|, indent) + tail == tail;
    assert v.items[..|v.items|] == v.items;
  }

  lemma NextItem(v: Yaml, k: nat, indent: nat, tail: seq<Line>)
    requires v.Seq? && k < |v.items|
    ensures RenderItems(v, k, indent) + tail
         == RenderItem(v.items[k], indent) + (RenderItems(v, k + 1, indent) + tail)
  {
    hide RenderItem;
  }

  lemma SequenceTakesItem(lines: seq<Line>, indent: nat, items: seq<Yaml>, item: Yaml, after: seq<Line>)
    requires lines != [] && lines[0].indent == indent && IsItem(lines[0].content)
    requires ParseItem(lines, indent) == Parsed(item, after)
    ensures ParseSequence(lines, indent, items) == ParseSequence(after, indent, items + [item])
  {
    hide ParseItem, IsItem;
  }

  lemma ItemsStart(v: Yaml, k: nat, indent: nat, tail: seq<Line>)
    requires v.Seq? && k <= |v.items| && Outside(tail, indent) && Renderable(v)
    ensures Outside(RenderItems(v, k, indent) + tail, indent + 1)
  {
    hide Renderable;
    if k < |v.items| {
      assert Renderable(v.items[k]) by { RenderableItem(v, k); }
      ItemShape(v.items[k], indent);
    }
  }

  lemma RenderableItem(v: Yaml, k: nat)
    requires v.Seq? && Renderable(v) && k < |v.items|
    ensures Renderable(v.items[k])
  {}

  lemma ItemShape(item: Yaml, indent: nat)
    requires Renderable(item)
    ensures
      var lines := RenderItem(item, indent);
      lines != [] && lines[0].indent == indent && IsItem(lines[0].content)
  {
    if !Inline(item) {
      RenderShape(item, indent + 2);
    }
  }

  lemma ScalarItemParses(item: Yaml, indent: nat, after: seq<Line>)
    requires Inline(item) && Renderable(item)
    ensures ParseItem(RenderItem(item, indent) + after, indent) == Parsed(item, after)
  {
    hide ParseBlock, KeyColon, ParseScalar, ScalarText, IsItem, IsBareFlow, ItemText;
    RenderableScalar(item);
    ScalarItemReads(item);
    var lines := RenderItem(item, indent) + after;
    assert lines[0] == Line(indent, "- " + ScalarText(item)) && lines[1..] == after;
  }

  lemma MappingItemParses(item: Yaml, indent: nat, after: seq<Line>)
    requires item.Map? && item.entries != [] && Renderable(item)
    requires ParseBlock(Render(item, indent + 2) + after, indent + 2) == Parsed(item, after)
    ensures ParseItem(RenderItem(item, indent) + after, indent) == Parsed(item, after)
  {
    hide ParseBlock, KeyColon, ParseScalar, ScalarText, Renderable, Render, EntryLine;
    RenderShape(item, indent + 2);
    var block := Render(item, indent + 2);
    RenderableEntry(item, 0);
    var e := item.entries[0];
    EntryLineSplits(block[0].content, e.key, if Inline(e.value) then " " + ScalarText(e.value) else "");
    HungBlockParses(block, indent, after);
  }

  /** A block hung on its dash is read as the block. */
  lemma HungBlockParses(block: seq<Line>, indent: nat, after: seq<Line>)
    requires block != [] && block[0].indent == indent + 2 && block[0].content != []
    requires KeyColon(block[0].content).Some?
    ensures IsItem((Hang(block, indent) + after)[0].content)
    ensures ParseItem(Hang(block, indent) + after, indent) == ParseBlock(block + after, indent + 2)
  {
    hide ParseBlock, KeyColon, ParseScalar, IsItem, ItemText;
    var lines := Hang(block, indent) + after;
    HungItem(block[0].content);
    assert lines[0].content == "- " + block[0].content;
    assert [Line(indent + 2, block[0].content)] + lines[1..] == block + after;
  }

  lemma SequenceItemParses(item: Yaml, indent: nat, after: seq<Line>)
    requires item.Seq? && item.items != [] && Renderable(item)
    requires ParseBlock(Render(item, indent + 2) + after, indent + 1) == Parsed(item, after)
    ensures ParseItem(RenderItem(item, indent) + after, indent) == Parsed(item, after)
  {
    hide ParseBlock, KeyColon, ParseScalar, ScalarText, Renderable, Render;
    var lines := RenderItem(item, indent) + after;
    assert lines[0].content == "-" && lines[1..] == Render(item, indent + 2) + after;
  }

  lemma {:induction false} ItemReadsBack(item: Yaml, indent: nat, after: seq<Line>)
    requires Renderable(item) && Outside(after, indent + 1)
    ensures
      var lines := RenderItem(item, indent) + after;
      && lines != [] && lines[0].indent == indent && IsItem(lines[0].content)
      && ParseItem(lines, indent) == Parsed(item, after)
    decreases item, Width(item) + 3
  {
    hide ParseBlock, ParseItem, Render, RenderItem, Renderable;
    ItemShape(item, indent);
    if Inline(item) {
      ScalarItemParses(item, indent, after);
    } else if item.Map? {
      BlockReadsBack(item, indent + 2, indent + 2, after);
      MappingItemParses(item, indent, after);
    } else {
      BlockReadsBack(item, indent + 2, indent + 1, after);
      SequenceItemParses(item, indent, after);
    }
  }

  lemma HungItem(content: string)
    requires content != []
    ensures IsItem("- " + content) && ItemText("- " + content) == content
  {}

  lemma RenderableScalar(v: Yaml)
    requires Inline(v) && Renderable(v)
    ensures SafeScalar(v)
  {}

  lemma RenderableEntry(v: Yaml, k: nat)
    requires v.Map? && Renderable(v)
    ensures k < |v.entries| ==> SafeKey(v.entries[k].key) && Renderable(v.entries[k].value)
  {}

  // ----- documents read back --------------------------------------------------------------------------------

  function Spaces(n: nat): (s: string)
    ensures |s| == n && forall i :: 0 <= i < n ==> s[i] == ' '
  {
    seq(n, _ => ' ')
  }

  function LineText(line: Line): string { Spaces(line.indent) + line.content }

  function TextOf(lines: seq<Line>): string {
    if lines == [] then [] else if |lines| == 1 then LineText(lines[0])
    else LineText(lines[0]) + "\n" + TextOf(lines[1..])
  }

  function Document(v: Yaml): string
    requires !Inline(v)
  {
    TextOf(Render(v, 0))
  }

  predicate NoComment(t: string) { forall k :: 0 <= k < |t| ==> !StartsComment(t, k) }

  predicate PlainContent(t: string) {
    t != [] && Tidy(t) && Free(t, '\n') && Free(t, '\r') && NoComment(t)
  }

  /** A start of line that leaves the scan alone. */
  predicate NeutralPrefix(a: string) {
    && Free(a, '\n') && Free(a, '\r') && NoComment(a)
    && forall i :: 0 <= i < |a| ==>
         a[i] != '\'' && a[i] != '"' && a[i] != '{' && a[i] != '}' && a[i] != '[' && a[i] != ']'
  }

  lemma PrefixedNoComment(a: string, t: string)
    requires NeutralPrefix(a) && NoComment(t)
    ensures NoComment(a + t)
  {
    NeutralScan(a, |a|);
    forall k | 0 <= k < |a + t|
      ensures !StartsComment(a + t, k)
    {
      if k < |a| {
        ScanPrefix(a, t, k);
        assert !StartsComment(a, k);
      } else {
        ScanConcat(a, t, k - |a|);
        assert !StartsComment(t, k - |a|);
      }
    }
  }

  lemma PrefixedPlain(a: string, t: string)
    requires NeutralPrefix(a) && PlainContent(t) && a != [] && !IsSpace(a[0])
    ensures PlainContent(a + t)
  {
    hide NoComment;
    PrefixedNoComment(a, t);
  }

  lemma GuardedNoComment(t: string)
    requires Guarded(t)
    ensures NoComment(t)
  {}

  predicate AllPlain(lines: seq<Line>) { forall i :: 0 <= i < |lines| ==> PlainContent(lines[i].content) }

  lemma KeyPrefix(key: string)
    requires SafeKey(key)
    ensures NeutralPrefix(key + ": ") && !IsSpace(key[0]) && PlainContent(key + ":")
  {
    var prefix := key + ": ";
    assert forall i :: 0 <= i < |key| ==> prefix[i] == key[i] && KeyChar(key[i]);
    assert forall i :: 0 <= i < |key + ":"| ==> (key + ":")[i] == prefix[i];
  }

  lemma ScalarPlain(v: Yaml)
    requires Inline(v) && SafeScalar(v)
    ensures PlainContent(ScalarText(v))
  {
    hide ParseScalar, ScalarText, NoComment;
    ScalarReadsBack(v);
    GuardedNoComment(ScalarText(v));
  }

  lemma {:induction false} RenderPlain(v: Yaml, indent: nat)
    requires !Inline(v) && Renderable(v)
    ensures AllPlain(Render(v, indent))
    decreases v, Width(v) + 1
  {
    hide PlainContent, Renderable, RenderEntries, RenderItems;
    if v.Map? {
      EntriesPlain(v, 0, indent);
    } else {
      ItemsPlain(v, 0, indent);
    }
  }

  lemma {:induction false} EntriesPlain(v: Yaml, k: nat, indent: nat)
    requires v.Map? && Renderable(v) && k <= |v.entries|
    ensures AllPlain(RenderEntries(v, k, indent))
    decreases v, |v.entries| - k
  {
    hide PlainContent, Renderable, Render, ScalarText;
    if k < |v.entries| {
      var e := v.entries[k];
      RenderableEntry(v, k);
      KeyPrefix(e.key);
      EntriesPlain(v, k + 1, indent);
      if Inline(e.value) {
        RenderableScalar(e.value);
        ScalarPlain(e.value);
        PrefixedPlain(e.key + ": ", ScalarText(e.value));
      } else {
        RenderPlain(e.value, indent + 2);
      }
    }
  }

  lemma {:induction false} ItemsPlain(v: Yaml, k: nat, indent: nat)
    requires v.Seq? && Renderable(v) && k <= |v.items|
    ensures AllPlain(RenderItems(v, k, indent))
    decreases v, |v.items| - k
  {
    hide PlainContent, Renderable, RenderItem;
    if k < |v.items| {
      RenderableItem(v, k);
      ItemPlain(v.items[k], indent);
      ItemsPlain(v, k + 1, indent);
    }
  }

  lemma {:induction false} ItemPlain(item: Yaml, indent: nat)
    requires Renderable(item)
    ensures AllPlain(RenderItem(item, indent))
    decreases item, Width(item) + 2
  {
    hide PlainContent, Renderable, Render, ScalarText;
    DashPrefix();
    if Inline(item) {
      RenderableScalar(item);
      ScalarPlain(item);
      PrefixedPlain("- ", ScalarText(item));
    } else {
      RenderPlain(item, indent + 2);
      var block := Render(item, indent + 2);
      if item.Map? && block != [] {
        assert PlainContent(block[0].content);
        PrefixedPlain("- ", block[0].content);
      }
    }
  }

  lemma DashPrefix()
    ensures NeutralPrefix("- ") && PlainContent("-")
  {}

  lemma SpacesNoComment(n: nat)
    ensures NoComment(Spaces(n))
  {}

  /** A rendered line comes back from its text. */
  lemma LineReadsBack(line: Line)
    requires PlainContent(line.content)
    ensures LineOf(LineText(line)) == [line]
    ensures Free(LineText(line), '\n') && Free(LineText(line), '\r')
  {
    hide NoComment;
    var raw := LineText(line);
    SpacesNoComment(line.indent);
    PrefixedNoComment(Spaces(line.indent), line.content);
    UncommentedLine(raw);
    assert raw[..|raw|] == raw;
    assert !IsSpace(raw[|raw| - 1]);
    CountSpaces(line.indent, line.content);
    assert raw[line.indent..] == line.content;
  }

  lemma UncommentedLine(raw: string)
    requires NoComment(raw)
    ensures CommentFrom(raw, 0) == |raw|
  {
    var n := CommentFrom(raw, 0);
  }

  lemma {:induction false} CountSpaces(n: nat, content: string)
    requires content != [] && content[0] != ' '
    ensures LeadingSpaces(Spaces(n) + content) == n
  {
    if n == 0 {
      assert Spaces(0) + content == content;
    } else {
      CountSpaces(n - 1, content);
      assert (Spaces(n) + content)[1..] == Spaces(n - 1) + content;
    }
  }

  lemma {:induction false} DropCrFree(text: string)
    requires Free(text, '\r')
    ensures DropCr(text) == text
  {
    if text != [] {
      DropCrFree(text[1..]);
      assert text[0] in text;
      assert text == [text[0]] + text[1..];
    }
  }

  lemma {:induction false} LinesOfConcat(a: seq<string>, b: seq<string>)
    ensures LinesOf(a + b) == LinesOf(a) + LinesOf(b)
  {
    hide LineOf;
    if b == [] {
      assert a + b == a;
    } else {
      LinesOfConcat(a, b[..|b| - 1]);
      assert (a + b)[..|a + b| - 1] == a + b[..|b| - 1];
    }
  }

  lemma {:induction false} TextReadsBack(lines: seq<Line>)
    requires lines != [] && AllPlain(lines)
    ensures LinesOf(Split(TextOf(lines), '\n')) == lines && Free(TextOf(lines), '\r')
  {
    hide PlainContent, LineOf, LineText, Split;
    var first := LineText(lines[0]);
    LineReadsBack(lines[0]);
    assert [first][..0] == [];
    assert LinesOf([first]) == LinesOf([]) + LineOf(first) == [lines[0]];
    if |lines| == 1 {
      SplitFree(first, '\n');
    } else {
      TextReadsBack(lines[1..]);
      var rest := TextOf(lines[1..]);
      SplitJoin(first, rest, '\n');
      LinesOfConcat([first], Split(rest, '\n'));
      assert lines == [lines[0]] + lines[1..];
    }
  }

  /** Parsing undoes rendering: every tree of mappings and sequences, empty ones below the
      root included, over any scalars, its strings quoted, comes back from its two-space
      text exactly. */
  lemma DocumentReadsBack(v: Yaml)
    requires !Inline(v) && Renderable(v)
    ensures Parse(Document(v)) == Some(v)
  {
    hide Render, ParseBlock, Renderable, AllPlain;
    RenderPlain(v, 0);
    RenderShape(v, 0);
    var lines := Render(v, 0);
    TextReadsBack(lines);
    DropCrFree(TextOf(lines));
    BlockReadsBack(v, 0, 0, []);
    assert lines + [] == lines;
  }
}
