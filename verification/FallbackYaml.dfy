/**
  The parser of last resort for authority-policy.yaml (authority_policy.py): raw lines are cut into
  (indent, text) pairs, which three mutually recursive routines read through one shared cursor.
  Dictionaries keep insertion order; a repeated key keeps its place and takes the last value.
*/
module FallbackYaml {
  import opened Wrappers

  datatype Value =
    | Null
    | Bool(truth: bool)
    | Int(number: int)
    | Str(text: string)
    | List(items: seq<Value>)
    | Map(entries: seq<Entry>)

  datatype Entry = Entry(key: string, value: Value)

  datatype Line = Line(indent: nat, text: string)

  // ---------------------------------------------------------------------------
  // Strings.
  // ---------------------------------------------------------------------------

  // What str.strip() removes.
  predicate IsSpace(c: char) {
    || c == ' ' || '\t' <= c <= '\r' || '\U{1c}' <= c <= '\U{1f}' || c == '\U{85}' || c == '\U{a0}'
    || c == '\U{1680}' || '\U{2000}' <= c <= '\U{200a}' || c == '\U{2028}' || c == '\U{2029}'
    || c == '\U{202f}' || c == '\U{205f}' || c == '\U{3000}'
  }

  function RStrip(s: string): (r: string)
    ensures |r| <= |s|
  {
    if s != "" && IsSpace(s[|s| - 1]) then RStrip(s[..|s| - 1]) else s
  }

  function LStrip(s: string): (r: string)
    ensures |r| <= |s|
  {
    if s != "" && IsSpace(s[0]) then LStrip(s[1..]) else s
  }

  function Strip(s: string): (r: string)
    ensures |r| <= |s|
  {
    LStrip(RStrip(s))
  }

  // How many spaces a string begins with.
  function Indentation(s: string): (n: nat)
    ensures n <= |s|
  {
    if s != "" && s[0] == ' ' then 1 + Indentation(s[1..]) else 0
  }

  // The position of the first c, or the length.
  function IndexOf(s: string, c: char): (i: nat)
    ensures i <= |s| && (i < |s| <==> c in s)
  {
    if s == "" || s[0] == c then 0 else 1 + IndexOf(s[1..], c)
  }

  function SplitAt(s: string, c: char): (parts: seq<string>)
    ensures forall p :: p in parts ==> |p| <= |s|
    decreases |s|
  {
    var i := IndexOf(s, c);
    if i == |s| then [s] else [s[..i]] + SplitAt(s[i + 1..], c)
  }

  function LowerChar(c: char): char {
    if 'A' <= c <= 'Z' then ((c as int) + 32) as char else c
  }

  function Lower(s: string): (r: string)
    ensures |r| == |s| && forall k :: 0 <= k < |s| ==> r[k] == LowerChar(s[k])
  {
    seq(|s|, (i: nat) requires i < |s| => LowerChar(s[i]))
  }

  // ---------------------------------------------------------------------------
  // _scalar().
  // ---------------------------------------------------------------------------

  predicate IsDigit(c: char) {
    '0' <= c <= '9'
  }

  // Digits with single underscores between them, as int() accepts.
  predicate IsNumeral(s: string) {
    && s != "" && IsDigit(s[0]) && IsDigit(s[|s| - 1])
    && (forall k :: 0 <= k < |s| ==> IsDigit(s[k]) || s[k] == '_')
    && (forall k :: 0 < k < |s| ==> !(s[k] == '_' && s[k - 1] == '_'))
  }

  function NumeralValue(s: string): nat {
    if s == "" then 0
    else
      var c := s[|s| - 1];
      if IsDigit(c) then 10 * NumeralValue(s[..|s| - 1]) + (c as int - '0' as int)
      else NumeralValue(s[..|s| - 1])
  }

  // int() on ASCII text; None when it raises ValueError.
  function ParseInt(s: string): Option<int> {
    if IsNumeral(s) then Some(NumeralValue(s))
    else if s != "" && s[0] == '-' && IsNumeral(s[1..]) then Some(-(NumeralValue(s[1..]) as int))
    else if s != "" && s[0] == '+' && IsNumeral(s[1..]) then Some(NumeralValue(s[1..]))
    else None
  }

  function Scalar(s: string): Value
    decreases |s|
  {
    if s == "" || Lower(s) == "null" || s == "~" then Null
    else if Lower(s) == "true" then Bool(true)
    else if Lower(s) == "false" then Bool(false)
    else if s[0] == '[' && s[|s| - 1] == ']' then
      var inner := Strip(s[1..|s| - 1]);
      if inner == "" then List([])
      else
        var parts := SplitAt(inner, ',');
        List(seq(|parts|, (i: nat) requires i < |parts| => (assert parts[i] in parts; Scalar(Strip(parts[i])))))
    else match ParseInt(s)
      case Some(n) => Int(n)
      case None =>
        if |s| >= 2 && s[0] == s[|s| - 1] && s[0] in ['\'', '"'] then Str(s[1..|s| - 1]) else Str(s)
  }

  // ---------------------------------------------------------------------------
  // Raw lines.
  // ---------------------------------------------------------------------------

  // None for a line that is blank once its comment is cut off.
  function ReadLine(raw: string): Option<Line> {
    var stripped := RStrip(raw[..IndexOf(raw, '#')]);
    if Strip(stripped) == "" then None
    else Some(Line(Indentation(stripped), stripped[Indentation(stripped)..]))
  }

  function Kept(line: Option<Line>): seq<Line> {
    match line
    case None => []
    case Some(l) => [l]
  }

  function ReadLines(raws: seq<string>): seq<Line> {
    if raws == [] then [] else Kept(ReadLine(raws[0])) + ReadLines(raws[1..])
  }

  lemma ReadLinesStep(raws: seq<string>, i: nat)
    requires i < |raws|
    ensures ReadLines(raws[i..]) == Kept(ReadLine(raws[i])) + ReadLines(raws[i + 1..])
  {
    assert raws[i..][1..] == raws[i + 1..];
  }

  // ---------------------------------------------------------------------------
  // What the three routines compute from the lines ahead of the cursor: a value, and the lines
  // still ahead. None of them ever goes back.
  // ---------------------------------------------------------------------------

  function Put(entries: seq<Entry>, key: string, value: Value): seq<Entry> {
    if entries == [] then [Entry(key, value)]
    else if entries[0].key == key then [Entry(key, value)] + entries[1..]
    else [entries[0]] + Put(entries[1..], key, value)
  }

  predicate IsItem(text: string) {
    "- " <= text
  }

  function KeyOf(text: string): string {
    Strip(text[..IndexOf(text, ':')])
  }

  function ValueOf(text: string): string
    requires ':' in text
  {
    Strip(text[IndexOf(text, ':') + 1..])
  }

  function Block(ahead: seq<Line>, indent: nat): (r: (Value, seq<Line>))
    ensures |r.1| <= |ahead|
    decreases |ahead|, 1
  {
    if ahead == [] || ahead[0].indent < indent then (Null, ahead)
    else if IsItem(ahead[0].text) then Items(ahead, indent, [])
    else Entries(ahead, indent, [])
  }

  function Entries(ahead: seq<Line>, indent: nat, done: seq<Entry>): (r: (Value, seq<Line>))
    ensures |r.1| <= |ahead|
    decreases |ahead|, 0
  {
    if ahead == [] || ahead[0].indent != indent || ':' !in ahead[0].text then (Map(done), ahead)
    else
      var (item, rest) := EntryValue(ahead[1..], indent, ValueOf(ahead[0].text));
      Entries(rest, indent, Put(done, KeyOf(ahead[0].text), item))
  }

  // The value of a key from the text after its colon and, if that is blank, the lines below.
  function EntryValue(ahead: seq<Line>, indent: nat, text: string): (r: (Value, seq<Line>))
    ensures |r.1| <= |ahead|
    decreases |ahead|, 2
  {
    if text != "" then (Scalar(text), ahead)
    else
      var (sub, rest) := Block(ahead, indent + 2);
      (if sub == Null then Map([]) else sub, rest)
  }

  function Items(ahead: seq<Line>, indent: nat, done: seq<Value>): (r: (Value, seq<Line>))
    ensures |r.1| <= |ahead|
    decreases |ahead|, 0
  {
    if ahead == [] || ahead[0].indent != indent || !IsItem(ahead[0].text) then (List(done), ahead)
    else
      var (item, rest) := ItemValue(ahead[1..], indent, Strip(ahead[0].text[2..]));
      Items(rest, indent, done + [item])
  }

  function ItemValue(ahead: seq<Line>, indent: nat, text: string): (r: (Value, seq<Line>))
    ensures |r.1| <= |ahead|
    decreases |ahead|, 2
  {
    if text == "" then Block(ahead, indent + 2)
    else if ':' in text then ItemMap(ahead, indent + 2, text)
    else (Scalar(text), ahead)
  }

  // A mapping that begins on an item's line.
  function ItemMap(ahead: seq<Line>, indent: nat, text: string): (r: (Value, seq<Line>))
    requires ':' in text
    ensures |r.1| <= |ahead|
  {
    var (entries, rest) := MoreKeys(ahead, indent, [Entry(KeyOf(text), Scalar(ValueOf(text)))]);
    (Map(entries), rest)
  }

  // The further keys of a mapping that began on an item's line.
  function MoreKeys(ahead: seq<Line>, indent: nat, done: seq<Entry>): (r: (seq<Entry>, seq<Line>))
    ensures |r.1| <= |ahead|
    decreases |ahead|
  {
    if ahead == [] || ahead[0].indent != indent || IsItem(ahead[0].text) || ':' !in ahead[0].text then (done, ahead)
    else MoreKeys(ahead[1..], indent, Put(done, KeyOf(ahead[0].text), Scalar(ValueOf(ahead[0].text))))
  }

  // What a routine leaves is the end of what it was given: it reads on from the cursor and never
  // goes back or jumps.
  predicate IsSuffix(rest: seq<Line>, all: seq<Line>) {
    |rest| <= |all| && all[|all| - |rest|..] == rest
  }

  lemma SuffixOfTail(rest: seq<Line>, all: seq<Line>)
    requires all != [] && IsSuffix(rest, all[1..])
    ensures IsSuffix(rest, all)
  {
    assert all[1..][|all| - 1 - |rest|..] == all[|all| - |rest|..];
  }

  lemma SuffixOfSuffix(rest: seq<Line>, some: seq<Line>, all: seq<Line>)
    requires IsSuffix(rest, some) && IsSuffix(some, all)
    ensures IsSuffix(rest, all)
  {
    assert all[|all| - |some|..][|some| - |rest|..] == all[|all| - |rest|..];
  }

  lemma {:induction false} BlockLeavesSuffix(ahead: seq<Line>, indent: nat)
    ensures IsSuffix(Block(ahead, indent).1, ahead)
    decreases |ahead|, 1
  {
    if ahead == [] {
    } else if ahead[0].indent >= indent {
      if IsItem(ahead[0].text) {
        ItemsLeaveSuffix(ahead, indent, []);
      } else {
        EntriesLeaveSuffix(ahead, indent, []);
      }
    }
  }

  lemma SuffixStep(rest: seq<Line>, some: seq<Line>, all: seq<Line>)
    requires all != [] && IsSuffix(rest, some) && IsSuffix(some, all[1..])
    ensures IsSuffix(rest, all)
  {
    SuffixOfSuffix(rest, some, all[1..]);
    SuffixOfTail(rest, all);
  }

  lemma {:induction false} EntryValueLeavesSuffix(ahead: seq<Line>, indent: nat, text: string)
    ensures IsSuffix(EntryValue(ahead, indent, text).1, ahead)
    decreases |ahead|, 2
  {
    if text == "" {
      BlockLeavesSuffix(ahead, indent + 2);
    }
  }

  lemma {:induction false} EntriesLeaveSuffix(ahead: seq<Line>, indent: nat, done: seq<Entry>)
    ensures IsSuffix(Entries(ahead, indent, done).1, ahead)
    decreases |ahead|, 0
  {
    if ahead == [] {
    } else if ahead[0].indent == indent && ':' in ahead[0].text {
      var text := ValueOf(ahead[0].text);
      var (item, rest) := EntryValue(ahead[1..], indent, text);
      var next := Put(done, KeyOf(ahead[0].text), item);
      EntryValueLeavesSuffix(ahead[1..], indent, text);
      EntriesLeaveSuffix(rest, indent, next);
      SuffixStep(Entries(rest, indent, next).1, rest, ahead);
    }
  }

  lemma {:induction false} MoreKeysLeaveSuffix(ahead: seq<Line>, indent: nat, done: seq<Entry>)
    ensures IsSuffix(MoreKeys(ahead, indent, done).1, ahead)
    decreases |ahead|
  {
    if ahead == [] {
    } else if ahead[0].indent == indent && !IsItem(ahead[0].text) && ':' in ahead[0].text {
      var next := Put(done, KeyOf(ahead[0].text), Scalar(ValueOf(ahead[0].text)));
      MoreKeysLeaveSuffix(ahead[1..], indent, next);
      SuffixOfTail(MoreKeys(ahead[1..], indent, next).1, ahead);
    }
  }

  lemma {:induction false} ItemValueLeavesSuffix(ahead: seq<Line>, indent: nat, text: string)
    ensures IsSuffix(ItemValue(ahead, indent, text).1, ahead)
    decreases |ahead|, 2
  {
    if text == "" {
      BlockLeavesSuffix(ahead, indent + 2);
    } else if ':' in text {
      MoreKeysLeaveSuffix(ahead, indent + 2, [Entry(KeyOf(text), Scalar(ValueOf(text)))]);
    }
  }

  lemma {:induction false} ItemsLeaveSuffix(ahead: seq<Line>, indent: nat, done: seq<Value>)
    ensures IsSuffix(Items(ahead, indent, done).1, ahead)
    decreases |ahead|, 0
  {
    if ahead == [] {
    } else if ahead[0].indent == indent && IsItem(ahead[0].text) {
      var text := Strip(ahead[0].text[2..]);
      var (item, rest) := ItemValue(ahead[1..], indent, text);
      ItemValueLeavesSuffix(ahead[1..], indent, text);
      ItemsLeaveSuffix(rest, indent, done + [item]);
      SuffixStep(Items(rest, indent, done + [item]).1, rest, ahead);
    }
  }

  lemma {:induction false} MoreKeysStep(ahead: seq<Line>, indent: nat, done: seq<Entry>)
    requires ahead != [] && ahead[0].indent == indent && !IsItem(ahead[0].text) && ':' in ahead[0].text
    ensures MoreKeys(ahead, indent, done)
         == MoreKeys(ahead[1..], indent, Put(done, KeyOf(ahead[0].text), Scalar(ValueOf(ahead[0].text))))
  {
  }

  function Parsed(raws: seq<string>): Value {
    Block(ReadLines(raws), 0).0
  }

  // ---------------------------------------------------------------------------
  // The parser as it is written: nested routines that share the lines and a cursor.
  // ---------------------------------------------------------------------------

  class Parser {
    const lines: seq<Line>
    var idx: nat

    constructor (lines: seq<Line>)
      ensures this.lines == lines && idx == 0
    {
      this.lines := lines;
      idx := 0;
    }

    method ParseBlock(indent: nat) returns (value: Value)
      requires idx <= |lines|
      modifies this
      ensures old(idx) <= idx <= |lines|
      ensures (value, lines[idx..]) == Block(lines[old(idx)..], indent)
      decreases |lines| - idx, 1
    {
      if idx >= |lines| {
        return Null;
      }
      var first := lines[idx];
      if first.indent < indent {
        return Null;
      }
      if IsItem(first.text) {
        value := ParseList(indent);
      } else {
        value := ParseMap(indent);
      }
    }

    method ParseMap(indent: nat) returns (value: Value)
      requires idx <= |lines|
      modifies this
      ensures old(idx) <= idx <= |lines|
      ensures (value, lines[idx..]) == Entries(lines[old(idx)..], indent, [])
      decreases |lines| - idx, 0
    {
      var result: seq<Entry> := [];
      ghost var whole, ahead := Entries(lines[idx..], indent, []), lines[idx..];
      while idx < |lines|
        invariant old(idx) <= idx <= |lines| && ahead == lines[idx..]
        invariant Entries(ahead, indent, result) == whole
        decreases |lines| - idx
      {
        var line := lines[idx];
        if line.indent != indent || ':' !in line.text {
          break;
        }
        var key, text := KeyOf(line.text), ValueOf(line.text);
        idx := idx + 1;
        assert ahead[1..] == lines[idx..];
        var item := ParseEntryValue(indent, text);
        result := Put(result, key, item);
        ahead := lines[idx..];
      }
      value := Map(result);
    }
  
    method ParseEntryValue(indent: nat, text: string) returns (item: Value)
      requires idx <= |lines|
      modifies this
      ensures old(idx) <= idx <= |lines|
      ensures (item, lines[idx..]) == EntryValue(lines[old(idx)..], indent, text)
      decreases |lines| - idx, 2
    {
      if text != "" {
        return Scalar(text);
      }
      var sub := Null;
      if idx < |lines| {
        sub := ParseBlock(indent + 2);
      }
      item := if sub == Null then Map([]) else sub;
    }

    method ParseList(indent: nat) returns (value: Value)
      requires idx <= |lines|
      modifies this
      ensures old(idx) <= idx <= |lines|
      ensures (value, lines[idx..]) == Items(lines[old(idx)..], indent, [])
      decreases |lines| - idx, 0
    {
      var result: seq<Value> := [];
      ghost var whole, ahead := Items(lines[idx..], indent, []), lines[idx..];
      while idx < |lines|
        invariant old(idx) <= idx <= |lines| && ahead == lines[idx..]
        invariant Items(ahead, indent, result) == whole
        decreases |lines| - idx
      {
        var line := lines[idx];
        if line.indent != indent || !IsItem(line.text) {
          break;
        }
        var text := Strip(line.text[2..]);
        idx := idx + 1;
        assert ahead[1..] == lines[idx..];
        var item := ParseItemValue(indent, text);
        result := result + [item];
        ahead := lines[idx..];
      }
      value := List(result);
    }

    method ParseItemValue(indent: nat, text: string) returns (item: Value)
      requires idx <= |lines|
      modifies this
      ensures old(idx) <= idx <= |lines|
      ensures (item, lines[idx..]) == ItemValue(lines[old(idx)..], indent, text)
      decreases |lines| - idx, 2
    {
      if text == "" {
        item := ParseBlock(indent + 2);
      } else if ':' in text {
        item := ParseItemMap(indent + 2, text);
      } else {
        item := Scalar(text);
      }
    }

    method ParseItemMap(indent: nat, text: string) returns (value: Value)
      requires idx <= |lines| && ':' in text
      modifies this
      ensures old(idx) <= idx <= |lines|
      ensures (value, lines[idx..]) == ItemMap(lines[old(idx)..], indent, text)
      decreases |lines| - idx, 0
    {
      var entry := [Entry(KeyOf(text), Scalar(ValueOf(text)))];
      ghost var whole, ahead := MoreKeys(lines[idx..], indent, entry), lines[idx..];
      assert ItemMap(ahead, indent, text) == (Map(whole.0), whole.1);
      while idx < |lines|
        invariant old(idx) <= idx <= |lines| && ahead == lines[idx..]
        invariant MoreKeys(ahead, indent, entry) == whole
        decreases |lines| - idx
      {
        var line := lines[idx];
        if line.indent != indent || IsItem(line.text) || ':' !in line.text {
          break;
        }
        MoreKeysStep(ahead, indent, entry);
        assert ahead[1..] == lines[idx + 1..];
        entry := Put(entry, KeyOf(line.text), Scalar(ValueOf(line.text)));
        idx := idx + 1;
        ahead := ahead[1..];
      }
      value := Map(entry);
    }
  }

  lemma InParts(a: seq<Line>, b: seq<Line>, c: seq<Line>)
    ensures a + (b + c) == (a + b) + c
    ensures b == [] ==> a + b == a
  {
  }

  lemma {:induction false} ReadOneMore(lines: seq<Line>, raws: seq<string>, i: nat)
    requires i < |raws|
    ensures lines + ReadLines(raws[i..])
         == match ReadLine(raws[i])
            case None => lines + ReadLines(raws[i + 1..])
            case Some(line) => (lines + [line]) + ReadLines(raws[i + 1..])
  {
    ReadLinesStep(raws, i);
    InParts(lines, Kept(ReadLine(raws[i])), ReadLines(raws[i + 1..]));
  }

  // The loop over the raw lines.
  method ReadAll(raws: seq<string>) returns (lines: seq<Line>)
    ensures lines == ReadLines(raws)
  {
    lines := [];
    ghost var left := raws;
    for i := 0 to |raws|
      invariant left == raws[i..]
      invariant lines + ReadLines(left) == ReadLines(raws)
    {
      ReadOneMore(lines, raws, i);
      var line := ReadLine(raws[i]);
      if line.Some? {
        lines := lines + [line.value];
      }
      left := raws[i + 1..];
    }
    InParts(lines, [], []);
  }

  // The whole parser. Lines the block at indentation zero does not reach are dropped unnoticed.
  method Parse(raws: seq<string>) returns (value: Value)
    ensures value == Parsed(raws)
  {
    var lines := ReadAll(raws);
    var parser := new Parser(lines);
    assert lines[0..] == lines;
    value := parser.ParseBlock(0);
  }
}
