/**
  A two-space printer for the documents the fallback parser supports (authority_policy.py), and
  the proof that parsing what it prints gives the document back.
*/
module YamlRoundTrip {
  import opened Wrappers
  import opened FallbackYaml
  import opened YamlText

  // ---------------------------------------------------------------------------
  // Supported documents: mappings nested to any depth, empty ones included below the root, and
  // lists whose items are scalars or flat mappings.
  // ---------------------------------------------------------------------------

  predicate Distinct(es: seq<Entry>) {
    forall i, j :: 0 <= i < j < |es| ==> es[i].key != es[j].key
  }

  predicate GoodFlat(e: Entry) {
    GoodKey(e.key) && GoodScalar(e.value)
  }

  predicate GoodItem(v: Value) {
    || (GoodScalar(v) && !(v.Str? && ':' in v.text))
    || (v.Map? && v.entries != [] && Distinct(v.entries) && forall e :: e in v.entries ==> GoodFlat(e))
  }

  predicate GoodValue(v: Value)
    decreases v
  {
    || GoodScalar(v)
    || (v.List? && forall x :: x in v.items ==> GoodItem(x))
    || (v.Map? && Distinct(v.entries) && forall e :: e in v.entries ==> GoodKey(e.key) && GoodValue(e.value))
  }

  predicate GoodDocument(v: Value) {
    GoodValue(v) && ((v.Map? && v.entries != []) || (v.List? && v.items != []))
  }

  // ---------------------------------------------------------------------------
  // The printer.
  // ---------------------------------------------------------------------------

  function FlatText(e: Entry): string
    requires GoodFlat(e)
  {
    e.key + ":" + (" " + ScalarText(e.value))
  }

  function FlatLines(es: seq<Entry>, n: nat): seq<Line>
    requires forall e :: e in es ==> GoodFlat(e)
  {
    if es == [] then [] else [Line(n, FlatText(es[0]))] + FlatLines(es[1..], n)
  }

  function ItemText(v: Value): string
    requires GoodItem(v)
  {
    if v.Map? then FlatText(v.entries[0]) else ScalarText(v)
  }

  // What lies below an item's own line.
  function ItemRest(v: Value, n: nat): seq<Line>
    requires GoodItem(v)
  {
    if v.Map? then FlatLines(v.entries[1..], n + 2) else []
  }

  function ItemLines(items: seq<Value>, n: nat): seq<Line>
    requires forall x :: x in items ==> GoodItem(x)
  {
    if items == [] then []
    else
      [Line(n, "- " + ItemText(items[0]))] + (ItemRest(items[0], n) + ItemLines(items[1..], n))
  }

  function BlockLines(v: Value, n: nat): seq<Line>
    requires GoodValue(v) && !GoodScalar(v)
    decreases v
  {
    if v.List? then ItemLines(v.items, n) else EntryLines(v.entries, n)
  }

  function EntryText(e: Entry): string
    requires GoodKey(e.key) && GoodValue(e.value)
  {
    if GoodScalar(e.value) then FlatText(e) else e.key + ":" + ""
  }

  function EntryLines(es: seq<Entry>, n: nat): seq<Line>
    requires forall e :: e in es ==> GoodKey(e.key) && GoodValue(e.value)
    decreases es
  {
    if es == [] then []
    else
      [Line(n, EntryText(es[0]))]
      + ((if GoodScalar(es[0].value) then [] else BlockLines(es[0].value, n + 2)) + EntryLines(es[1..], n))
  }

  function Spaces(n: nat): (s: string)
    ensures |s| == n && forall k :: 0 <= k < n ==> s[k] == ' '
  {
    if n == 0 then "" else " " + Spaces(n - 1)
  }

  function RawLines(lines: seq<Line>): seq<string> {
    if lines == [] then [] else [Spaces(lines[0].indent) + lines[0].text] + RawLines(lines[1..])
  }

  function Printed(v: Value): seq<string>
    requires GoodDocument(v)
  {
    RawLines(BlockLines(v, 0))
  }

  // ---------------------------------------------------------------------------
  // Reading printed lines back.
  // ---------------------------------------------------------------------------

  lemma FlatTextBack(e: Entry)
    requires GoodFlat(e)
    ensures var text := FlatText(e);
            && ':' in text && !IsItem(text)
            && KeyOf(text) == e.key && ValueOf(text) != "" && Scalar(ValueOf(text)) == e.value
  {
    var t := ScalarText(e.value);
    ScalarTextShape(e.value);
    KeyLine(e.key, " " + t);
    NotAnItem(e.key, " " + t);
    StripAfterSpace(t);
    ScalarBack(e.value);
  }

  lemma {:induction false} PutNew(es: seq<Entry>, e: Entry)
    requires forall d :: d in es ==> d.key != e.key
    ensures Put(es, e.key, e.value) == es + [e]
    decreases |es|
  {
    if es == [] {
    } else {
      assert es[0] in es;
      PutNew(es[1..], e);
    }
  }

  // Reading one more distinct entry.
  lemma PutNext(done: seq<Entry>, es: seq<Entry>)
    requires es != [] && Distinct(done + es)
    ensures Put(done, es[0].key, es[0].value) == done + [es[0]]
    ensures (done + [es[0]]) + es[1..] == done + es
  {
    var all := done + es;
    assert all[|done|] == es[0];
    forall d | d in done ensures d.key != es[0].key {
      var i :| 0 <= i < |done| && done[i] == d;
      assert all[i] == d;
    }
    PutNew(done, es[0]);
  }

  // The lines that follow a block printed at indentation n do not belong to it.
  predicate Ends(tail: seq<Line>, n: nat) {
    tail == [] || tail[0].indent < n
  }

  lemma {:induction false} MoreStep(ahead: seq<Line>, n: nat, done: seq<Entry>, e: Entry)
    requires ahead != [] && GoodFlat(e) && ahead[0] == Line(n, FlatText(e))
    ensures MoreKeys(ahead, n, done) == MoreKeys(ahead[1..], n, Put(done, e.key, e.value))
  {
    FlatTextBack(e);
  }

  lemma FlatLinesAhead(es: seq<Entry>, n: nat, tail: seq<Line>)
    requires es != [] && forall e :: e in es ==> GoodFlat(e)
    ensures var ahead := FlatLines(es, n) + tail;
            ahead != [] && ahead[0] == Line(n, FlatText(es[0])) && ahead[1..] == FlatLines(es[1..], n) + tail
  {
    var line, later := [Line(n, FlatText(es[0]))], FlatLines(es[1..], n);
    assert (line + later) + tail == line + (later + tail);
  }

  lemma {:induction false} MoreBack(es: seq<Entry>, n: nat, done: seq<Entry>, tail: seq<Line>)
    requires (forall e :: e in es ==> GoodFlat(e)) && Distinct(done + es) && Ends(tail, n)
    ensures MoreKeys(FlatLines(es, n) + tail, n, done) == (done + es, tail)
    decreases |es|
  {
    if es == [] {
      assert [] + tail == tail && done + [] == done;
    } else {
      FlatLinesAhead(es, n, tail);
      MoreStep(FlatLines(es, n) + tail, n, done, es[0]);
      PutNext(done, es);
      MoreBack(es[1..], n, done + [es[0]], tail);
    }
  }

  lemma TrimmedEnds(k: string, rest: string)
    requires GoodKey(k) && rest != "" && !IsSpace(rest[|rest| - 1])
    ensures Trimmed(k + ":" + rest)
  {
    var text := k + ":" + rest;
    assert text[|text| - 1] == rest[|rest| - 1];
    assert text[0] == if k == "" then ':' else k[0];
  }

  lemma ItemTextShape(v: Value)
    requires GoodItem(v)
    ensures ItemText(v) != "" && Trimmed(ItemText(v))
    ensures ':' in ItemText(v) <==> v.Map?
  {
    if v.Map? {
      var e := v.entries[0];
      assert e in v.entries && GoodFlat(e);
      ScalarTextShape(e.value);
      TrimmedEnds(e.key, " " + ScalarText(e.value));
      FlatTextBack(e);
    } else {
      ScalarTextShape(v);
    }
  }

  lemma ItemLineBack(v: Value)
    requires GoodItem(v)
    ensures var text := "- " + ItemText(v); IsItem(text) && Strip(text[2..]) == ItemText(v)
  {
    var text := "- " + ItemText(v);
    assert text[2..] == ItemText(v) && text[..2] == "- ";
    ItemTextShape(v);
    TrimmedStrip(ItemText(v));
  }

  lemma {:induction false} ItemMapBack(es: seq<Entry>, n: nat, tail: seq<Line>)
    requires es != [] && Distinct(es) && (forall e :: e in es ==> GoodFlat(e)) && Ends(tail, n)
    ensures ':' in FlatText(es[0]) && ItemMap(FlatLines(es[1..], n) + tail, n, FlatText(es[0])) == (Map(es), tail)
  {
    FlatTextBack(es[0]);
    assert [es[0]] + es[1..] == es;
    MoreBack(es[1..], n, [es[0]], tail);
  }

  lemma {:induction false} ItemBack(v: Value, n: nat, tail: seq<Line>)
    requires GoodItem(v) && Ends(tail, n + 2)
    ensures ItemValue(ItemRest(v, n) + tail, n, ItemText(v)) == (v, tail)
  {
    ItemTextShape(v);
    if v.Map? {
      ItemMapBack(v.entries, n + 2, tail);
    } else {
      ScalarBack(v);
      assert [] + tail == tail;
    }
  }

  lemma Ahead(line: Line, rest: seq<Line>, later: seq<Line>, tail: seq<Line>)
    ensures var ahead := ([line] + (rest + later)) + tail;
            ahead[0] == line && ahead[1..] == rest + (later + tail)
  {
  }

  lemma ItemLinesEnd(items: seq<Value>, n: nat, tail: seq<Line>)
    requires (forall x :: x in items ==> GoodItem(x)) && Ends(tail, n)
    ensures Ends(ItemLines(items, n) + tail, n + 2)
  {
  }

  lemma ItemLinesAhead(items: seq<Value>, n: nat, tail: seq<Line>)
    requires items != [] && (forall x :: x in items ==> GoodItem(x)) && Ends(tail, n)
    ensures var ahead, after := ItemLines(items, n) + tail, ItemLines(items[1..], n) + tail;
            && ahead != [] && ahead[0] == Line(n, "- " + ItemText(items[0]))
            && ahead[1..] == ItemRest(items[0], n) + after
            && Ends(after, n + 2)
  {
    Ahead(Line(n, "- " + ItemText(items[0])), ItemRest(items[0], n), ItemLines(items[1..], n), tail);
    ItemLinesEnd(items[1..], n, tail);
  }

  lemma {:induction false} ItemsStep(ahead: seq<Line>, n: nat, done: seq<Value>, v: Value, after: seq<Line>)
    requires GoodItem(v) && Ends(after, n + 2)
    requires ahead != [] && ahead[0] == Line(n, "- " + ItemText(v)) && ahead[1..] == ItemRest(v, n) + after
    ensures Items(ahead, n, done) == Items(after, n, done + [v])
  {
    ItemLineBack(v);
    ItemBack(v, n, after);
  }

  lemma FirstMoved<T>(done: seq<T>, items: seq<T>)
    requires items != []
    ensures (done + [items[0]]) + items[1..] == done + items
  {
  }

  lemma {:induction false} ItemsBack(items: seq<Value>, n: nat, done: seq<Value>, tail: seq<Line>)
    requires (forall x :: x in items ==> GoodItem(x)) && Ends(tail, n)
    ensures Items(ItemLines(items, n) + tail, n, done) == (List(done + items), tail)
    decreases |items|
  {
    if items == [] {
      assert [] + tail == tail && done + [] == done;
    } else {
      var v, after := items[0], ItemLines(items[1..], n) + tail;
      ItemLinesAhead(items, n, tail);
      ItemsStep(ItemLines(items, n) + tail, n, done, v, after);
      ItemsBack(items[1..], n, done + [v], tail);
      FirstMoved(done, items);
    }
  }

  // What lies below an entry's own line.
  function EntryRest(e: Entry, n: nat): seq<Line>
    requires GoodKey(e.key) && GoodValue(e.value)
  {
    if GoodScalar(e.value) then [] else BlockLines(e.value, n + 2)
  }

  lemma EntryTextBack(e: Entry)
    requires GoodKey(e.key) && GoodValue(e.value)
    ensures var text := EntryText(e);
            && ':' in text && !IsItem(text) && KeyOf(text) == e.key
            && (GoodScalar(e.value) ==> ValueOf(text) != "" && Scalar(ValueOf(text)) == e.value)
            && (!GoodScalar(e.value) ==> ValueOf(text) == "")
  {
    if GoodScalar(e.value) {
      FlatTextBack(e);
    } else {
      KeyLine(e.key, "");
      NotAnItem(e.key, "");
    }
  }

  lemma EntryLinesEnd(es: seq<Entry>, n: nat, tail: seq<Line>)
    requires (forall e :: e in es ==> GoodKey(e.key) && GoodValue(e.value)) && Ends(tail, n)
    ensures Ends(EntryLines(es, n) + tail, n + 2)
  {
  }

  lemma EntryLinesAhead(es: seq<Entry>, n: nat, tail: seq<Line>)
    requires es != [] && (forall e :: e in es ==> GoodKey(e.key) && GoodValue(e.value)) && Ends(tail, n)
    ensures var ahead, after := EntryLines(es, n) + tail, EntryLines(es[1..], n) + tail;
            && ahead != [] && ahead[0] == Line(n, EntryText(es[0]))
            && ahead[1..] == EntryRest(es[0], n) + after
            && Ends(after, n + 2)
  {
    Ahead(Line(n, EntryText(es[0])), EntryRest(es[0], n), EntryLines(es[1..], n), tail);
    EntryLinesEnd(es[1..], n, tail);
  }

  lemma {:induction false} EntriesStep(ahead: seq<Line>, n: nat, done: seq<Entry>, e: Entry, after: seq<Line>)
    requires GoodKey(e.key) && GoodValue(e.value) && ahead != [] && ahead[0] == Line(n, EntryText(e))
    requires ':' in EntryText(e) && EntryValue(ahead[1..], n, ValueOf(EntryText(e))) == (e.value, after)
    ensures Entries(ahead, n, done) == Entries(after, n, Put(done, e.key, e.value))
  {
    EntryTextBack(e);
  }

  // A block is read back whole, and the lines after it are left alone; an empty mapping has no
  // lines and reads as nothing.
  lemma {:induction false} BlockBack(v: Value, n: nat, tail: seq<Line>)
    requires GoodValue(v) && !GoodScalar(v) && Ends(tail, n)
    ensures Block(BlockLines(v, n) + tail, n) == (if v == Map([]) then Null else v, tail)
    decreases v
  {
    if v.List? {
      ItemLinesAhead(v.items, n, tail);
      ItemLineBack(v.items[0]);
      ItemsBack(v.items, n, [], tail);
      assert [] + v.items == v.items;
    } else if v.entries == [] {
      assert [] + tail == tail;
    } else {
      EntryLinesAhead(v.entries, n, tail);
      EntryTextBack(v.entries[0]);
      assert [] + v.entries == v.entries;
      EntriesBack(v.entries, n, [], tail);
    }
  }

  lemma {:induction false} EntryBack(e: Entry, n: nat, after: seq<Line>)
    requires GoodKey(e.key) && GoodValue(e.value) && Ends(after, n + 2)
    ensures EntryValue(EntryRest(e, n) + after, n, ValueOf(EntryText(e))) == (e.value, after)
    decreases e
  {
    EntryTextBack(e);
    if GoodScalar(e.value) {
      assert [] + after == after;
    } else {
      BlockBack(e.value, n + 2, after);
    }
  }

  lemma {:induction false} EntriesBack(es: seq<Entry>, n: nat, done: seq<Entry>, tail: seq<Line>)
    requires forall e :: e in es ==> GoodKey(e.key) && GoodValue(e.value)
    requires Distinct(done + es) && Ends(tail, n)
    ensures Entries(EntryLines(es, n) + tail, n, done) == (Map(done + es), tail)
    decreases es
  {
    if es == [] {
      assert [] + tail == tail && done + [] == done;
    } else {
      var e, after := es[0], EntryLines(es[1..], n) + tail;
      EntryLinesAhead(es, n, tail);
      EntryTextBack(e);
      EntryBack(e, n, after);
      EntriesStep(EntryLines(es, n) + tail, n, done, e, after);
      PutNext(done, es);
      EntriesBack(es[1..], n, done + [e], tail);
    }
  }

  // ---------------------------------------------------------------------------
  // Raw lines.
  // ---------------------------------------------------------------------------

  predicate GoodLine(line: Line) {
    line.text != "" && Trimmed(line.text) && OneLine(line.text)
  }

  lemma {:induction false} SpacesBack(n: nat, text: string)
    requires text != "" && !IsSpace(text[0])
    ensures LStrip(Spaces(n) + text) == text && Indentation(Spaces(n) + text) == n
    decreases n
  {
    var raw := Spaces(n) + text;
    if n == 0 {
      assert raw == text;
    } else {
      assert raw[0] == ' ' && raw[1..] == Spaces(n - 1) + text;
      SpacesBack(n - 1, text);
    }
  }

  lemma RawOneLine(n: nat, text: string)
    requires OneLine(text)
    ensures OneLine(Spaces(n) + text)
  {
    var raw := Spaces(n) + text;
    forall c | c in raw ensures c != '#' && !IsBreak(c) {
      var i :| 0 <= i < |raw| && raw[i] == c;
      assert i >= n ==> text[i - n] == c;
    }
  }

  lemma RawLineBack(line: Line)
    requires GoodLine(line)
    ensures ReadLine(Spaces(line.indent) + line.text) == Some(line)
  {
    var n, text := line.indent, line.text;
    var raw := Spaces(n) + text;
    RawOneLine(n, text);
    assert raw[..|raw|] == raw && raw[|raw| - 1] == text[|text| - 1];
    assert RStrip(raw) == raw;
    SpacesBack(n, text);
    assert raw[n..] == text;
  }

  lemma {:induction false} ReadLinesCons(raw: string, raws: seq<string>)
    ensures ReadLines([raw] + raws) == Kept(ReadLine(raw)) + ReadLines(raws)
  {
    assert ([raw] + raws)[1..] == raws;
  }

  lemma {:induction false} RawLinesBack(lines: seq<Line>)
    requires forall l :: l in lines ==> GoodLine(l)
    ensures ReadLines(RawLines(lines)) == lines
    decreases |lines|
  {
    if lines == [] {
    } else {
      var line := lines[0];
      RawLineBack(line);
      RawLinesBack(lines[1..]);
      ReadLinesCons(Spaces(line.indent) + line.text, RawLines(lines[1..]));
      assert [line] + lines[1..] == lines;
    }
  }

  lemma GoodKeyLine(k: string, rest: string)
    requires GoodKey(k) && OneLine(rest) && (rest != "" ==> !IsSpace(rest[|rest| - 1]))
    ensures GoodLine(Line(0, k + ":" + rest))
  {
    if rest == "" {
      var text := k + ":" + rest;
      assert text[|text| - 1] == ':';
      assert text[0] == if k == "" then ':' else k[0];
    } else {
      TrimmedEnds(k, rest);
    }
  }

  lemma FlatLineGood(e: Entry)
    requires GoodFlat(e)
    ensures GoodLine(Line(0, FlatText(e)))
  {
    ScalarTextShape(e.value);
    GoodKeyLine(e.key, " " + ScalarText(e.value));
  }

  lemma {:induction false} FlatLinesGood(es: seq<Entry>, n: nat)
    requires forall e :: e in es ==> GoodFlat(e)
    ensures forall l :: l in FlatLines(es, n) ==> GoodLine(l)
    decreases |es|
  {
    if es == [] {
    } else {
      FlatLineGood(es[0]);
      FlatLinesGood(es[1..], n);
    }
  }

  lemma ItemLineGood(v: Value)
    requires GoodItem(v)
    ensures GoodLine(Line(0, "- " + ItemText(v)))
  {
    ItemTextShape(v);
    if v.Map? {
      assert v.entries[0] in v.entries;
      FlatLineGood(v.entries[0]);
    } else {
      ScalarTextShape(v);
    }
    var text := "- " + ItemText(v);
    assert text[0] == '-' && text[|text| - 1] == ItemText(v)[|ItemText(v)| - 1];
  }

  lemma {:induction false} ItemLinesGood(items: seq<Value>, n: nat)
    requires forall x :: x in items ==> GoodItem(x)
    ensures forall l :: l in ItemLines(items, n) ==> GoodLine(l)
    decreases |items|
  {
    if items == [] {
    } else {
      ItemLineGood(items[0]);
      if items[0].Map? {
        FlatLinesGood(items[0].entries[1..], n + 2);
      }
      ItemLinesGood(items[1..], n);
    }
  }

  lemma {:induction false} BlockLinesGood(v: Value, n: nat)
    requires GoodValue(v) && !GoodScalar(v)
    ensures forall l :: l in BlockLines(v, n) ==> GoodLine(l)
    decreases v
  {
    if v.List? {
      ItemLinesGood(v.items, n);
    } else {
      EntryLinesGood(v.entries, n);
    }
  }

  lemma {:induction false} EntryLinesGood(es: seq<Entry>, n: nat)
    requires forall e :: e in es ==> GoodKey(e.key) && GoodValue(e.value)
    ensures forall l :: l in EntryLines(es, n) ==> GoodLine(l)
    decreases es
  {
    if es == [] {
    } else {
      if GoodScalar(es[0].value) {
        FlatLineGood(es[0]);
      } else {
        GoodKeyLine(es[0].key, "");
        BlockLinesGood(es[0].value, n + 2);
      }
      EntryLinesGood(es[1..], n);
    }
  }

  // Parsing what is printed gives the document back.
  lemma RoundTrip(v: Value)
    requires GoodDocument(v)
    ensures Parsed(Printed(v)) == v
  {
    var lines := BlockLines(v, 0);
    BlockLinesGood(v, 0);
    RawLinesBack(lines);
    BlockBack(v, 0, []);
    assert lines + [] == lines;
  }

  lemma {:induction false} RawLinesOneLine(lines: seq<Line>)
    requires forall l :: l in lines ==> GoodLine(l)
    ensures forall raw :: raw in RawLines(lines) ==> OneLine(raw)
    decreases |lines|
  {
    if lines == [] {
    } else {
      assert lines[0] in lines;
      RawOneLine(lines[0].indent, lines[0].text);
      RawLinesOneLine(lines[1..]);
    }
  }

  // No printed line holds a line break, so joining the lines with newlines and splitting the text
  // again gives the same lines.
  lemma PrintedLinesAreLines(v: Value)
    requires GoodDocument(v)
    ensures forall raw :: raw in Printed(v) ==> OneLine(raw)
  {
    BlockLinesGood(v, 0);
    RawLinesOneLine(BlockLines(v, 0));
  }

  // ---------------------------------------------------------------------------
  // What the parser cannot see.
  // ---------------------------------------------------------------------------

  lemma {:induction false} ReadLinesAppend(a: seq<string>, b: seq<string>)
    ensures ReadLines(a + b) == ReadLines(a) + ReadLines(b)
    decreases |a|
  {
    if a == [] {
      assert a + b == b;
    } else {
      assert (a + b)[0] == a[0] && (a + b)[1..] == a[1..] + b;
      ReadLinesAppend(a[1..], b);
    }
  }

  lemma CutAtComment(raw: string, comment: string)
    requires '#' !in raw
    ensures ReadLine(raw + "#" + comment) == ReadLine(raw)
  {
    IndexAfter(raw, '#', comment);
    assert raw + ['#'] + comment == raw + "#" + comment;
    assert (raw + "#" + comment)[..|raw|] == raw == raw[..|raw|];
  }

  lemma LineOnly(before: seq<string>, raw: string, after: seq<string>)
    ensures ReadLines(before + [raw] + after) == ReadLines(before) + Kept(ReadLine(raw)) + ReadLines(after)
  {
    ReadLinesAppend(before + [raw], after);
    ReadLinesAppend(before, [raw]);
    assert [raw][1..] == [];
    assert Kept(ReadLine(raw)) + [] == Kept(ReadLine(raw));
  }

  lemma {:induction false} BlankIsNothing(before: seq<string>, raw: string, after: seq<string>)
    requires '#' !in raw && Strip(RStrip(raw)) == ""
    ensures ReadLines(before + [raw] + after) == ReadLines(before + after)
  {
    LineOnly(before, raw, after);
    ReadLinesAppend(before, after);
    assert raw[..|raw|] == raw;
    assert ReadLines(before) + [] == ReadLines(before);
  }

  // A comment at the end of any line, or a line that is blank up to its comment, changes nothing.
  lemma {:induction false} CommentsIgnored(before: seq<string>, raw: string, comment: string, after: seq<string>)
    requires '#' !in raw
    ensures Parsed(before + [raw + "#" + comment] + after) == Parsed(before + [raw] + after)
    ensures Strip(RStrip(raw)) == "" ==> Parsed(before + [raw + "#" + comment] + after) == Parsed(before + after)
  {
    CutAtComment(raw, comment);
    LineOnly(before, raw + "#" + comment, after);
    LineOnly(before, raw, after);
    assert ReadLines(before + [raw + "#" + comment] + after) == ReadLines(before + [raw] + after);
    if Strip(RStrip(raw)) == "" {
      BlankIsNothing(before, raw, after);
    }
  }

  // Why a string item may hold no colon: quotes do not protect it, and the item reads as a mapping.
  lemma ColonMakesMapping(s: string, n: nat, ahead: seq<Line>)
    requires ':' in s
    ensures ItemValue(ahead, n, StringText(s)).0.Map? && ItemValue(ahead, n, QuotedText(s)).0.Map?
  {
    var text := QuotedText(s);
    var i :| 0 <= i < |s| && s[i] == ':';
    assert text[i + 1] == ':';
  }
}
