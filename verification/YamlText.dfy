/**
  Printing scalars and keys so that the fallback parser reads them back (authority_policy.py).
*/
module YamlText {
  import opened Wrappers
  import opened FallbackYaml

  predicate Trimmed(s: string) {
    s == "" || (!IsSpace(s[0]) && !IsSpace(s[|s| - 1]))
  }

  // Characters at which str.splitlines() breaks a line.
  predicate IsBreak(c: char) {
    || '\n' <= c <= '\r' || '\U{1c}' <= c <= '\U{1e}' || c == '\U{85}' || c == '\U{2028}' || c == '\U{2029}'
  }

  // Neither a comment sign nor a line break.
  predicate OneLine(s: string) {
    forall c :: c in s ==> c != '#' && !IsBreak(c)
  }

  predicate GoodKey(k: string) {
    Trimmed(k) && OneLine(k) && ':' !in k && !IsItem(k)
  }

  // ---------------------------------------------------------------------------
  // Cutting strings.
  // ---------------------------------------------------------------------------

  lemma TrimmedStrip(s: string)
    requires Trimmed(s)
    ensures Strip(s) == s && RStrip(s) == s && LStrip(s) == s
  {
  }

  lemma StripAfterSpace(s: string)
    requires Trimmed(s)
    ensures Strip(" " + s) == s
  {
    var t := " " + s;
    if s == "" {
      assert t[..0] == "";
      assert RStrip(t) == RStrip(t[..0]) == "";
    } else {
      assert t[|t| - 1] == s[|s| - 1];
      assert RStrip(t) == t && t[0] == ' ' && t[1..] == s;
      assert LStrip(t) == LStrip(s);
    }
  }

  lemma {:induction false} IndexAfter(k: string, c: char, rest: string)
    requires c !in k
    ensures IndexOf(k + [c] + rest, c) == |k|
    decreases |k|
  {
    var s := k + [c] + rest;
    if k != "" {
      assert s[0] == k[0] != c;
      assert s[1..] == k[1..] + [c] + rest;
      IndexAfter(k[1..], c, rest);
    }
  }

  // What a key line reads back as.
  lemma KeyLine(k: string, rest: string)
    requires GoodKey(k)
    ensures var text := k + ":" + rest;
            ':' in text && KeyOf(text) == k && ValueOf(text) == Strip(rest)
  {
    var text := k + [':'] + rest;
    assert text == k + ":" + rest && text[|k|] == ':';
    IndexAfter(k, ':', rest);
    TrimmedStrip(k);
    assert text[..|k|] == k && text[|k| + 1..] == rest;
  }

  lemma NotAnItem(k: string, rest: string)
    requires GoodKey(k)
    ensures !IsItem(k + ":" + rest)
  {
    var text := k + ":" + rest;
    assert |text| > |k| && text[|k|] == ':';
  }

  // ---------------------------------------------------------------------------
  // Numbers.
  // ---------------------------------------------------------------------------

  function DigitChar(d: nat): (c: char)
    requires d < 10
    ensures IsDigit(c)
  {
    (d + '0' as int) as char
  }

  function NatText(n: nat): (s: string)
    ensures s != ""
  {
    (if n < 10 then "" else NatText(n / 10)) + [DigitChar(n % 10)]
  }

  function IntText(i: int): string {
    if i < 0 then "-" + NatText(-i) else NatText(i)
  }

  predicate AllDigits(s: string) {
    forall k :: 0 <= k < |s| ==> IsDigit(s[k])
  }

  lemma NumeralAppend(s: string, d: nat)
    requires d < 10
    ensures NumeralValue(s + [DigitChar(d)]) == 10 * NumeralValue(s) + d
    ensures AllDigits(s) ==> AllDigits(s + [DigitChar(d)])
  {
    var t := s + [DigitChar(d)];
    assert t[..|t| - 1] == s && t[|t| - 1] == DigitChar(d);
  }

  lemma {:induction false} NatTextBack(n: nat)
    ensures AllDigits(NatText(n)) && NumeralValue(NatText(n)) == n
    decreases n
  {
    if n >= 10 {
      NatTextBack(n / 10);
      NumeralAppend(NatText(n / 10), n % 10);
    } else {
      NumeralAppend("", n);
    }
  }

  lemma DigitsAreNumeral(s: string)
    requires AllDigits(s) && s != ""
    ensures IsNumeral(s)
  {
  }

  lemma IntTextBack(i: int)
    ensures ParseInt(IntText(i)) == Some(i)
  {
    if i < 0 {
      NatTextBack(-i);
      DigitsAreNumeral(NatText(-i));
      var s := "-" + NatText(-i);
      assert s[0] == '-' && s[1..] == NatText(-i);
    } else {
      NatTextBack(i);
      DigitsAreNumeral(NatText(i));
    }
  }

  predicate NumberChars(s: string) {
    s != "" && IsDigit(s[|s| - 1]) && forall k :: 0 <= k < |s| ==> s[k] == '-' || IsDigit(s[k])
  }

  lemma IntTextShape(i: int)
    ensures NumberChars(IntText(i))
  {
    NatTextBack(if i < 0 then -i else i);
  }

  lemma NumberCharsShape(s: string)
    requires NumberChars(s)
    ensures Trimmed(s) && OneLine(s) && ':' !in s
  {
  }

  // ---------------------------------------------------------------------------
  // Scalars. A string stays bare where the parser reads it as itself, and is quoted elsewhere; an
  // empty list counts, written [].
  // ---------------------------------------------------------------------------

  predicate GoodScalar(v: Value) {
    match v
    case Null => true
    case Bool(_) => true
    case Int(_) => true
    case Str(s) => OneLine(s)
    case List(items) => items == []
    case Map(_) => false
  }

  function QuotedText(s: string): string {
    ['"'] + s + ['"']
  }

  predicate IsBare(s: string) {
    s != "" && Trimmed(s) && Scalar(s) == Str(s)
  }

  function StringText(s: string): string {
    if IsBare(s) then s else QuotedText(s)
  }

  function ScalarText(v: Value): string
    requires GoodScalar(v)
  {
    match v
    case Null => "null"
    case Bool(b) => if b then "true" else "false"
    case Int(i) => IntText(i)
    case Str(s) => StringText(s)
    case List(_) => "[]"
  }

  lemma LowerStart(s: string, word: string)
    requires s != "" && word != "" && LowerChar(s[0]) != word[0]
    ensures Lower(s) != word
  {
    assert Lower(s)[0] == LowerChar(s[0]);
  }

  lemma NotAWord(s: string)
    requires s != "" && (s[0] == '"' || s[0] == '-' || IsDigit(s[0]))
    ensures Lower(s) != "null" && Lower(s) != "true" && Lower(s) != "false" && s != "~"
  {
    LowerStart(s, "null");
    LowerStart(s, "true");
    LowerStart(s, "false");
  }

  lemma WordsBack(b: bool)
    ensures Scalar("null") == Null && Scalar(if b then "true" else "false") == Bool(b)
    ensures Scalar("[]") == List([])
  {
    assert Lower("null") == "null" && Lower("true") == "true" && Lower("false") == "false";
    LowerStart("true", "null");
    LowerStart("false", "null");
    LowerStart("false", "true");
    LowerStart("[]", "null");
    LowerStart("[]", "true");
    LowerStart("[]", "false");
    assert "[]"[1..1] == "";
  }

  lemma QuotedBack(s: string)
    ensures Scalar(QuotedText(s)) == Str(s)
  {
    var q := QuotedText(s);
    assert q[0] == '"' && q[|q| - 1] == '"' && q[1..|q| - 1] == s;
    NotAWord(q);
    assert ParseInt(q) == None;
  }

  lemma NumberBack(i: int)
    ensures Scalar(IntText(i)) == Int(i)
  {
    IntTextBack(i);
    IntTextShape(i);
    NotAWord(IntText(i));
  }

  lemma StringBack(s: string)
    ensures Scalar(StringText(s)) == Str(s)
  {
    if !IsBare(s) {
      QuotedBack(s);
    }
  }

  // A printed scalar is read back as itself.
  lemma ScalarBack(v: Value)
    requires GoodScalar(v)
    ensures Scalar(ScalarText(v)) == v
  {
    match v
    case Null => WordsBack(true);
    case Bool(b) => WordsBack(b);
    case Int(i) => NumberBack(i);
    case Str(s) => StringBack(s);
    case List(_) => WordsBack(true);
  }

  lemma StringShape(s: string)
    requires OneLine(s)
    ensures StringText(s) != "" && Trimmed(StringText(s)) && OneLine(StringText(s))
    ensures ':' !in s ==> ':' !in StringText(s)
  {
  }

  lemma ScalarTextShape(v: Value)
    requires GoodScalar(v)
    ensures ScalarText(v) != "" && Trimmed(ScalarText(v)) && OneLine(ScalarText(v))
    ensures !(v.Str? && ':' in v.text) ==> ':' !in ScalarText(v)
  {
    match v
    case Int(i) =>
      IntTextShape(i);
      NumberCharsShape(IntText(i));
    case Str(s) => StringShape(s);
    case _ =>
  }

  // ---------------------------------------------------------------------------
  // What every text reads as.
  // ---------------------------------------------------------------------------

  // The same word, capitals aside.
  predicate Spells(s: string, word: string) {
    |s| == |word| && forall k :: 0 <= k < |s| ==> s[k] == word[k] || s[k] as int == word[k] as int - 32
  }

  predicate SmallLetters(word: string) {
    forall k :: 0 <= k < |word| ==> 'a' <= word[k] <= 'z'
  }

  lemma SpellsMeaning(s: string, word: string)
    requires SmallLetters(word)
    ensures Spells(s, word) <==> Lower(s) == word
  {
    if Lower(s) == word {
      forall k | 0 <= k < |s| ensures s[k] == word[k] || s[k] as int == word[k] as int - 32 {
        assert LowerChar(s[k]) == word[k];
      }
    }
    if Spells(s, word) {
      forall k | 0 <= k < |s| ensures LowerChar(s[k]) == word[k] {
        assert 'a' <= word[k] <= 'z';
      }
      assert Lower(s) == word;
    }
  }

  predicate Quoted(s: string) {
    |s| >= 2 && s[0] == s[|s| - 1] && (s[0] == '"' || s[0] == '\'')
  }

  // Null, the truth values and lists are told by their text alone; what is none of these is a
  // number if it reads as one, and otherwise a string, less its quotes if it has them.
  lemma {:induction false} ScalarKinds(s: string)
    ensures Scalar(s) == Null <==> s == "" || s == "~" || Spells(s, "null")
    ensures forall b :: Scalar(s) == Bool(b) <==> Spells(s, if b then "true" else "false")
    ensures Scalar(s).List? <==> s != "" && s[0] == '[' && s[|s| - 1] == ']'
    ensures !Scalar(s).Null? && !Scalar(s).Bool? && !Scalar(s).List? ==>
              Scalar(s) == match ParseInt(s)
                           case Some(n) => Int(n)
                           case None => Str(if Quoted(s) then s[1..|s| - 1] else s)
  {
    SpellsMeaning(s, "null");
    SpellsMeaning(s, "true");
    SpellsMeaning(s, "false");
    if s != "" && s[0] == '[' {
      LowerStart(s, "null");
      LowerStart(s, "true");
      LowerStart(s, "false");
    }
  }

  lemma {:induction false} NumeralJoin(a: string, b: string)
    ensures NumeralValue(a + "_" + b) == NumeralValue(a + b)
    decreases |b|
  {
    if b == "" {
      assert a + "_" + b == a + "_" && a + b == a;
      assert (a + "_")[..|a|] == a;
    } else {
      var n := |b| - 1;
      assert (a + "_" + b)[..|a| + 1 + n] == a + "_" + b[..n];
      assert (a + b)[..|a| + n] == a + b[..n];
      NumeralJoin(a, b[..n]);
    }
  }

  lemma {:induction false} NumeralWithUnderscore(a: string, b: string)
    requires IsNumeral(a) && IsNumeral(b)
    ensures IsNumeral(a + b) && IsNumeral(a + "_" + b)
  {
    var s, t := a + b, a + "_" + b;
    assert t[|a|] == '_' && t[|t| - 1] == b[|b| - 1] && s[|s| - 1] == b[|b| - 1];
    forall k | 0 <= k < |s|
      ensures IsDigit(s[k]) || s[k] == '_'
      ensures k > 0 ==> !(s[k] == '_' && s[k - 1] == '_')
    {
      assert s[k] == if k < |a| then a[k] else b[k - |a|];
    }
    forall k | 0 <= k < |t|
      ensures IsDigit(t[k]) || t[k] == '_'
      ensures k > 0 ==> !(t[k] == '_' && t[k - 1] == '_')
    {
      assert t[k] == if k < |a| then a[k] else if k == |a| then '_' else b[k - |a| - 1];
    }
  }

  // A number may have underscores between digits, and a sign of either kind.
  lemma {:induction false} UnderscoreIgnored(a: string, b: string)
    requires IsNumeral(a) && IsNumeral(b)
    ensures ParseInt(a + "_" + b) == ParseInt(a + b) == Some(NumeralValue(a + b))
  {
    NumeralWithUnderscore(a, b);
    NumeralJoin(a, b);
  }

  lemma {:induction false} SignRead(n: nat)
    ensures ParseInt("+" + NatText(n)) == Some(n) && ParseInt("-" + NatText(n)) == Some(-(n as int))
  {
    NatTextBack(n);
    DigitsAreNumeral(NatText(n));
    var plus, minus := "+" + NatText(n), "-" + NatText(n);
    assert plus[1..] == NatText(n) && minus[1..] == NatText(n);
    assert plus[0] == '+' && minus[0] == '-';
  }

  // A list on one line.
  function Joined(texts: seq<string>): string
    requires texts != []
  {
    if |texts| == 1 then texts[0] else texts[0] + [','] + (" " + Joined(texts[1..]))
  }

  lemma {:induction false} IndexNone(s: string, c: char)
    requires c !in s
    ensures IndexOf(s, c) == |s|
  {
  }

  lemma {:induction false} SplitFirst(t: string, rest: string)
    requires ',' !in t
    ensures SplitAt(t, ',') == [t] && SplitAt(t + [','] + rest, ',') == [t] + SplitAt(rest, ',')
  {
    IndexNone(t, ',');
    IndexAfter(t, ',', rest);
    var s := t + [','] + rest;
    assert s[..|t|] == t && s[|t| + 1..] == rest && IndexOf(s, ',') < |s|;
  }

  function Stripped(parts: seq<string>): seq<string> {
    seq(|parts|, i requires 0 <= i < |parts| => Strip(parts[i]))
  }

  predicate GoodPiece(t: string) {
    t != "" && Trimmed(t) && ',' !in t
  }

  lemma StrippedFirst(t: string, parts: seq<string>)
    ensures Stripped([t] + parts) == [Strip(t)] + Stripped(parts) && Stripped([t]) == [Strip(t)]
  {
  }

  lemma {:induction false} LeadStripped(lead: string, t: string)
    requires (lead == "" || lead == " ") && GoodPiece(t)
    ensures Strip(lead + t) == t && ',' !in lead + t
  {
    StripAfterSpace(t);
    TrimmedStrip(t);
    assert "" + t == t;
  }

  lemma {:induction false} JoinedStep(lead: string, t: string, texts: seq<string>)
    requires texts != []
    ensures lead + Joined([t] + texts) == (lead + t) + [','] + (" " + Joined(texts))
  {
    var all := [t] + texts;
    assert all[0] == t && all[1..] == texts && |all| > 1;
    assert Joined(all) == t + [','] + (" " + Joined(texts));
  }

  lemma {:induction false} SplitStep(lead: string, t: string, rest: string)
    requires (lead == "" || lead == " ") && GoodPiece(t)
    ensures Stripped(SplitAt(lead + t, ',')) == [t]
    ensures Stripped(SplitAt((lead + t) + [','] + rest, ',')) == [t] + Stripped(SplitAt(rest, ','))
  {
    LeadStripped(lead, t);
    SplitFirst(lead + t, rest);
    StrippedFirst(lead + t, SplitAt(rest, ','));
  }

  lemma {:induction false} JoinedBack(texts: seq<string>, lead: string)
    requires texts != [] && (lead == "" || lead == " ") && forall t :: t in texts ==> GoodPiece(t)
    ensures Stripped(SplitAt(lead + Joined(texts), ',')) == texts
    decreases |texts|
  {
    var t, others := texts[0], texts[1..];
    assert texts == [t] + others;
    if others == [] {
      SplitStep(lead, t, "");
      assert Joined(texts) == t;
    } else {
      JoinedBack(others, " ");
      JoinedStep(lead, t, others);
      SplitStep(lead, t, " " + Joined(others));
    }
  }

  lemma {:induction false} JoinedTrimmed(texts: seq<string>)
    requires texts != [] && forall t :: t in texts ==> GoodPiece(t)
    ensures Joined(texts) != "" && Trimmed(Joined(texts))
    decreases |texts|
  {
    assert GoodPiece(texts[0]);
    if |texts| > 1 {
      JoinedTrimmed(texts[1..]);
      var all, last := Joined(texts), Joined(texts[1..]);
      assert all[|all| - 1] == last[|last| - 1] && all[0] == texts[0][0];
    }
  }

  lemma {:induction false} BracketsRead(inner: string)
    requires inner != "" && Trimmed(inner)
    ensures var v, parts := Scalar("[" + inner + "]"), Stripped(SplitAt(inner, ','));
            && v.List? && |v.items| == |parts|
            && forall i :: 0 <= i < |parts| ==> v.items[i] == Scalar(parts[i])
  {
    var s := "[" + inner + "]";
    TrimmedStrip(inner);
    assert s[1..|s| - 1] == inner && s[0] == '[' && s[|s| - 1] == ']';
    LowerStart(s, "null");
    LowerStart(s, "true");
    LowerStart(s, "false");
  }

  function ScalarTexts(vs: seq<Value>): seq<string>
    requires forall v :: v in vs ==> GoodScalar(v)
  {
    seq(|vs|, i requires 0 <= i < |vs| => ScalarText(vs[i]))
  }

  lemma {:induction false} BracketedTexts(texts: seq<string>)
    requires texts != [] && forall t :: t in texts ==> GoodPiece(t)
    ensures var v := Scalar("[" + Joined(texts) + "]");
            v.List? && |v.items| == |texts| && forall i :: 0 <= i < |texts| ==> v.items[i] == Scalar(texts[i])
  {
    JoinedTrimmed(texts);
    JoinedBack(texts, "");
    assert "" + Joined(texts) == Joined(texts);
    BracketsRead(Joined(texts));
  }

  // In brackets, with commas between them, printed scalars without a comma read as the list of them.
  lemma {:induction false} InlineListBack(vs: seq<Value>)
    requires vs != [] && forall v :: v in vs ==> GoodScalar(v) && GoodPiece(ScalarText(v))
    ensures Scalar("[" + Joined(ScalarTexts(vs)) + "]") == List(vs)
  {
    var texts := ScalarTexts(vs);
    BracketedTexts(texts);
    var items := Scalar("[" + Joined(texts) + "]").items;
    forall i | 0 <= i < |vs| ensures items[i] == vs[i] {
      assert vs[i] in vs;
      ScalarBack(vs[i]);
    }
    assert items == vs;
  }

  // A repeated key keeps its place and takes the last value; a new one comes last.
  lemma {:induction false} PutMeaning(entries: seq<Entry>, key: string, value: Value, k: nat)
    requires k <= |entries| && forall i :: 0 <= i < k ==> entries[i].key != key
    requires k < |entries| ==> entries[k].key == key
    ensures Put(entries, key, value)
         == if k < |entries| then entries[k := Entry(key, value)] else entries + [Entry(key, value)]
    decreases k
  {
    if k > 0 {
      PutMeaning(entries[1..], key, value, k - 1);
      assert entries == [entries[0]] + entries[1..];
    }
  }
}
