/** Printed documents read back; what printing must escape. */
module JsonDocs {
  import opened Wrappers
  import opened Json

  // ---- Documents, with the whitespace they are printed with ------------------------------------

  datatype Doc =
    | DString(s: string)
    | DNumber(token: string)
    | DBool(b: bool)
    | DArray(gap: string, items: seq<Item>)
    | DObject(gap: string, fields: seq<Field>)

  /** `before` and `after` surround the item; `gap` fills an empty bracket. */
  datatype Item = Item(before: string, doc: Doc, after: string)

  datatype Field = Field(before: string, key: string, colon: string, space: string, doc: Doc, after: string)

  function Quoted(s: string): string {
    ['"'] + Escape(s) + ['"']
  }

  function Width(d: Doc): nat {
    match d
    case DArray(_, items) => |items|
    case DObject(_, fields) => |fields|
    case _ => 0
  }

  function Text(d: Doc): string
    decreases d, Width(d) + 1
  {
    match d
    case DString(s) => Quoted(s)
    case DNumber(token) => token
    case DBool(b) => if b then "true" else "false"
    case DArray(gap, items) => if items == [] then ['['] + gap + [']'] else ['['] + ItemsText(d, 0)
    case DObject(gap, fields) => if fields == [] then ['{'] + gap + ['}'] else ['{'] + FieldsText(d, 0)
  }

  function ItemsText(d: Doc, k: nat): string
    requires d.DArray? && k < |d.items|
    decreases d, |d.items| - k
  {
    var it := d.items[k];
    it.before + (Text(it.doc) + (it.after + if k + 1 == |d.items| then [']'] else [','] + ItemsText(d, k + 1)))
  }

  /** Up to the value of one field. */
  function FieldHead(f: Field): string {
    f.before + (Quoted(f.key) + (f.colon + ([':'] + f.space)))
  }

  function FieldsText(d: Doc, k: nat): string
    requires d.DObject? && k < |d.fields|
    decreases d, |d.fields| - k
  {
    var f := d.fields[k];
    FieldHead(f) + (Text(f.doc) + (f.after + if k + 1 == |d.fields| then ['}'] else [','] + FieldsText(d, k + 1)))
  }

  // ---- What they mean ----------------------------------------------------------------------------

  function Meaning(stod: Conversion, d: Doc): Value
    decreases d, Width(d) + 1
  {
    match d
    case DString(s) => JString(s)
    case DNumber(token) => (match stod(token) case Some(n) => JNumber(n) case None => JNumber(0.0))
    case DBool(b) => JBool(b)
    case DArray(_, items) => JArray(ItemsMeaning(stod, d, 0))
    case DObject(_, fields) => JObject(FieldsMeaning(stod, d, 0, map[]))
  }

  function ItemsMeaning(stod: Conversion, d: Doc, k: nat): seq<Value>
    requires d.DArray? && k <= |d.items|
    decreases d, |d.items| - k
  {
    if k == |d.items| then [] else [Meaning(stod, d.items[k].doc)] + ItemsMeaning(stod, d, k + 1)
  }

  function FieldsMeaning(stod: Conversion, d: Doc, k: nat, sofar: map<string, Value>): map<string, Value>
    requires d.DObject? && k <= |d.fields|
    decreases d, |d.fields| - k
  {
    if k == |d.fields| then sofar
    else FieldsMeaning(stod, d, k + 1, Emplace(sofar, d.fields[k].key, Meaning(stod, d.fields[k].doc)))
  }

  predicate Blank(s: string) {
    forall k :: 0 <= k < |s| ==> IsWs(s[k])
  }

  /** Whitespace only where whitespace may be, and numbers the conversion accepts. */
  predicate Proper(stod: Conversion, d: Doc)
    decreases d, Width(d) + 1
  {
    match d
    case DString(_) => true
    case DBool(_) => true
    case DNumber(token) =>
      token != "" && stod(token).Some? && forall k :: 0 <= k < |token| ==> IsNum(token[k])
    case DArray(gap, items) => Blank(gap) && ItemsProper(stod, d, 0)
    case DObject(gap, fields) => Blank(gap) && FieldsProper(stod, d, 0)
  }

  predicate ItemsProper(stod: Conversion, d: Doc, k: nat)
    requires d.DArray? && k <= |d.items|
    decreases d, |d.items| - k
  {
    k == |d.items| ||
    (var it := d.items[k]; Blank(it.before) && Blank(it.after) && Proper(stod, it.doc) && ItemsProper(stod, d, k + 1))
  }

  predicate FieldsProper(stod: Conversion, d: Doc, k: nat)
    requires d.DObject? && k <= |d.fields|
    decreases d, |d.fields| - k
  {
    k == |d.fields| ||
    (var f := d.fields[k];
     Blank(f.before) && Blank(f.colon) && Blank(f.space) && Blank(f.after) && Proper(stod, f.doc) && FieldsProper(stod, d, k + 1))
  }

  // ---- Pieces of a text ------------------------------------------------------------------------------

  lemma SpellsSplit(src: string, i: nat, a: string, b: string)
    requires Spells(src, i, a + b)
    ensures Spells(src, i, a) && Spells(src, i + |a|, b)
  {
    var t := src[i..i + |a + b|];
    assert t[..|a|] == a && t[|a|..] == b;
    assert src[i..i + |a|] == t[..|a|] && src[i + |a|..i + |a| + |b|] == t[|a|..];
  }

  lemma SpellsHead(src: string, i: nat, t: string)
    requires Spells(src, i, t) && t != ""
    ensures i < |src| && src[i] == t[0] && Spells(src, i + 1, t[1..])
  {
    assert src[i..i + |t|][0] == t[0];
    assert [t[0]] + t[1..] == t;
    SpellsSplit(src, i, [t[0]], t[1..]);
  }

  lemma {:induction false} SkipBlank(src: string, i: nat, gap: string)
    requires Spells(src, i, gap) && Blank(gap) && (i + |gap| < |src| ==> !IsWs(src[i + |gap|]))
    ensures SkipWs(src, i) == i + |gap|
    decreases |gap|
  {
    if |gap| > 0 {
      SpellsHead(src, i, gap);
      assert IsWs(gap[0]) && forall k :: 0 <= k < |gap| - 1 ==> gap[1..][k] == gap[k + 1];
      SkipBlank(src, i + 1, gap[1..]);
    } else {
      assert i + |gap| == i;
    }
  }

  // ---- Strings ----------------------------------------------------------------------------------------

  /** One escaped character is read as the character it stands for. */
  lemma CharReadBack(src: string, i: nat, c: char, sofar: string)
    requires Spells(src, i, EscapeChar(c)) && i + |EscapeChar(c)| <= |src|
    ensures ReadChars(src, i, sofar) == ReadChars(src, i + |EscapeChar(c)|, sofar + [c])
  {
    hide Spells;
    SpellsHead(src, i, EscapeChar(c));
    if |EscapeChar(c)| == 2 {
      SpellsHead(src, i + 1, EscapeChar(c)[1..]);
    }
  }

  lemma EscapedHead(src: string, i: nat, s: string)
    requires s != "" && Spells(src, i, Escape(s) + ['"'])
    ensures var c := EscapeChar(s[0]);
      && |Escape(s)| == |c| + |Escape(s[1..])| && Spells(src, i, c) && i + |c| <= |src|
      && Spells(src, i + |c|, Escape(s[1..]) + ['"'])
  {
    hide *;
    var c, rest := EscapeChar(s[0]), Escape(s[1..]);
    assert Escape(s) == c + rest by { EscapeCons(s); }
    assert Escape(s) + ['"'] == c + (rest + ['"']);
    SpellsSplit(src, i, c, rest + ['"']);
    SpellsFits(src, i, c);
  }

  lemma EscapeCons(s: string)
    requires s != ""
    ensures Escape(s) == EscapeChar(s[0]) + Escape(s[1..])
  {
  }

  lemma SpellsFits(src: string, i: nat, t: string)
    requires Spells(src, i, t)
    ensures i + |t| <= |src|
  {
  }

  /** The reader undoes the escaper on every string. */
  lemma {:induction false} CharsReadBack(src: string, i: nat, s: string, sofar: string)
    requires Spells(src, i, Escape(s) + ['"'])
    ensures ReadChars(src, i, sofar) == Ok(sofar + s, i + |Escape(s)| + 1)
    decreases |s|
  {
    hide EscapeChar;
    if s != "" {
      EscapedHead(src, i, s);
      CharReadBack(src, i, s[0], sofar);
      CharsReadBack(src, i + |EscapeChar(s[0])|, s[1..], sofar + [s[0]]);
      assert sofar + [s[0]] + s[1..] == sofar + s;
    } else {
      SpellsHead(src, i, Escape(s) + ['"']);
      assert Escape(s) + ['"'] == ['"'] && sofar + s == sofar;
    }
  }

  lemma QuotedReadsBack(src: string, i: nat, s: string)
    requires Spells(src, i, Quoted(s))
    ensures ReadString(src, i) == Ok(s, i + |Quoted(s)|)
  {
    assert Quoted(s)[1..] == Escape(s) + ['"'];
    SpellsHead(src, i, Quoted(s));
    CharsReadBack(src, i + 1, s, "");
    assert "" + s == s;
  }

  // ---- Values ----------------------------------------------------------------------------------------

  /** Nothing follows that would continue a number. */
  predicate Closed(src: string, i: nat) {
    i < |src| && !IsNum(src[i])
  }

  lemma {:induction false} NumberEnds(src: string, i: nat, token: string)
    requires Spells(src, i, token) && (forall k :: 0 <= k < |token| ==> IsNum(token[k])) && Closed(src, i + |token|)
    ensures NumEnd(src, i) == i + |token|
    decreases |token|
  {
    if |token| > 0 {
      SpellsHead(src, i, token);
      assert IsNum(token[0]) && forall k :: 0 <= k < |token| - 1 ==> token[1..][k] == token[k + 1];
      NumberEnds(src, i + 1, token[1..]);
    }
  }

  lemma NumberReadsBack(stod: Conversion, src: string, i: nat, token: string)
    requires Spells(src, i, token) && Closed(src, i + |token|) && Proper(stod, DNumber(token))
    ensures ReadValue(stod, src, i) == Ok(Meaning(stod, DNumber(token)), i + |token|)
  {
    SpellsHead(src, i, token);
    assert IsNum(token[0]) && SkipWs(src, i) == i;
    NotAWord(src, i);
    if src[i] == '-' || src[i] == '+' {
      assert forall k :: 0 <= k < |token| - 1 ==> token[1..][k] == token[k + 1];
      NumberEnds(src, i + 1, token[1..]);
    } else {
      NumberEnds(src, i, token);
    }
  }

  lemma NotAWord(src: string, i: nat)
    requires i < |src| && IsNum(src[i])
    ensures !Spells(src, i, "true") && !Spells(src, i, "false")
    ensures src[i] != '"' && src[i] != '{' && src[i] != '['
  {
    if Spells(src, i, "true") { SpellsHead(src, i, "true"); }
    if Spells(src, i, "false") { SpellsHead(src, i, "false"); }
  }

  lemma WordReadsBack(stod: Conversion, src: string, i: nat, b: bool)
    requires Spells(src, i, Text(DBool(b)))
    ensures ReadValue(stod, src, i) == Ok(JBool(b), i + |Text(DBool(b))|)
  {
    SpellsHead(src, i, Text(DBool(b)));
    if !b && Spells(src, i, "true") {
      SpellsHead(src, i, "true");
    }
  }

  lemma FirstChar(stod: Conversion, d: Doc)
    requires Proper(stod, d)
    ensures Text(d) != "" && !IsWs(Text(d)[0]) && Text(d)[0] != ']' && Text(d)[0] != '}'
  {
  }

  /** Every proper document, at any position and however it is spaced, reads back to its
      meaning, with the cursor right behind it. */
  lemma {:induction false} ReadsBack(stod: Conversion, src: string, i: nat, d: Doc)
    requires Proper(stod, d) && Spells(src, i, Text(d)) && Closed(src, i + |Text(d)|)
    ensures ReadValue(stod, src, i) == Ok(Meaning(stod, d), i + |Text(d)|)
    decreases d, Width(d) + 1
  {
    FirstChar(stod, d);
    SpellsHead(src, i, Text(d));
    if d.DString? {
      QuotedReadsBack(src, i, d.s);
    } else if d.DNumber? {
      NumberReadsBack(stod, src, i, d.token);
    } else if d.DBool? {
      WordReadsBack(stod, src, i, d.b);
    } else if d.DArray? {
      ArrayReadsBack(stod, src, i, d);
    } else {
      ObjectReadsBack(stod, src, i, d);
    }
  }

  lemma {:induction false} ArrayReadsBack(stod: Conversion, src: string, i: nat, d: Doc)
    requires d.DArray? && Proper(stod, d) && Spells(src, i, Text(d))
    ensures ReadValue(stod, src, i) == Ok(Meaning(stod, d), i + |Text(d)|)
    decreases d, Width(d) + 1, 0
  {
    hide Text, Meaning, Proper, ReadValue, ReadItems, ReadObject, ReadFields, ItemsText, ItemsMeaning, FieldsText, FieldsMeaning,
         Spells, SkipWs, Blank, ItemsProper, FieldsProper;
    ArrayIs(stod, d);
    SpellsHead(src, i, Text(d));
    if d.items == [] {
      EmptyReadsBack(src, i + 1, d.gap, ']');
      ArrayOpens(stod, src, i, i + 1 + |d.gap|);
    } else {
      ItemStarts(stod, src, i + 1, d);
      ItemsReadBack(stod, src, i + 1, d, 0, []);
      ItemsSkip(stod, src, i + 1, []);
      ArrayOpens(stod, src, i, SkipWs(src, i + 1));
      assert [] + ItemsMeaning(stod, d, 0) == ItemsMeaning(stod, d, 0);
    }
  }

  lemma ArrayIs(stod: Conversion, d: Doc)
    requires d.DArray?
    ensures Text(d) != "" && Text(d)[0] == '[' && Meaning(stod, d) == JArray(ItemsMeaning(stod, d, 0))
    ensures d.items == [] ==> Text(d)[1..] == d.gap + [']'] && ItemsMeaning(stod, d, 0) == []
    ensures d.items != [] ==> Text(d)[1..] == ItemsText(d, 0)
    ensures Proper(stod, d) ==> Blank(d.gap) && ItemsProper(stod, d, 0)
  {
  }

  /** What an opening bracket leads to. */
  lemma ArrayOpens(stod: Conversion, src: string, i: nat, k: nat)
    requires i < |src| && src[i] == '[' && k == SkipWs(src, i + 1) < |src|
    ensures src[k] == ']' ==> ReadValue(stod, src, i) == Ok(JArray([]), k + 1)
    ensures src[k] != ']' && ReadItems(stod, src, k, []).Ok? ==>
              ReadValue(stod, src, i) == Ok(JArray(ReadItems(stod, src, k, []).value), ReadItems(stod, src, k, []).pos)
  {
    hide ReadItems, ReadString, ReadObject, ReadNumber, Spells;
    assert SkipWs(src, i) == i;
  }

  lemma EmptyReadsBack(src: string, i: nat, gap: string, close: char)
    requires Blank(gap) && Spells(src, i, gap + [close]) && close in {']', '}'}
    ensures i + |gap| < |src| && SkipWs(src, i) == i + |gap| && src[i + |gap|] == close
  {
    SpellsSplit(src, i, gap, [close]);
    SpellsHead(src, i + |gap|, [close]);
    SkipBlank(src, i, gap);
  }

  lemma ItemStarts(stod: Conversion, src: string, i: nat, d: Doc)
    requires d.DArray? && d.items != [] && ItemsProper(stod, d, 0) && Spells(src, i, ItemsText(d, 0))
    ensures SkipWs(src, i) < |src| && src[SkipWs(src, i)] != ']'
  {
    var it := d.items[0];
    var rest := it.after + if 0 + 1 == |d.items| then [']'] else [','] + ItemsText(d, 0 + 1);
    FirstChar(stod, it.doc);
    SpellsSplit(src, i, it.before, Text(it.doc) + rest);
    SpellsSplit(src, i + |it.before|, Text(it.doc), rest);
    hide Text, Meaning, ItemsText, Proper;
    SpellsHead(src, i + |it.before|, Text(it.doc));
    SkipBlank(src, i, it.before);
  }

  lemma {:induction false} SkipTwice(src: string, i: nat)
    requires i <= |src|
    ensures SkipWs(src, SkipWs(src, i)) == SkipWs(src, i)
    decreases |src| - i
  {
    if i < |src| && IsWs(src[i]) {
      SkipTwice(src, i + 1);
    }
  }

  /** Leading whitespace makes no difference to the items. */
  lemma ItemsSkip(stod: Conversion, src: string, i: nat, sofar: seq<Value>)
    requires i <= |src|
    ensures ReadItems(stod, src, SkipWs(src, i), sofar) == ReadItems(stod, src, i, sofar)
  {
    SkipTwice(src, i);
  }

  /** The separator behind a value, whitespace aside. */
  lemma EndsAt(src: string, b: nat, gap: string, end: string)
    requires Spells(src, b, gap + end) && Blank(gap) && end != "" && end[0] in {',', ']', '}'}
    ensures b <= |src| && Closed(src, b) && SkipWs(src, b) == b + |gap| < |src|
    ensures src[b + |gap|] == end[0] && Spells(src, b + |gap| + 1, end[1..])
  {
    SpellsSplit(src, b, gap, end);
    SpellsHead(src, b + |gap|, end);
    SkipBlank(src, b, gap);
    AfterValue(src, b, gap);
  }

  /** A value behind whitespace. */
  lemma StartsAt(stod: Conversion, src: string, i: nat, gap: string, d: Doc, rest: string)
    requires Spells(src, i, gap + (Text(d) + rest)) && Blank(gap) && Proper(stod, d)
    ensures i <= |src| && SkipWs(src, i) == i + |gap| && Spells(src, i + |gap|, Text(d))
    ensures Spells(src, i + |gap| + |Text(d)|, rest)
  {
    FirstChar(stod, d);
    hide Text, Proper;
    SpellsSplit(src, i, gap, Text(d) + rest);
    SpellsSplit(src, i + |gap|, Text(d), rest);
    SpellsHead(src, i + |gap|, Text(d));
    SkipBlank(src, i, gap);
  }

  function ItemEnd(d: Doc, k: nat): (end: string)
    requires d.DArray? && k < |d.items|
    ensures end != "" && end[0] == (if k + 1 == |d.items| then ']' else ',')
    ensures if k + 1 == |d.items| then |end| == 1 else end[1..] == ItemsText(d, k + 1)
  {
    if k + 1 == |d.items| then [']'] else [','] + ItemsText(d, k + 1)
  }

  lemma ItemParts(stod: Conversion, d: Doc, k: nat)
    requires d.DArray? && k < |d.items|
    ensures var it := d.items[k]; ItemsText(d, k) == it.before + (Text(it.doc) + (it.after + ItemEnd(d, k)))
    ensures ItemsProper(stod, d, k) ==>
              var it := d.items[k];
              Blank(it.before) && Blank(it.after) && Proper(stod, it.doc) && ItemsProper(stod, d, k + 1)
  {
  }

  /** Where item `k`'s text lies: its value from `a` to `b`, its separator at `c`. */
  lemma ItemLaid(stod: Conversion, src: string, i: nat, d: Doc, k: nat) returns (a: nat, b: nat, c: nat)
    requires d.DArray? && k < |d.items| && ItemsProper(stod, d, k) && Spells(src, i, ItemsText(d, k))
    ensures i <= |src| && SkipWs(src, i) == a && Spells(src, a, Text(d.items[k].doc)) && b == a + |Text(d.items[k].doc)| <= |src|
    ensures Closed(src, b) && SkipWs(src, b) == c < |src| && Proper(stod, d.items[k].doc) && ItemsProper(stod, d, k + 1)
    ensures k + 1 == |d.items| ==> src[c] == ']' && c + 1 == i + |ItemsText(d, k)|
    ensures k + 1 < |d.items| ==> src[c] == ',' && Spells(src, c + 1, ItemsText(d, k + 1)) &&
                                  c + 1 + |ItemsText(d, k + 1)| == i + |ItemsText(d, k)|
  {
    hide *;
    var it := d.items[k];
    ItemParts(stod, d, k);
    a := i + |it.before|;
    b := a + |Text(it.doc)|;
    c := b + |it.after|;
    StartsAt(stod, src, i, it.before, it.doc, it.after + ItemEnd(d, k));
    EndsAt(src, b, it.after, ItemEnd(d, k));
  }

  /** One turn of the item loop. */
  lemma ItemTurn(stod: Conversion, src: string, i: nat, sofar: seq<Value>, v: Value, a: nat, b: nat, c: nat)
    requires i <= |src| && SkipWs(src, i) == a && ReadValue(stod, src, a) == Ok(v, b)
    requires b <= |src| && SkipWs(src, b) == c < |src|
    ensures src[c] == ']' ==> ReadItems(stod, src, i, sofar) == Ok(sofar + [v], c + 1)
    ensures src[c] == ',' ==> ReadItems(stod, src, i, sofar) == ReadItems(stod, src, c + 1, sofar + [v])
  {
  }

  lemma ItemsCons(stod: Conversion, d: Doc, k: nat, sofar: seq<Value>)
    requires d.DArray? && k < |d.items|
    ensures sofar + ItemsMeaning(stod, d, k) == sofar + [Meaning(stod, d.items[k].doc)] + ItemsMeaning(stod, d, k + 1)
    ensures k + 1 == |d.items| ==> sofar + ItemsMeaning(stod, d, k) == sofar + [Meaning(stod, d.items[k].doc)]
  {
    var v := Meaning(stod, d.items[k].doc);
    hide Meaning;
    assert ItemsMeaning(stod, d, k) == [v] + ItemsMeaning(stod, d, k + 1);
  }

  lemma {:induction false} ItemsReadBack(stod: Conversion, src: string, i: nat, d: Doc, k: nat, sofar: seq<Value>)
    requires d.DArray? && k < |d.items| && ItemsProper(stod, d, k) && Spells(src, i, ItemsText(d, k))
    ensures ReadItems(stod, src, i, sofar) == Ok(sofar + ItemsMeaning(stod, d, k), i + |ItemsText(d, k)|)
    decreases d, |d.items| - k, 1
  {
    hide *;
    var a, b, c := ItemLaid(stod, src, i, d, k);
    var v := Meaning(stod, d.items[k].doc);
    ItemsCons(stod, d, k, sofar);
    ReadsBack(stod, src, a, d.items[k].doc);
    ItemTurn(stod, src, i, sofar, v, a, b, c);
    if k + 1 < |d.items| {
      ItemsReadBack(stod, src, c + 1, d, k + 1, sofar + [v]);
    }
  }

  /** Whitespace and then a separator do not continue a number. */
  lemma AfterValue(src: string, i: nat, gap: string)
    requires Spells(src, i, gap) && Blank(gap) && i + |gap| < |src| && src[i + |gap|] in {',', ']', '}'}
    ensures Closed(src, i)
  {
    if |gap| > 0 {
      SpellsHead(src, i, gap);
      assert IsWs(gap[0]);
    }
  }

  lemma {:induction false} ObjectReadsBack(stod: Conversion, src: string, i: nat, d: Doc)
    requires d.DObject? && Proper(stod, d) && Spells(src, i, Text(d))
    ensures ReadObject(stod, src, i) == Ok(FieldsMeaning(stod, d, 0, map[]), i + |Text(d)|)
    ensures ReadValue(stod, src, i) == Ok(Meaning(stod, d), i + |Text(d)|)
    decreases d, Width(d) + 1, 0
  {
    hide Text, Meaning, Proper, ReadValue, ReadItems, ReadObject, ReadFields, ItemsText, ItemsMeaning, FieldsText, FieldsMeaning,
         Spells, SkipWs, Blank, ItemsProper, FieldsProper;
    ObjectIs(stod, d);
    SpellsHead(src, i, Text(d));
    if d.fields == [] {
      EmptyReadsBack(src, i + 1, d.gap, '}');
      ObjectOpens(stod, src, i, i + 1 + |d.gap|);
    } else {
      FirstField(stod, d);
      FieldStarts(src, i + 1, d, 0);
      FieldsReadBack(stod, src, i + 1, d, 0, map[]);
      FieldsSkip(stod, src, i + 1, map[]);
      ObjectOpens(stod, src, i, SkipWs(src, i + 1));
    }
  }

  lemma ObjectIs(stod: Conversion, d: Doc)
    requires d.DObject?
    ensures Text(d) != "" && Text(d)[0] == '{' && Meaning(stod, d) == JObject(FieldsMeaning(stod, d, 0, map[]))
    ensures d.fields == [] ==> Text(d)[1..] == d.gap + ['}'] && FieldsMeaning(stod, d, 0, map[]) == map[]
    ensures d.fields != [] ==> Text(d)[1..] == FieldsText(d, 0)
    ensures Proper(stod, d) ==> Blank(d.gap) && FieldsProper(stod, d, 0)
  {
  }

  lemma FirstField(stod: Conversion, d: Doc)
    requires d.DObject? && d.fields != [] && FieldsProper(stod, d, 0)
    ensures Blank(d.fields[0].before)
  {
  }

  /** What an opening brace leads to. */
  lemma ObjectOpens(stod: Conversion, src: string, i: nat, k: nat)
    requires i < |src| && src[i] == '{' && k == SkipWs(src, i + 1) < |src|
    ensures ReadObject(stod, src, i) == if src[k] == '}' then Ok(map[], k + 1) else ReadFields(stod, src, k, map[])
    ensures ReadObject(stod, src, i).Ok? ==>
              ReadValue(stod, src, i) == Ok(JObject(ReadObject(stod, src, i).value), ReadObject(stod, src, i).pos)
  {
    hide ReadItems, ReadString, ReadFields, ReadNumber, Spells;
    assert SkipWs(src, i) == i;
  }

  lemma FieldStarts(src: string, i: nat, d: Doc, k: nat)
    requires d.DObject? && k < |d.fields| && Blank(d.fields[k].before) && Spells(src, i, FieldsText(d, k))
    ensures SkipWs(src, i) < |src| && src[SkipWs(src, i)] == '"'
  {
    hide *;
    var f := d.fields[k];
    var value := Text(f.doc) + (f.after + FieldEnd(d, k));
    FieldIs(d, k);
    HeadIs(f);
    SpellsSplit(src, i, FieldHead(f), value);
    KeyStarts(src, i, f.before, f.key, f.colon + ([':'] + f.space));
  }

  lemma FieldIs(d: Doc, k: nat)
    requires d.DObject? && k < |d.fields|
    ensures FieldsText(d, k) == FieldHead(d.fields[k]) + (Text(d.fields[k].doc) + (d.fields[k].after + FieldEnd(d, k)))
  {
    hide Text, FieldHead;
  }

  lemma KeyStarts(src: string, i: nat, gap: string, key: string, rest: string)
    requires Spells(src, i, gap + (Quoted(key) + rest)) && Blank(gap)
    ensures SkipWs(src, i) == i + |gap| < |src| && src[i + |gap|] == '"'
  {
    hide SkipWs, Spells, Blank, Escape;
    SpellsSplit(src, i, gap, Quoted(key) + rest);
    SpellsSplit(src, i + |gap|, Quoted(key), rest);
    SpellsHead(src, i + |gap|, Quoted(key));
    SkipBlank(src, i, gap);
  }

  lemma FieldsSkip(stod: Conversion, src: string, i: nat, sofar: map<string, Value>)
    requires i <= |src|
    ensures ReadFields(stod, src, SkipWs(src, i), sofar) == ReadFields(stod, src, i, sofar)
  {
    SkipTwice(src, i);
  }

  /** Up to the value of one field. */
  lemma HeadReadsBack(src: string, i: nat, f: Field) returns (j: nat, c: nat)
    requires Blank(f.before) && Blank(f.colon) && Blank(f.space) && Spells(src, i, FieldHead(f))
    requires i + |FieldHead(f)| < |src| && !IsWs(src[i + |FieldHead(f)|])
    ensures i <= j <= |src| && ReadString(src, SkipWs(src, i)) == Ok(f.key, j)
    ensures SkipWs(src, j) == c < |src| && src[c] == ':'
    ensures SkipWs(src, c + 1) == i + |FieldHead(f)|
  {
    hide *;
    HeadIs(f);
    j := KeyReadsBack(src, i, f.before, f.key, f.colon + ([':'] + f.space));
    c := j + |f.colon|;
    ColonReadsBack(src, j, f.colon, f.space);
  }

  lemma HeadIs(f: Field)
    ensures FieldHead(f) == f.before + (Quoted(f.key) + (f.colon + ([':'] + f.space)))
  {
  }

  lemma ColonReadsBack(src: string, j: nat, colon: string, space: string)
    requires Blank(colon) && Blank(space) && Spells(src, j, colon + ([':'] + space))
    requires j + |colon| + 1 + |space| < |src| && !IsWs(src[j + |colon| + 1 + |space|])
    ensures SkipWs(src, j) == j + |colon| < |src| && src[j + |colon|] == ':'
    ensures SkipWs(src, j + |colon| + 1) == j + |colon| + 1 + |space|
  {
    hide SkipWs, Blank, Spells;
    SpellsSplit(src, j, colon, [':'] + space);
    SpellsSplit(src, j + |colon|, [':'], space);
    SpellsHead(src, j + |colon|, [':']);
    SkipBlank(src, j, colon);
    SkipBlank(src, j + |colon| + 1, space);
  }

  lemma KeyReadsBack(src: string, i: nat, gap: string, key: string, rest: string) returns (j: nat)
    requires Spells(src, i, gap + (Quoted(key) + rest)) && Blank(gap)
    ensures i <= j <= |src| && j == i + |gap| + |Quoted(key)| && ReadString(src, SkipWs(src, i)) == Ok(key, j)
    ensures Spells(src, j, rest)
  {
    hide *;
    KeyStarts(src, i, gap, key, rest);
    SpellsSplit(src, i, gap, Quoted(key) + rest);
    SpellsSplit(src, i + |gap|, Quoted(key), rest);
    QuotedReadsBack(src, i + |gap|, key);
    j := i + |gap| + |Quoted(key)|;
    SpellsFits(src, i + |gap|, Quoted(key));
  }

  function FieldEnd(d: Doc, k: nat): (end: string)
    requires d.DObject? && k < |d.fields|
    ensures end != "" && end[0] == (if k + 1 == |d.fields| then '}' else ',')
    ensures if k + 1 == |d.fields| then |end| == 1 else end[1..] == FieldsText(d, k + 1)
  {
    if k + 1 == |d.fields| then ['}'] else [','] + FieldsText(d, k + 1)
  }

  lemma FieldParts(stod: Conversion, d: Doc, k: nat)
    requires d.DObject? && k < |d.fields|
    ensures var f := d.fields[k]; FieldsText(d, k) == FieldHead(f) + (Text(f.doc) + (f.after + FieldEnd(d, k)))
    ensures FieldsProper(stod, d, k) ==>
              var f := d.fields[k];
              Blank(f.before) && Blank(f.colon) && Blank(f.space) && Blank(f.after) && Proper(stod, f.doc) &&
              FieldsProper(stod, d, k + 1)
  {
  }

  /** Where field `k`'s value and separator lie. */
  lemma LayField(stod: Conversion, src: string, i: nat, d: Doc, k: nat) returns (a: nat, b: nat, c: nat)
    requires d.DObject? && k < |d.fields| && FieldsProper(stod, d, k) && Spells(src, i, FieldsText(d, k))
    ensures i <= |src| && Spells(src, i, FieldHead(d.fields[k])) && a == i + |FieldHead(d.fields[k])| < |src| && !IsWs(src[a])
    ensures Spells(src, a, Text(d.fields[k].doc)) && b == a + |Text(d.fields[k].doc)| <= |src|
    ensures Closed(src, b) && SkipWs(src, b) == c < |src| && Proper(stod, d.fields[k].doc) && FieldsProper(stod, d, k + 1)
    ensures k + 1 == |d.fields| ==> src[c] == '}' && c + 1 == i + |FieldsText(d, k)|
    ensures k + 1 < |d.fields| ==> src[c] == ',' && Spells(src, c + 1, FieldsText(d, k + 1)) &&
                                   c + 1 + |FieldsText(d, k + 1)| == i + |FieldsText(d, k)|
  {
    hide *;
    var f := d.fields[k];
    FieldParts(stod, d, k);
    a := i + |FieldHead(f)|;
    b := a + |Text(f.doc)|;
    c := b + |f.after|;
    HeadThenValue(stod, src, i, f, f.after + FieldEnd(d, k));
    EndsAt(src, b, f.after, FieldEnd(d, k));
  }

  lemma HeadThenValue(stod: Conversion, src: string, i: nat, f: Field, rest: string)
    requires Spells(src, i, FieldHead(f) + (Text(f.doc) + rest)) && Proper(stod, f.doc)
    ensures i <= |src| && Spells(src, i, FieldHead(f)) && Spells(src, i + |FieldHead(f)|, Text(f.doc))
    ensures i + |FieldHead(f)| < |src| && !IsWs(src[i + |FieldHead(f)|])
    ensures Spells(src, i + |FieldHead(f)| + |Text(f.doc)|, rest)
  {
    FirstChar(stod, f.doc);
    hide Text, Proper, FieldHead;
    SpellsSplit(src, i, FieldHead(f), Text(f.doc) + rest);
    SpellsSplit(src, i + |FieldHead(f)|, Text(f.doc), rest);
    SpellsHead(src, i + |FieldHead(f)|, Text(f.doc));
  }

  /** One turn of the field loop. */
  lemma FieldTurn(stod: Conversion, src: string, i: nat, sofar: map<string, Value>, key: string, j: nat, e: nat, v: Value,
                  a: nat, b: nat, c: nat)
    requires i <= |src| && ReadString(src, SkipWs(src, i)) == Ok(key, j)
    requires j <= |src| && SkipWs(src, j) == e < |src| && src[e] == ':' && SkipWs(src, e + 1) == a
    requires ReadValue(stod, src, a) == Ok(v, b) && b <= |src| && SkipWs(src, b) == c < |src|
    ensures src[c] == '}' ==> ReadFields(stod, src, i, sofar) == Ok(Emplace(sofar, key, v), c + 1)
    ensures src[c] == ',' ==> ReadFields(stod, src, i, sofar) == ReadFields(stod, src, c + 1, Emplace(sofar, key, v))
  {
    hide ReadField, ReadString, ReadValue, SkipWs;
    FieldWhole(stod, src, i, key, j, e, v, a, b);
  }

  lemma FieldWhole(stod: Conversion, src: string, i: nat, key: string, j: nat, e: nat, v: Value, a: nat, b: nat)
    requires i <= |src| && ReadString(src, SkipWs(src, i)) == Ok(key, j)
    requires j <= |src| && SkipWs(src, j) == e < |src| && src[e] == ':' && SkipWs(src, e + 1) == a
    requires ReadValue(stod, src, a) == Ok(v, b)
    ensures ReadField(stod, src, i) == Ok((key, v), b)
  {
    hide ReadString, ReadValue, SkipWs;
    SkipTwice(src, e + 1);
  }

  lemma FieldsCons(stod: Conversion, d: Doc, k: nat, sofar: map<string, Value>)
    requires d.DObject? && k < |d.fields|
    ensures FieldsMeaning(stod, d, k, sofar) ==
            FieldsMeaning(stod, d, k + 1, Emplace(sofar, d.fields[k].key, Meaning(stod, d.fields[k].doc)))
    ensures k + 1 == |d.fields| ==>
              FieldsMeaning(stod, d, k, sofar) == Emplace(sofar, d.fields[k].key, Meaning(stod, d.fields[k].doc))
  {
  }

  lemma {:induction false} FieldsReadBack(stod: Conversion, src: string, i: nat, d: Doc, k: nat, sofar: map<string, Value>)
    requires d.DObject? && k < |d.fields| && FieldsProper(stod, d, k) && Spells(src, i, FieldsText(d, k))
    ensures ReadFields(stod, src, i, sofar) == Ok(FieldsMeaning(stod, d, k, sofar), i + |FieldsText(d, k)|)
    decreases d, |d.fields| - k, 1
  {
    hide *;
    var a, b, c := LayField(stod, src, i, d, k);
    var f := d.fields[k];
    var v := Meaning(stod, f.doc);
    FieldsCons(stod, d, k, sofar);
    FieldParts(stod, d, k);
    var j, e := HeadReadsBack(src, i, f);
    ReadsBack(stod, src, a, f.doc);
    FieldTurn(stod, src, i, sofar, f.key, j, e, v, a, b, c);
    if k + 1 < |d.fields| {
      FieldsReadBack(stod, src, c + 1, d, k + 1, Emplace(sofar, f.key, v));
    }
  }
}
