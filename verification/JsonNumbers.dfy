/**
 The reader's characters spelled out (src/control_server.cpp:87-110, 145-175): what counts as space, what a
 number may look like, what an escape stands for, and which of two equal keys is kept.
 */
module JsonNumbers {
  import opened Wrappers
  import opened Json
  import opened JsonDocs

  // ---- Space ------------------------------------------------------------------------------------------------

  /** Reading skips blanks, tabs, newlines and carriage returns, and nothing else. */
  lemma {:induction false} SpaceExactly(src: string, i: nat)
    requires i <= |src|
    ensures var j := SkipWs(src, i);
      && (forall k :: i <= k < j ==> src[k] == ' ' || src[k] == '\t' || src[k] == '\n' || src[k] == '\r')
      && (j < |src| ==> src[j] != ' ' && src[j] != '\t' && src[j] != '\n' && src[j] != '\r')
    decreases |src| - i
  {
    if i < |src| && IsWs(src[i]) {
      SpaceExactly(src, i + 1);
    }
  }

  // ---- Numbers ------------------------------------------------------------------------------------------------

  predicate Digits(s: string) {
    s != "" && forall k :: 0 <= k < |s| ==> '0' <= s[k] <= '9'
  }

  predicate Sign(s: string) {
    s == "" || s == "-" || s == "+"
  }

  /** A point and digits, or nothing. */
  predicate Fraction(s: string) {
    s == "" || (s[0] == '.' && Digits(s[1..]))
  }

  /** An `e`, perhaps a sign, and digits, or nothing. */
  predicate Exponent(s: string) {
    s == "" || ((s[0] == 'e' || s[0] == 'E') && (Digits(s[1..]) || (|s| > 1 && (s[1] == '-' || s[1] == '+') && Digits(s[2..]))))
  }

  /** A decimal number as programs print them. */
  datatype Decimal = Decimal(sign: string, whole: string, fraction: string, exponent: string)
  {
    predicate Valid() {
      Sign(sign) && Digits(whole) && Fraction(fraction) && Exponent(exponent)
    }

    function Token(): string {
      sign + whole + fraction + exponent
    }
  }

  predicate InNumber(c: char) {
    '0' <= c <= '9' || c == '.' || c == 'e' || c == 'E' || c == '+' || c == '-'
  }

  /** What may follow a value. */
  predicate Ends(c: char) {
    c == ',' || c == ']' || c == '}' || c == ' ' || c == '\t' || c == '\n' || c == '\r'
  }

  lemma TokenChars(d: Decimal)
    requires d.Valid()
    ensures d.Token() != "" && (forall k :: 0 <= k < |d.Token()| ==> InNumber(d.Token()[k]))
    ensures var c := d.Token()[0]; '0' <= c <= '9' || c == '-' || c == '+'
  {
    assert forall k :: 0 <= k < |d.fraction| ==> InNumber(d.fraction[k]) by {
      forall k | 0 <= k < |d.fraction| ensures InNumber(d.fraction[k]) {
        assert k > 0 ==> d.fraction[k] == d.fraction[1..][k - 1];
      }
    }
    assert forall k :: 0 <= k < |d.exponent| ==> InNumber(d.exponent[k]) by {
      forall k | 0 <= k < |d.exponent| ensures InNumber(d.exponent[k]) {
        assert k > 0 ==> d.exponent[k] == d.exponent[1..][k - 1];
        assert k > 1 ==> d.exponent[k] == d.exponent[2..][k - 2];
      }
    }
    assert forall k :: 0 <= k < |d.sign| ==> InNumber(d.sign[k]);
    assert d.Token()[0] == if d.sign == "" then d.whole[0] else d.sign[0];
  }

  lemma {:induction false} RunEnds(src: string, i: nat, end: nat)
    requires i <= end <= |src| && (forall k :: i <= k < end ==> InNumber(src[k])) && (end == |src| || Ends(src[end]))
    ensures NumEnd(src, i) == end
    decreases end - i
  {
    if i < end {
      assert InNumber(src[i]);
      RunEnds(src, i + 1, end);
    }
  }

  /** Every decimal is read as one token, up to whatever ends it, and means what its conversion says. */
  lemma DecimalReads(stod: Conversion, src: string, i: nat, end: nat, d: Decimal)
    requires d.Valid() && i + |d.Token()| == end <= |src| && src[i..end] == d.Token() && (end == |src| || Ends(src[end]))
    ensures ReadValue(stod, src, i) ==
            match stod(d.Token())
            case Some(n) => Ok(JNumber(n), end)
            case None => Err("invalid number")
  {
    hide Decimal.Valid, Decimal.Token;
    TokenChars(d);
    forall k | i <= k < end ensures InNumber(src[k]) {
      assert src[k] == src[i..end][k - i];
    }
    assert src[i] == d.Token()[0];
    RunEnds(src, i, end);
    RunEnds(src, i + 1, end);
    NoWord(src, i);
  }

  lemma NoWord(src: string, i: nat)
    requires i < |src| && ('0' <= src[i] <= '9' || src[i] == '-' || src[i] == '+')
    ensures !Spells(src, i, "true") && !Spells(src, i, "false") && SkipWs(src, i) == i
  {
    if Spells(src, i, "true") {
      SpellsHead(src, i, "true");
    }
    if Spells(src, i, "false") {
      SpellsHead(src, i, "false");
    }
  }

  // ---- Escapes ---------------------------------------------------------------------------------------------------

  /** The three escapes, written and read. */
  lemma EscapesAre(c: char)
    ensures EscapeChar(c) == if c == '"' then "\\\"" else if c == '\\' then "\\\\" else if c == '\n' then "\\n" else [c]
    ensures ReadString("\"\\\"\"", 0) == Ok("\"", 4)
    ensures ReadString("\"\\\\\"", 0) == Ok("\\", 4)
    ensures ReadString("\"\\n\"", 0) == Ok("\n", 4)
    ensures ReadString("\"\\t\"", 0).Err?
  {
    assert "" + ['"'] == "\"" && "" + ['\\'] == "\\" && "" + ['\n'] == "\n";
  }

  // ---- Equal keys -------------------------------------------------------------------------------------------------

  /** Field `k` is the first of its name from field `from` on. */
  predicate FirstOf(d: Doc, k: nat, from: nat) {
    d.DObject? && from <= k < |d.fields| && forall j :: from <= j < k ==> d.fields[j].key != d.fields[k].key
  }

  lemma {:induction false} KeptKey(stod: Conversion, d: Doc, k: nat, sofar: map<string, Value>, key: string)
    requires d.DObject? && k <= |d.fields| && key in sofar
    ensures var m := FieldsMeaning(stod, d, k, sofar); key in m && m[key] == sofar[key]
    decreases |d.fields| - k
  {
    hide Meaning;
    if k < |d.fields| {
      KeptKey(stod, d, k + 1, Emplace(sofar, d.fields[k].key, Meaning(stod, d.fields[k].doc)), key);
    }
  }

  lemma {:induction false} FirstKey(stod: Conversion, d: Doc, k: nat, from: nat, sofar: map<string, Value>)
    requires FirstOf(d, k, from) && d.fields[k].key !in sofar
    ensures var m := FieldsMeaning(stod, d, from, sofar);
      d.fields[k].key in m && m[d.fields[k].key] == Meaning(stod, d.fields[k].doc)
    decreases |d.fields| - from
  {
    hide Meaning;
    var next := Emplace(sofar, d.fields[from].key, Meaning(stod, d.fields[from].doc));
    if from == k {
      KeptKey(stod, d, k + 1, next, d.fields[k].key);
    } else {
      FirstKey(stod, d, k, from + 1, next);
    }
  }

  lemma {:induction false} OnlyKeys(stod: Conversion, d: Doc, from: nat, sofar: map<string, Value>, key: string)
    requires d.DObject? && from <= |d.fields| && key in FieldsMeaning(stod, d, from, sofar)
    ensures key in sofar || exists k :: from <= k < |d.fields| && d.fields[k].key == key
    decreases |d.fields| - from
  {
    hide Meaning;
    if from < |d.fields| {
      OnlyKeys(stod, d, from + 1, Emplace(sofar, d.fields[from].key, Meaning(stod, d.fields[from].doc)), key);
    }
  }

  lemma WholeSpells(src: string)
    ensures Spells(src, 0, src)
  {
    assert src[0..|src|] == src;
  }

  /** Of fields with one name the first is kept, and no other name is made up. */
  lemma FirstWins(stod: Conversion, d: Doc, src: string)
    requires d.DObject? && Proper(stod, d) && src == Text(d)
    ensures ReadObject(stod, src, 0).Ok?
    ensures var m := ReadObject(stod, src, 0).value;
      && (forall k :: 0 <= k < |d.fields| && FirstOf(d, k, 0) ==>
            d.fields[k].key in m && m[d.fields[k].key] == Meaning(stod, d.fields[k].doc))
      && forall key :: key in m ==> exists k :: 0 <= k < |d.fields| && d.fields[k].key == key
  {
    hide Meaning, Text, ReadObject, Proper, FieldsMeaning, FirstOf;
    WholeSpells(src);
    ObjectReadsBack(stod, src, 0, d);
    forall k | 0 <= k < |d.fields| && FirstOf(d, k, 0)
      ensures d.fields[k].key in FieldsMeaning(stod, d, 0, map[])
      ensures FieldsMeaning(stod, d, 0, map[])[d.fields[k].key] == Meaning(stod, d.fields[k].doc)
    {
      FirstKey(stod, d, k, 0, map[]);
    }
    forall key | key in FieldsMeaning(stod, d, 0, map[]) ensures exists k :: 0 <= k < |d.fields| && d.fields[k].key == key {
      OnlyKeys(stod, d, 0, map[], key);
    }
  }
}
