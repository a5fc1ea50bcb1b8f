/** The replies the control server builds, read back by its own reader. */
module JsonReplies {
  import opened Wrappers
  import opened Json
  import opened JsonDocs

  // ---- Error replies ------------------------------------------------------------------------------

  function ErrorDoc(msg: string): Doc {
    DObject("", [Field("", "ok", "", "", DBool(false), ""), Field("", "error", "", "", DString(msg), "")])
  }

  /** Keys need no escaping. */
  predicate Wordy(s: string) {
    s == "" || ('a' <= s[0] <= 'z' && Wordy(s[1..])) || (s[0] == '_' && Wordy(s[1..]))
  }

  lemma {:induction false} EscapeWord(s: string)
    requires Wordy(s)
    ensures Escape(s) == s
  {
    if s != "" {
      EscapeWord(s[1..]);
      assert [s[0]] + s[1..] == s;
    }
  }

  lemma Words()
    ensures Wordy("ok") && Wordy("error") && Wordy("batch_id")
  {
    assert "ok"[1..] == "k" && "k"[1..] == "";
    assert "error"[1..] == "rror" && "rror"[1..] == "ror" && "ror"[1..] == "or" && "or"[1..] == "r" && "r"[1..] == "";
    assert "batch_id"[1..] == "atch_id" && "atch_id"[1..] == "tch_id" && "tch_id"[1..] == "ch_id" && "ch_id"[1..] == "h_id";
    assert "h_id"[1..] == "_id" && "_id"[1..] == "id" && "id"[1..] == "d" && "d"[1..] == "";
  }

  lemma TightHead(f: Field)
    requires f.before == "" && f.colon == "" && f.space == "" && Escape(f.key) == f.key
    ensures FieldHead(f) == "\"" + f.key + "\":"
  {
  }

  lemma ErrorHeads(msg: string)
    ensures var d := ErrorDoc(msg);
      FieldHead(d.fields[0]) == "\"ok\":" && FieldHead(d.fields[1]) == "\"error\":"
  {
    hide FieldHead, Escape, Wordy;
    Words();
    EscapeWord("ok");
    EscapeWord("error");
    TightHead(ErrorDoc(msg).fields[0]);
    TightHead(ErrorDoc(msg).fields[1]);
    assert "\"" + "ok" + "\":" == "\"ok\":";
    assert "\"" + "error" + "\":" == "\"error\":";
  }

  lemma ErrorFields(msg: string)
    ensures var d := ErrorDoc(msg);
      FieldsText(d, 1) == "\"error\":" + ("\"" + Escape(msg) + "\"" + ("" + "}")) &&
      FieldsText(d, 0) == "\"ok\":" + ("false" + ("" + ("," + FieldsText(d, 1)))) &&
      Text(d) == "{" + FieldsText(d, 0)
  {
    ErrorHeads(msg);
    hide FieldHead, Escape;
    assert Text(DString(msg)) == "\"" + Escape(msg) + "\"";
  }

  lemma ErrorText(msg: string)
    ensures Text(ErrorDoc(msg)) == ErrorReply(msg)
  {
    ErrorFields(msg);
    var e := Escape(msg);
    hide Text, FieldsText, Escape;
    assert "{" + ("\"ok\":" + ("false" + ("" + ","))) + "\"error\":" + "\"" == "{\"ok\":false,\"error\":\"";
    var all := "{" + ("\"ok\":" + ("false" + ("" + ("," + ("\"error\":" + ("\"" + e + "\"" + ("" + "}")))))));
    assert all == ("{" + ("\"ok\":" + ("false" + ("" + ","))) + "\"error\":" + "\"") + e + "\"}";
  }

  /** Every error reply, whatever its message, is one object with exactly these two fields. */
  lemma ErrorReplyReadsBack(stod: Conversion, msg: string)
    ensures ReadObject(stod, ErrorReply(msg), 0) ==
            Ok(map["ok" := JBool(false), "error" := JString(msg)], |ErrorReply(msg)|)
  {
    var d, src := ErrorDoc(msg), ErrorReply(msg);
    ErrorText(msg);
    assert src[0..0 + |src|] == src;
    ErrorProper(stod, msg);
    ErrorMeaning(stod, msg);
    hide Text, ErrorReply, FieldsMeaning, ReadObject;
    ObjectReadsBack(stod, src, 0, d);
  }

  lemma ErrorProper(stod: Conversion, msg: string)
    ensures Proper(stod, ErrorDoc(msg))
  {
    var d := ErrorDoc(msg);
    assert Proper(stod, d.fields[1].doc) && Proper(stod, d.fields[0].doc) && Blank("");
    hide Blank;
    assert FieldsProper(stod, d, 2);
    assert FieldsProper(stod, d, 1);
    assert FieldsProper(stod, d, 0);
  }

  lemma ErrorMeaning(stod: Conversion, msg: string)
    ensures FieldsMeaning(stod, ErrorDoc(msg), 0, map[]) == map["ok" := JBool(false), "error" := JString(msg)]
  {
    var d := ErrorDoc(msg);
    var one := Emplace(map[], "ok", Meaning(stod, DBool(false)));
    var two := Emplace(one, "error", Meaning(stod, DString(msg)));
    assert FieldsMeaning(stod, d, 2, two) == two;
    assert FieldsMeaning(stod, d, 1, one) == two;
    assert FieldsMeaning(stod, d, 0, map[]) == two;
  }

  // ---- Batch-begin replies ------------------------------------------------------------------------------

  predicate Plain(s: string) {
    forall k :: 0 <= k < |s| ==> s[k] != '"' && s[k] != '\\'
  }

  lemma {:induction false} RawChars(src: string, i: nat, s: string, sofar: string)
    requires Spells(src, i, s + ['"']) && Plain(s)
    ensures ReadChars(src, i, sofar) == Ok(sofar + s, i + |s| + 1)
    decreases |s|
  {
    SpellsHead(src, i, s + ['"']);
    if |s| > 0 {
      assert (s + ['"'])[1..] == s[1..] + ['"'];
      RawChars(src, i + 1, s[1..], sofar + [s[0]]);
      assert sofar + [s[0]] + s[1..] == sofar + s;
    } else {
      assert sofar + s == sofar;
    }
  }

  /** A string costs at least one character each and its closing quote; exactly that only if
      nothing in it was escaped. */
  lemma {:induction false} CharsCost(src: string, i: nat, sofar: string)
    requires i <= |src| && ReadChars(src, i, sofar).Ok?
    ensures var r := ReadChars(src, i, sofar);
      i + (|r.value| - |sofar|) + 1 <= r.pos && src[r.pos - 1] == '"'
    ensures var r := ReadChars(src, i, sofar);
      r.pos == i + (|r.value| - |sofar|) + 1 ==> Plain(src[i..r.pos - 1])
    decreases |src| - i
  {
    var r := ReadChars(src, i, sofar);
    if src[i] == '"' {
    } else if src[i] != '\\' {
      CharsCost(src, i + 1, sofar + [src[i]]);
      assert src[i..r.pos - 1] == [src[i]] + src[i + 1..r.pos - 1];
    } else if src[i + 1] == 'n' {
      CharsCost(src, i + 2, sofar + ['\n']);
    } else {
      CharsCost(src, i + 2, sofar + [src[i + 1]]);
    }
  }

  lemma {:induction false} FieldsKeep(stod: Conversion, src: string, i: nat, sofar: map<string, Value>, key: string)
    requires i <= |src| && key in sofar && ReadFields(stod, src, i, sofar).Ok?
    ensures var m := ReadFields(stod, src, i, sofar).value; key in m && m[key] == sofar[key]
    decreases |src| - i
  {
    var f := ReadField(stod, src, i);
    var n := SkipWs(src, f.pos);
    var next := Emplace(sofar, f.value.0, f.value.1);
    if src[n] == ',' {
      FieldsKeep(stod, src, n + 1, next, key);
    }
  }

  const OK_HEAD := Field("", "ok", "", "", DBool(true), "")
  const ID_HEAD := Field("", "batch_id", "", "", DString(""), "")

  lemma OkHead()
    ensures FieldHead(OK_HEAD) == "\"ok\":"
  {
    hide FieldHead, Escape, Wordy;
    Words();
    EscapeWord("ok");
    TightHead(OK_HEAD);
    assert "\"" + "ok" + "\":" == "\"ok\":";
  }

  lemma IdHead()
    ensures FieldHead(ID_HEAD) == "\"batch_id\":"
  {
    hide FieldHead, Escape, Wordy;
    Words();
    EscapeWord("batch_id");
    TightHead(ID_HEAD);
    assert "\"" + "batch_id" + "\":" == "\"batch_id\":";
  }

  lemma BeginText(id: string)
    ensures var rest := ['"'] + id + ['"', '}'];
      BeginReply(id) == "{" + ("\"ok\":" + ("true" + ("," + ("\"batch_id\":" + rest))))
  {
    var rest := ['"'] + id + ['"', '}'];
    var head := "{" + "\"ok\":" + "true" + "," + "\"batch_id\":";
    assert head + "\"" == "{\"ok\":true,\"batch_id\":\"";
    assert "{" + ("\"ok\":" + ("true" + ("," + ("\"batch_id\":" + rest)))) == head + rest;
    assert head + rest == head + "\"" + id + "\"}";
  }

  /** The reply up to the batch's name. */
  lemma BeginPrefix(stod: Conversion, id: string)
    ensures var src := BeginReply(id);
      Spells(src, 22, ['"'] + id + ['"', '}']) && |src| == 22 + |id| + 3 &&
      ReadObject(stod, src, 0) == ReadFields(stod, src, 11, map["ok" := JBool(true)]) &&
      ReadString(src, SkipWs(src, 11)).Ok? && ReadString(src, SkipWs(src, 11)).value == "batch_id" &&
      ReadField(stod, src, 11) ==
        match ReadString(src, 22) case Err(e) => Err(e) case Ok(s, m) => Ok(("batch_id", JString(s)), m)
  {
    hide BeginReply, ReadFields, ReadField, ReadString;
    var src := BeginReply(id);
    var rest := ['"'] + id + ['"', '}'];
    BeginText(id);
    Pieces(src, rest);
    FirstField(stod, src);
    SecondField(stod, src, rest);
  }

  lemma Pieces(src: string, rest: string)
    requires src == "{" + ("\"ok\":" + ("true" + ("," + ("\"batch_id\":" + rest))))
    ensures Spells(src, 0, "{") && Spells(src, 1, "\"ok\":") && Spells(src, 6, "true") && Spells(src, 10, ",")
    ensures Spells(src, 11, "\"batch_id\":") && Spells(src, 22, rest) && |src| == 22 + |rest|
  {
    var tail := "\"batch_id\":" + rest;
    assert Spells(src, 0, src);
    hide Spells;
    SpellsSplit(src, 0, "{", "\"ok\":" + ("true" + ("," + tail)));
    SpellsSplit(src, 1, "\"ok\":", "true" + ("," + tail));
    SpellsSplit(src, 6, "true", "," + tail);
    SpellsSplit(src, 10, ",", tail);
    SpellsSplit(src, 11, "\"batch_id\":", rest);
  }

  lemma FirstField(stod: Conversion, src: string)
    requires Spells(src, 0, "{") && Spells(src, 1, "\"ok\":") && Spells(src, 6, "true") && Spells(src, 10, ",")
    requires Spells(src, 11, "\"batch_id\":")
    ensures ReadObject(stod, src, 0) == ReadFields(stod, src, 11, map["ok" := JBool(true)])
  {
    OkHead();
    SpellsHead(src, 0, "{");
    SpellsHead(src, 1, "\"ok\":");
    SpellsHead(src, 6, "true");
    SpellsHead(src, 10, ",");
    hide FieldHead, ReadString, ReadFields, ReadField;
    var j, c := HeadReadsBack(src, 1, OK_HEAD);
    WordReadsBack(stod, src, 6, true);
    assert SkipWs(src, 10) == 10 && SkipWs(src, 0) == 0 && SkipWs(src, 1) == 1;
    FieldTurn(stod, src, 1, map[], "ok", j, c, JBool(true), 6, 10, 10);
  }

  lemma QuoteIsString(stod: Conversion, src: string, a: nat)
    requires a < |src| && src[a] == '"'
    ensures SkipWs(src, a) == a
    ensures ReadValue(stod, src, a) == match ReadString(src, a) case Err(e) => Err(e) case Ok(s, m) => Ok(JString(s), m)
  {
    hide ReadString;
  }

  lemma FieldThen(stod: Conversion, src: string, i: nat, key: string, j: nat, e: nat, a: nat)
    requires i <= |src| && ReadString(src, SkipWs(src, i)) == Ok(key, j)
    requires j <= |src| && SkipWs(src, j) == e < |src| && src[e] == ':' && SkipWs(src, e + 1) == a
    ensures ReadField(stod, src, i) ==
            match ReadValue(stod, src, a) case Err(x) => Err(x) case Ok(v, m) => Ok((key, v), m)
  {
    hide ReadString, ReadValue, SkipWs;
  }

  lemma SecondField(stod: Conversion, src: string, rest: string)
    requires Spells(src, 11, "\"batch_id\":") && Spells(src, 22, rest) && rest != "" && rest[0] == '"'
    ensures ReadString(src, SkipWs(src, 11)).Ok? && ReadString(src, SkipWs(src, 11)).value == "batch_id"
    ensures ReadField(stod, src, 11) ==
            match ReadString(src, 22) case Err(e) => Err(e) case Ok(s, m) => Ok(("batch_id", JString(s)), m)
  {
    hide FieldHead, ReadString, ReadField, ReadValue, SkipWs, Spells;
    IdHead();
    SpellsHead(src, 22, rest);
    var j, c := HeadReadsBack(src, 11, ID_HEAD);
    QuoteIsString(stod, src, 22);
    FieldThen(stod, src, 11, "batch_id", j, c, 22);
  }

  /** A begin reply reads back to the batch's name precisely when the name holds no quote and
      no backslash: the name is not escaped. */
  lemma BeginReplyExactly(stod: Conversion, id: string)
    ensures var want := map["ok" := JBool(true), "batch_id" := JString(id)];
      ReadObject(stod, BeginReply(id), 0) == Ok(want, |BeginReply(id)|) <==> Plain(id)
  {
    var src := BeginReply(id);
    hide BeginReply, ReadObject, Plain;
    if Plain(id) {
      PlainReads(stod, id);
    }
    if ReadObject(stod, src, 0) == Ok(map["ok" := JBool(true), "batch_id" := JString(id)], |src|) {
      ReadsPlain(stod, id);
    }
  }

  lemma PlainReads(stod: Conversion, id: string)
    requires Plain(id)
    ensures ReadObject(stod, BeginReply(id), 0) ==
            Ok(map["ok" := JBool(true), "batch_id" := JString(id)], |BeginReply(id)|)
  {
    hide ReadString, ReadField, ReadObject, ReadFields, BeginReply, Plain, SkipWs, Spells, Emplace;
    var src := BeginReply(id);
    BeginPrefix(stod, id);
    PlainName(src, id);
    LastField(stod, src, 11, map["ok" := JBool(true)], "batch_id", JString(id), 23 + |id| + 1);
    OkThenId(id);
  }

  lemma OkThenId(id: string)
    ensures Emplace(map["ok" := JBool(true)], "batch_id", JString(id)) == map["ok" := JBool(true), "batch_id" := JString(id)]
  {
  }

  lemma PlainName(src: string, id: string)
    requires Plain(id) && Spells(src, 22, ['"'] + id + ['"', '}'])
    ensures ReadString(src, 22) == Ok(id, 23 + |id| + 1) && 23 + |id| + 1 < |src| && src[23 + |id| + 1] == '}'
  {
    hide ReadChars, Plain, Spells;
    var rest := ['"'] + id + ['"', '}'];
    SpellsHead(src, 22, rest);
    assert rest[1..] == (id + ['"']) + ['}'];
    SpellsSplit(src, 23, id + ['"'], ['}']);
    SpellsHead(src, 23 + |id| + 1, ['}']);
    RawChars(src, 23, id, "");
    assert "" + id == id;
  }

  lemma LastField(stod: Conversion, src: string, i: nat, sofar: map<string, Value>, key: string, v: Value, b: nat)
    requires i <= |src| && ReadField(stod, src, i) == Ok((key, v), b) && b < |src| && src[b] == '}'
    ensures ReadFields(stod, src, i, sofar) == Ok(Emplace(sofar, key, v), b + 1)
  {
    hide ReadField;
  }

  lemma ReadsPlain(stod: Conversion, id: string)
    requires ReadObject(stod, BeginReply(id), 0) ==
             Ok(map["ok" := JBool(true), "batch_id" := JString(id)], |BeginReply(id)|)
    ensures Plain(id)
  {
    hide *;
    NameFound(stod, id);
    NameSpelt(stod, id);
  }

  /** The reader stopped at the whole name. */
  lemma NameFound(stod: Conversion, id: string)
    requires ReadObject(stod, BeginReply(id), 0) ==
             Ok(map["ok" := JBool(true), "batch_id" := JString(id)], |BeginReply(id)|)
    ensures ReadString(BeginReply(id), 22).Ok? && ReadString(BeginReply(id), 22).value == id
  {
    BeginPrefix(stod, id);
    NameIsRead(stod, BeginReply(id), map["ok" := JBool(true)]);
  }

  /** ... which it does only at one that needs no escapes. */
  lemma NameSpelt(stod: Conversion, id: string)
    requires ReadString(BeginReply(id), 22).Ok? && ReadString(BeginReply(id), 22).value == id
    ensures Plain(id)
  {
    hide ReadString, ReadField, ReadObject, ReadFields, BeginReply;
    var src, tail := BeginReply(id), id + ['"', '}'];
    BeginPrefix(stod, id);
    assert ['"'] + id + ['"', '}'] == ['"'] + tail && (['"'] + tail)[1..] == tail;
    SpellsHead(src, 22, ['"'] + tail);
    StringCost(src, 22, id);
    TailSpelt(src, 23, id, tail);
  }

  lemma TailSpelt(src: string, i: nat, id: string, tail: string)
    requires Spells(src, i, tail) && tail == id + ['"', '}']
    ensures i + |id| + 2 <= |src| && src[i..i + |id|] == id && src[i + |id| + 1] == '}'
  {
    assert src[i..i + |tail|][|id| + 1] == tail[|id| + 1];
    assert src[i..i + |id|] == src[i..i + |tail|][..|id|];
  }

  /** The name in the result is the string the reader found there. */
  lemma NameIsRead(stod: Conversion, src: string, one: map<string, Value>)
    requires 22 <= |src| && "batch_id" !in one && ReadFields(stod, src, 11, one).Ok?
    requires ReadField(stod, src, 11) ==
             match ReadString(src, 22) case Err(e) => Err(e) case Ok(s, m) => Ok(("batch_id", JString(s)), m)
    ensures ReadString(src, 22).Ok?
    ensures var m := ReadFields(stod, src, 11, one).value;
      "batch_id" in m && m["batch_id"] == JString(ReadString(src, 22).value)
  {
    hide ReadString, ReadField;
    var s := ReadString(src, 22);
    var n := SkipWs(src, s.pos);
    if src[n] == ',' {
      FieldsKeep(stod, src, n + 1, Emplace(one, "batch_id", JString(s.value)), "batch_id");
    }
  }

  lemma StringCost(src: string, i: nat, id: string)
    requires i + |id| + 2 < |src| && src[i] == '"' && ReadString(src, i).Ok? && ReadString(src, i).value == id
    ensures i + |id| + 2 <= ReadString(src, i).pos && src[ReadString(src, i).pos - 1] == '"'
    ensures ReadString(src, i).pos == i + |id| + 2 ==> Plain(src[i + 1..i + 1 + |id|])
  {
    CharsCost(src, i + 1, "");
  }
}
