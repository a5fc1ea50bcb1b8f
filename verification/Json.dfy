/**
 The control plane's JSON reader and escaper (src/control_server.cpp:31-189): what a read
 means at a position, and the cursor-moving reader proved to do it.  Converting a number
 token is a parameter.
 */
module Json {
  import opened Wrappers

  datatype Value =
    | JString(s: string)
    | JNumber(n: real)
    | JBool(b: bool)
    | JObject(fields: map<string, Value>)
    | JArray(items: seq<Value>)

  /** A parsed value and the position after it, or the exception's message. */
  datatype Read<T> = Ok(value: T, pos: nat) | Err(error: string)

  /** The C library's conversion of a number token; `None` where it throws. */
  type Conversion = string -> Option<real>

  const END := "unexpected end of input"

  // ---- What a read means ------------------------------------------------------------------------

  predicate IsWs(c: char) {
    c == ' ' || c == '\t' || c == '\n' || c == '\r'
  }

  predicate IsNum(c: char) {
    '0' <= c <= '9' || c == '.' || c == 'e' || c == 'E' || c == '+' || c == '-'
  }

  function SkipWs(src: string, i: nat): (j: nat)
    requires i <= |src|
    ensures i <= j <= |src| && (j < |src| ==> !IsWs(src[j]))
    decreases |src| - i
  {
    if i < |src| && IsWs(src[i]) then SkipWs(src, i + 1) else i
  }

  function Expect(src: string, i: nat, c: char): (r: Read<()>)
    requires i <= |src|
    ensures r.Ok? <==> i < |src| && src[i] == c
    ensures r.Ok? ==> r.pos == i + 1
  {
    if i == |src| then Err(END) else if src[i] != c then Err("expected '" + [c] + "'") else Ok((), i + 1)
  }

  function ReadChars(src: string, i: nat, sofar: string): (r: Read<string>)
    requires i <= |src|
    ensures r.Ok? ==> i < r.pos <= |src|
    decreases |src| - i
  {
    if i == |src| then Err(END)
    else if src[i] == '"' then Ok(sofar, i + 1)
    else if src[i] != '\\' then ReadChars(src, i + 1, sofar + [src[i]])
    else if i + 1 == |src| then Err(END)
    else if src[i + 1] == '"' || src[i + 1] == '\\' then ReadChars(src, i + 2, sofar + [src[i + 1]])
    else if src[i + 1] == 'n' then ReadChars(src, i + 2, sofar + ['\n'])
    else Err("unsupported escape")
  }

  function ReadString(src: string, i: nat): (r: Read<string>)
    requires i <= |src|
    ensures r.Ok? ==> i < r.pos <= |src|
  {
    match Expect(src, i, '"')
    case Err(e) => Err(e)
    case Ok(_, j) => ReadChars(src, j, "")
  }

  predicate Spells(src: string, i: nat, word: string) {
    i + |word| <= |src| && src[i..i + |word|] == word
  }

  function NumEnd(src: string, i: nat): (j: nat)
    requires i <= |src|
    ensures i <= j <= |src|
    decreases |src| - i
  {
    if i < |src| && IsNum(src[i]) then NumEnd(src, i + 1) else i
  }

  function ReadNumber(stod: Conversion, src: string, i: nat): (r: Read<Value>)
    requires i < |src|
    ensures r.Ok? ==> i < r.pos <= |src|
  {
    var j := NumEnd(src, if src[i] == '-' || src[i] == '+' then i + 1 else i);
    if j == i then Err("expected value")
    else match stod(src[i..j])
         case None => Err("invalid number")
         case Some(n) => Ok(JNumber(n), j)
  }

  function ReadValue(stod: Conversion, src: string, i: nat): (r: Read<Value>)
    requires i <= |src|
    ensures r.Ok? ==> i < r.pos <= |src|
    decreases |src| - i, 2
  {
    var j := SkipWs(src, i);
    if j == |src| then Err(END)
    else if src[j] == '"' then
      match ReadString(src, j)
      case Err(e) => Err(e)
      case Ok(s, k) => Ok(JString(s), k)
    else if src[j] == '{' then
      match ReadObject(stod, src, j)
      case Err(e) => Err(e)
      case Ok(fields, k) => Ok(JObject(fields), k)
    else if src[j] == '[' then
      var k := SkipWs(src, j + 1);
      if k == |src| then Err(END)
      else if src[k] == ']' then Ok(JArray([]), k + 1)
      else
        match ReadItems(stod, src, k, [])
        case Err(e) => Err(e)
        case Ok(items, m) => Ok(JArray(items), m)
    else if Spells(src, j, "true") then Ok(JBool(true), j + 4)
    else if Spells(src, j, "false") then Ok(JBool(false), j + 5)
    else ReadNumber(stod, src, j)
  }

  /** An array's items from position `i` on, `sofar` already read. */
  function ReadItems(stod: Conversion, src: string, i: nat, sofar: seq<Value>): (r: Read<seq<Value>>)
    requires i <= |src|
    ensures r.Ok? ==> i < r.pos <= |src|
    decreases |src| - i, 3
  {
    match ReadValue(stod, src, SkipWs(src, i))
    case Err(e) => Err(e)
    case Ok(v, j) =>
      var k := SkipWs(src, j);
      if k == |src| then Err(END)
      else if src[k] == ',' then ReadItems(stod, src, k + 1, sofar + [v])
      else if src[k] == ']' then Ok(sofar + [v], k + 1)
      else Err("expected ',' or ']' in array")
  }

  function ReadObject(stod: Conversion, src: string, i: nat): (r: Read<map<string, Value>>)
    requires i <= |src|
    ensures r.Ok? ==> i < r.pos <= |src|
    decreases |src| - i, 1
  {
    match Expect(src, SkipWs(src, i), '{')
    case Err(e) => Err(e)
    case Ok(_, j) =>
      var k := SkipWs(src, j);
      if k == |src| then Err(END)
      else if src[k] == '}' then Ok(map[], k + 1)
      else ReadFields(stod, src, k, map[])
  }

  /** The first occurrence of a key wins. */
  function Emplace(fields: map<string, Value>, key: string, v: Value): map<string, Value> {
    if key in fields then fields else fields[key := v]
  }

  /** One `"key": value`. */
  function ReadField(stod: Conversion, src: string, i: nat): (r: Read<(string, Value)>)
    requires i <= |src|
    ensures r.Ok? ==> i < r.pos <= |src|
    decreases |src| - i, 0
  {
    match ReadString(src, SkipWs(src, i))
    case Err(e) => Err(e)
    case Ok(key, j) =>
      match Expect(src, SkipWs(src, j), ':')
      case Err(e) => Err(e)
      case Ok(_, k) =>
        match ReadValue(stod, src, SkipWs(src, k))
        case Err(e) => Err(e)
        case Ok(v, m) => Ok((key, v), m)
  }

  function ReadFields(stod: Conversion, src: string, i: nat, sofar: map<string, Value>): (r: Read<map<string, Value>>)
    requires i <= |src|
    ensures r.Ok? ==> i < r.pos <= |src|
    decreases |src| - i, 1
  {
    match ReadField(stod, src, i)
    case Err(e) => Err(e)
    case Ok(f, m) =>
      var n := SkipWs(src, m);
      if n == |src| then Err(END)
      else if src[n] == ',' then ReadFields(stod, src, n + 1, Emplace(sofar, f.0, f.1))
      else if src[n] == '}' then Ok(Emplace(sofar, f.0, f.1), n + 1)
      else Err("expected ',' or '}' between fields")
  }

  // ---- The reader ------------------------------------------------------------------------------------

  class JsonReader {
    const src: string
    const stod: Conversion
    var i: nat

    ghost predicate Valid()
      reads this
    {
      i <= |src|
    }

    constructor (text: string, conversion: Conversion)
      ensures Valid() && src == text && stod == conversion && i == 0
    {
      src, stod, i := text, conversion, 0;
    }

    method Take() returns (c: Option<char>)
      requires Valid()
      modifies this
      ensures Valid() && i == (if old(i) < |src| then old(i) + 1 else old(i))
      ensures c == if old(i) < |src| then Some(src[old(i)]) else None
    {
      if i >= |src| {
        return None;
      }
      c := Some(src[i]);
      i := i + 1;
    }

    method TakeExpected(want: char) returns (r: Read<()>)
      requires Valid()
      modifies this
      ensures Valid() && r == Expect(src, old(i), want) && (r.Ok? ==> i == r.pos)
    {
      var c := Take();
      if c.None? {
        return Err(END);
      }
      if c.value != want {
        return Err("expected '" + [want] + "'");
      }
      r := Ok((), i);
    }

    method SkipSpace()
      requires Valid()
      modifies this
      ensures Valid() && i == SkipWs(src, old(i))
    {
      while i < |src| && IsWs(src[i])
        invariant Valid() && SkipWs(src, i) == SkipWs(src, old(i))
      {
        i := i + 1;
      }
    }

    method TakeString() returns (r: Read<string>)
      requires Valid()
      modifies this
      ensures Valid() && r == ReadString(src, old(i)) && (r.Ok? ==> i == r.pos)
    {
      var q := TakeExpected('"');
      if q.Err? {
        return Err(q.error);
      }
      var out := "";
      while true
        invariant Valid() && ReadChars(src, i, out) == ReadString(src, old(i))
        decreases |src| - i
      {
        var c := Take();
        if c.None? {
          return Err(END);
        }
        if c.value == '"' {
          return Ok(out, i);
        }
        if c.value == '\\' {
          var e := Take();
          if e.None? {
            return Err(END);
          }
          if e.value == '"' {
            out := out + ['"'];
          } else if e.value == '\\' {
            out := out + ['\\'];
          } else if e.value == 'n' {
            out := out + ['\n'];
          } else {
            return Err("unsupported escape");
          }
        } else {
          out := out + [c.value];
        }
      }
    }

    method TakeNumber() returns (r: Read<Value>)
      requires Valid() && i < |src|
      modifies this
      ensures Valid() && r == ReadNumber(stod, src, old(i)) && (r.Ok? ==> i == r.pos)
    {
      var start := i;
      if src[i] == '-' || src[i] == '+' {
        i := i + 1;
      }
      ghost var from := i;
      while i < |src| && IsNum(src[i])
        invariant from <= i <= |src| && NumEnd(src, i) == NumEnd(src, from)
      {
        i := i + 1;
      }
      if i == start {
        return Err("expected value");
      }
      var n := stod(src[start..i]);
      if n.None? {
        return Err("invalid number");
      }
      r := Ok(JNumber(n.value), i);
    }

    method TakeValue() returns (r: Read<Value>)
      requires Valid()
      modifies this
      ensures Valid() && r == ReadValue(stod, src, old(i)) && (r.Ok? ==> i == r.pos)
      decreases |src| - i, 2
    {
      SkipSpace();
      if i >= |src| {
        return Err(END);
      }
      if src[i] == '"' {
        var s := TakeString();
        return if s.Err? then Err(s.error) else Ok(JString(s.value), i);
      }
      if src[i] == '{' {
        var o := TakeObject();
        return if o.Err? then Err(o.error) else Ok(JObject(o.value), i);
      }
      if src[i] == '[' {
        i := i + 1;
        SkipSpace();
        if i >= |src| {
          return Err(END);
        }
        if src[i] == ']' {
          i := i + 1;
          return Ok(JArray([]), i);
        }
        var a := TakeItems();
        return if a.Err? then Err(a.error) else Ok(JArray(a.value), i);
      }
      if i + 4 <= |src| && src[i..i + 4] == "true" {
        i := i + 4;
        return Ok(JBool(true), i);
      }
      if i + 5 <= |src| && src[i..i + 5] == "false" {
        i := i + 5;
        return Ok(JBool(false), i);
      }
      r := TakeNumber();
    }

    method TakeItems() returns (r: Read<seq<Value>>)
      requires Valid()
      modifies this
      ensures Valid() && r == ReadItems(stod, src, old(i), []) && (r.Ok? ==> i == r.pos)
      decreases |src| - i, 3
    {
      hide ReadValue, SkipWs;
      var arr := [];
      while true
        invariant old(i) <= i <= |src|
        invariant ReadItems(stod, src, i, arr) == ReadItems(stod, src, old(i), [])
        decreases |src| - i
      {
        SkipSpace();
        var v := TakeValue();
        if v.Err? {
          return Err(v.error);
        }
        arr := arr + [v.value];
        SkipSpace();
        var c := Take();
        if c.None? {
          return Err(END);
        }
        if c.value == ']' {
          return Ok(arr, i);
        }
        if c.value != ',' {
          return Err("expected ',' or ']' in array");
        }
      }
    }

    /** The whole-message entry point, and the reader of nested objects. */
    method TakeObject() returns (r: Read<map<string, Value>>)
      requires Valid()
      modifies this
      ensures Valid() && r == ReadObject(stod, src, old(i)) && (r.Ok? ==> i == r.pos)
      decreases |src| - i, 1
    {
      SkipSpace();
      var open := TakeExpected('{');
      if open.Err? {
        return Err(open.error);
      }
      SkipSpace();
      if i >= |src| {
        return Err(END);
      }
      if src[i] == '}' {
        i := i + 1;
        return Ok(map[], i);
      }
      r := TakeFields();
    }

    method TakeFields() returns (r: Read<map<string, Value>>)
      requires Valid()
      modifies this
      ensures Valid() && r == ReadFields(stod, src, old(i), map[]) && (r.Ok? ==> i == r.pos)
      decreases |src| - i, 1
    {
      hide ReadField, SkipWs;
      var out: map<string, Value> := map[];
      while true
        invariant old(i) <= i <= |src|
        invariant ReadFields(stod, src, i, out) == ReadFields(stod, src, old(i), map[])
        decreases |src| - i
      {
        var f := TakeField();
        if f.Err? {
          return Err(f.error);
        }
        if f.value.0 !in out {
          out := out[f.value.0 := f.value.1];
        }
        SkipSpace();
        var c := Take();
        if c.None? {
          return Err(END);
        }
        if c.value == '}' {
          return Ok(out, i);
        }
        if c.value != ',' {
          return Err("expected ',' or '}' between fields");
        }
      }
    }

    method TakeField() returns (r: Read<(string, Value)>)
      requires Valid()
      modifies this
      ensures Valid() && r == ReadField(stod, src, old(i)) && (r.Ok? ==> i == r.pos)
      decreases |src| - i, 0
    {
      SkipSpace();
      var key := TakeString();
      if key.Err? {
        return Err(key.error);
      }
      SkipSpace();
      var colon := TakeExpected(':');
      if colon.Err? {
        return Err(colon.error);
      }
      SkipSpace();
      var v := TakeValue();
      r := if v.Err? then Err(v.error) else Ok((key.value, v.value), i);
    }
  }

  // ---- The escaper --------------------------------------------------------------------------------------

  function EscapeChar(c: char): string {
    if c == '"' || c == '\\' then ['\\', c] else if c == '\n' then "\\n" else [c]
  }

  function Escape(s: string): string {
    if s == [] then [] else EscapeChar(s[0]) + Escape(s[1..])
  }

  lemma {:induction false} EscapeSnoc(s: string, c: char)
    ensures Escape(s + [c]) == Escape(s) + EscapeChar(c)
  {
    if s == [] {
      assert (s + [c])[1..] == [];
    } else {
      assert (s + [c])[1..] == s[1..] + [c];
      EscapeSnoc(s[1..], c);
    }
  }

  method JsonEscape(s: string) returns (out: string)
    ensures out == Escape(s)
  {
    out := "";
    for k := 0 to |s|
      invariant out == Escape(s[..k])
    {
      var c := s[k];
      assert s[..k + 1] == s[..k] + [c];
      EscapeSnoc(s[..k], c);
      if c == '"' || c == '\\' {
        out := out + ['\\'] + [c];
      } else if c == '\n' {
        out := out + "\\n";
      } else {
        out := out + [c];
      }
    }
    assert s[..|s|] == s;
  }

  function ErrorReply(msg: string): string {
    "{\"ok\":false,\"error\":\"" + Escape(msg) + "\"}"
  }

  /** The begin reply inserts the batch's name as it is (src/control_server.cpp:796). */
  function BeginReply(id: string): string {
    "{\"ok\":true,\"batch_id\":\"" + id + "\"}"
  }
}
