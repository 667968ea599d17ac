/** A reader of JSON texts without white space, after RFC 8259, and the proof that it gives back
    every value from its canonical text. It is an account of what the texts mean that does not
    depend on the printer. */
module JsonReader {
  import opened Results
  import opened Text
  import opened CanonicalJson

  // ----- The reader ------------------------------------------------------------------

  /** A hexadecimal digit, in either case. */
  function ReadHex(c: char): Option<nat> {
    if '0' <= c <= '9' then Some(c as int - '0' as int)
    else if 'a' <= c <= 'f' then Some(c as int - 'a' as int + 10)
    else if 'A' <= c <= 'F' then Some(c as int - 'A' as int + 10)
    else None
  }

  /** One character of a string (section 7 of RFC 8259): itself, unless it is a quote, a
      backslash or a control character, or an escape. */
  function ReadChar(s: string): (r: Option<(char, string)>)
    ensures r.Some? ==> |r.value.1| < |s|
  {
    if s == "" || s[0] == '"' || s[0] as int < 0x20 then None
    else if s[0] != '\\' then Some((s[0], s[1..]))
    else if |s| < 2 then None
    else
      match s[1]
      case '"' => Some(('"', s[2..]))
      case '\\' => Some(('\\', s[2..]))
      case '/' => Some(('/', s[2..]))
      case 'b' => Some((0x08 as char, s[2..]))
      case 'f' => Some((0x0C as char, s[2..]))
      case 'n' => Some((0x0A as char, s[2..]))
      case 'r' => Some((0x0D as char, s[2..]))
      case 't' => Some((0x09 as char, s[2..]))
      case 'u' => if |s| < 6 then None else ReadCode(s[2], s[3], s[4], s[5], s[6..])
      case _ => None
  }

  /** The character of a four-digit code, unless it is half of a surrogate pair. */
  function ReadCode(a: char, b: char, c: char, d: char, rest: string): (r: Option<(char, string)>)
    ensures r.Some? ==> r.value.1 == rest
  {
    var (p, q, r, s) := (ReadHex(a), ReadHex(b), ReadHex(c), ReadHex(d));
    if p.None? || q.None? || r.None? || s.None? then None
    else
      var code := 0x1000 * p.value + 0x100 * q.value + 0x10 * r.value + s.value;
      if 0xD800 <= code < 0xE000 || code > 0xFFFF then None else Some((code as char, rest))
  }

  /** The rest of a string, after its opening quote. */
  function ReadString(s: string): (r: Option<(string, string)>)
    ensures r.Some? ==> |r.value.1| < |s|
    decreases |s|
  {
    if s != "" && s[0] == '"' then Some(("", s[1..]))
    else
      var first := ReadChar(s);
      if first.None? then None
      else
        var rest := ReadString(first.value.1);
        if rest.None? then None else Some(([first.value.0] + rest.value.0, rest.value.1))
  }

  /** An integer (section 6): no leading zeros, and no negative zero. */
  function ReadInt(s: string): (r: Option<(int, string)>)
    ensures r.Some? ==> |r.value.1| < |s|
  {
    var negative := s != "" && s[0] == '-';
    var digits := if negative then s[1..] else s;
    var n := DigitRun(digits);
    if n == 0 || (digits[0] == '0' && (n > 1 || negative)) then None
    else
      var value: int := Value(digits[..n]);
      Some((if negative then -value else value, digits[n..]))
  }

  function ReadValue(s: string): (r: Option<(Json, string)>)
    ensures r.Some? ==> |r.value.1| < |s|
    decreases |s|, 0
  {
    if s == "" then None
    else
      match s[0]
      case 'n' => if "null" <= s then Some((Null, s[4..])) else None
      case 't' => if "true" <= s then Some((Bool(true), s[4..])) else None
      case 'f' => if "false" <= s then Some((Bool(false), s[5..])) else None
      case '"' =>
        var text := ReadString(s[1..]);
        if text.None? then None else Some((Str(text.value.0), text.value.1))
      case '[' =>
        if |s| > 1 && s[1] == ']' then Some((Arr([]), s[2..]))
        else
          var items := ReadItems(s[1..]);
          if items.None? then None else Some((Arr(items.value.0), items.value.1))
      case '{' =>
        if |s| > 1 && s[1] == '}' then Some((Obj(map[]), s[2..]))
        else
          var fields := ReadMembers(s[1..]);
          if fields.None? then None else Some((Obj(fields.value.0), fields.value.1))
      case _ =>
        var n := ReadInt(s);
        if n.None? then None else Some((Int(n.value.0), n.value.1))
  }

  /** The values of an array, up to and with its closing bracket. */
  function ReadItems(s: string): (r: Option<(seq<Json>, string)>)
    ensures r.Some? ==> |r.value.1| < |s|
    decreases |s|, 1
  {
    var first := ReadValue(s);
    if first.None? || first.value.1 == "" then None
    else if first.value.1[0] == ']' then Some(([first.value.0], first.value.1[1..]))
    else if first.value.1[0] != ',' then None
    else
      var rest := ReadItems(first.value.1[1..]);
      if rest.None? then None else Some(([first.value.0] + rest.value.0, rest.value.1))
  }

  /** The members of an object, up to and with its closing brace. No name comes twice. */
  function ReadMembers(s: string): (r: Option<(map<string, Json>, string)>)
    ensures r.Some? ==> |r.value.1| < |s|
    decreases |s|, 1
  {
    if s == "" || s[0] != '"' then None
    else
      var key := ReadString(s[1..]);
      if key.None? || key.value.1 == "" || key.value.1[0] != ':' then None
      else
        var first := ReadValue(key.value.1[1..]);
        if first.None? || first.value.1 == "" then None
        else if first.value.1[0] == '}' then Some((map[key.value.0 := first.value.0], first.value.1[1..]))
        else if first.value.1[0] != ',' then None
        else
          var rest := ReadMembers(first.value.1[1..]);
          if rest.None? || key.value.0 in rest.value.0 then None
          else Some((rest.value.0[key.value.0 := first.value.0], rest.value.1))
  }

  // ----- Strings and numbers read back -----------------------------------------------

  lemma HexReads(d: nat)
    requires d < 16
    ensures ReadHex(HexDigit(d)) == Some(d)
  {
  }

  lemma CharReads(c: char, x: string)
    ensures ReadChar(Escape(c) + x) == Some((c, x))
  {
    var s := Escape(c) + x;
    if |Escape(c)| == 6 {
      HexReads(0);
      HexReads(c as int / 16);
      HexReads(c as int % 16);
      assert Escape(c) == ['\\', 'u', '0', '0', HexDigit(c as int / 16), HexDigit(c as int % 16)];
      assert s[6..] == x;
    } else if |Escape(c)| == 2 {
      assert s[2..] == x;
    } else {
      assert s[1..] == x;
    }
  }

  lemma {:induction false} StringReads(s: string, x: string)
    ensures ReadString(Escaped(s) + ("\"" + x)) == Some((s, x))
  {
    var tail := "\"" + x;
    if s == "" {
      assert Escaped(s) + tail == tail;
      assert tail[1..] == x;
    } else {
      assert Escaped(s) + tail == Escape(s[0]) + (Escaped(s[1..]) + tail);
      CharReads(s[0], Escaped(s[1..]) + tail);
      EscapeShape(s[0]);
      StringReads(s[1..], x);
      assert [s[0]] + s[1..] == s;
    }
  }

  lemma {:induction false} LeadingDigit(n: nat)
    ensures Decimal(n)[0] == '0' <==> n == 0
    ensures n < 10 <==> |Decimal(n)| == 1
  {
    if n >= 10 { LeadingDigit(n / 10); }
  }

  /** What the digits of a number are read as, up to what follows them. */
  lemma DigitsRead(n: nat, x: string)
    requires NoDigitFirst(x)
    ensures var digits := Decimal(n) + x;
            var k := DigitRun(digits);
            && k == |Decimal(n)| > 0 && digits[..k] == Decimal(n) && Value(digits[..k]) == n && digits[k..] == x
            && (digits[0] == '0' <==> n == 0) && (digits[0] == '0' ==> k == 1)
  {
    LeadingDigit(n);
    DigitRunOf(Decimal(n), x);
    ValueOfDecimal(n);
    assert (Decimal(n) + x)[..|Decimal(n)|] == Decimal(n) && (Decimal(n) + x)[|Decimal(n)|..] == x;
  }

  lemma NonNegativeReads(n: int, x: string)
    requires n >= 0 && NoDigitFirst(x)
    ensures ReadInt(Numeral(n) + x) == Some((n, x))
  {
    DigitsRead(n, x);
    assert (Decimal(n) + x)[0] == Decimal(n)[0];
  }

  lemma NegativeReads(n: nat, x: string)
    requires n > 0 && NoDigitFirst(x)
    ensures ReadInt("-" + Decimal(n) + x) == Some((0 - n, x))
  {
    var s := "-" + Decimal(n) + x;
    assert s == "-" + (Decimal(n) + x);
    assert s[0] == '-' && s[1..] == Decimal(n) + x;
    DigitsRead(n, x);
  }

  lemma NumeralOfNegative(n: int)
    requires n < 0
    ensures Numeral(n) == "-" + Decimal(-n)
  {
  }

  lemma IntReads(n: int, x: string)
    requires NoDigitFirst(x)
    ensures ReadInt(Numeral(n) + x) == Some((n, x))
  {
    if n < 0 {
      NumeralOfNegative(n);
      NegativeReads(-n, x);
    } else {
      NonNegativeReads(n, x);
    }
  }

  // ----- Values read back ------------------------------------------------------------

  lemma {:induction false} ItemsRead(items: seq<Json>, x: string)
    requires items != [] && EncodeItems(items).Some?
    ensures ReadItems(Join(EncodeItems(items).value) + ("]" + x)) == Some((items, x))
    decreases items, 0
  {
    var parts := EncodeItems(items).value;
    var tail := "]" + x;
    if |items| == 1 {
      assert Join(parts) == parts[0];
      ValueReads(items[0], tail);
      assert tail[1..] == x;
      assert items == [items[0]];
    } else {
      var rest := Join(parts[1..]) + tail;
      assert parts[1..] == EncodeItems(items[1..]).value;
      JoinNext(parts, tail);
      ValueReads(items[0], "," + rest);
      ItemsRead(items[1..], x);
      assert ("," + rest)[1..] == rest;
      assert items == [items[0]] + items[1..];
    }
  }

  ghost function Fields(v: Json, keys: seq<string>): map<string, Json>
    requires v.Obj? && forall k :: k in keys ==> k in v.fields
  {
    map k | k in keys :: v.fields[k]
  }

  lemma LastMemberReads(key: string, value: Json, text: string, x: string)
    requires ReadValue(text + ("}" + x)) == Some((value, "}" + x))
    ensures ReadMembers(Quoted(key) + ":" + text + ("}" + x)) == Some((map[key := value], x))
  {
    MemberReads(key, text, "}" + x);
    assert ("}" + x)[1..] == x;
  }

  lemma NextMemberReads(key: string, value: Json, text: string, rest: string, fields: map<string, Json>, x: string)
    requires ReadValue(text + ("," + rest)) == Some((value, "," + rest))
    requires ReadMembers(rest) == Some((fields, x)) && key !in fields
    ensures ReadMembers(Quoted(key) + ":" + text + ("," + rest)) == Some((fields[key := value], x))
  {
    MemberReads(key, text, "," + rest);
    assert ("," + rest)[1..] == rest;
  }

  lemma JoinNext(parts: seq<string>, tail: string)
    requires |parts| > 1
    ensures Join(parts) + tail == parts[0] + ("," + (Join(parts[1..]) + tail))
  {
  }

  lemma {:induction false} MembersRead(v: Json, keys: seq<string>, x: string)
    requires v.Obj? && (forall k :: k in keys ==> k in v.fields) && keys != [] && Ascending(keys)
    requires EncodeMembers(v, keys).Some?
    ensures ReadMembers(Join(EncodeMembers(v, keys).value) + ("}" + x)) == Some((Fields(v, keys), x))
    decreases v, |keys|, 0
  {
    var parts, key := EncodeMembers(v, keys).value, keys[0];
    var text, tail := Encode(v.fields[key]).value, "}" + x;
    if |keys| == 1 {
      assert Join(parts) == Quoted(key) + ":" + text;
      ValueReads(v.fields[key], tail);
      LastMemberReads(key, v.fields[key], text, x);
      assert Fields(v, keys) == map[key := v.fields[key]];
    } else {
      var rest := Join(parts[1..]) + tail;
      assert parts[1..] == EncodeMembers(v, keys[1..]).value;
      JoinNext(parts, tail);
      ValueReads(v.fields[key], "," + rest);
      MembersRead(v, keys[1..], x);
      FieldsNext(v, keys);
      NextMemberReads(key, v.fields[key], text, rest, Fields(v, keys[1..]), x);
    }
  }

  lemma FieldsNext(v: Json, keys: seq<string>)
    requires v.Obj? && (forall k :: k in keys ==> k in v.fields) && keys != [] && Ascending(keys)
    ensures keys[0] !in Fields(v, keys[1..]) && Fields(v, keys) == Fields(v, keys[1..])[keys[0] := v.fields[keys[0]]]
  {
    forall k | k in keys[1..] ensures k != keys[0] { BelowIsStrict(keys[0], k); }
  }

  /** The name of a member is read up to the text of its value. */
  lemma MemberReads(key: string, text: string, x: string)
    ensures var s := Quoted(key) + ":" + text + x;
            s != "" && s[0] == '"' && ReadString(s[1..]) == Some((key, ":" + (text + x)))
            && (":" + (text + x))[1..] == text + x
  {
    var s := Quoted(key) + ":" + text + x;
    assert s == "\"" + (Escaped(key) + ("\"" + (":" + (text + x))));
    assert s[1..] == Escaped(key) + ("\"" + (":" + (text + x)));
    StringReads(key, ":" + (text + x));
  }

  /** Round trip: the reader gives back every value from its canonical text, and stops where the
      text ends. */
  lemma {:induction false} ValueReads(v: Json, x: string)
    requires Encode(v).Some? && NoDigitFirst(x)
    ensures ReadValue(Encode(v).value + x) == Some((v, x))
    decreases v, 1 + if v.Obj? then |v.fields| else 0, 0
  {
    match v {
      case Null => LiteralReads(v, x);
      case Bool(flag) => LiteralReads(v, x);
      case Int(n) =>
        FirstCharacter(v);
        IntReads(n, x);
      case Str(text) => TextReads(text, x);
      case Arr(items) => ArrayReads(v, x);
      case Obj(fields) => ObjectReads(v, x);
    }
  }

  lemma LiteralReads(v: Json, x: string)
    requires v.Null? || v.Bool?
    ensures ReadValue(Encode(v).value + x) == Some((v, x))
  {
    var text := Encode(v).value;
    assert (text + x)[..|text|] == text && (text + x)[|text|..] == x && (text + x)[0] == text[0];
  }

  lemma TextReads(text: string, x: string)
    ensures ReadValue(Quoted(text) + x) == Some((Str(text), x))
  {
    var s := Quoted(text) + x;
    assert s == "\"" + (Escaped(text) + ("\"" + x));
    assert s[1..] == Escaped(text) + ("\"" + x);
    StringReads(text, x);
  }

  lemma {:induction false} ArrayReads(v: Json, x: string)
    requires v.Arr? && Encode(v).Some?
    ensures ReadValue(Encode(v).value + x) == Some((v, x))
    decreases v, 0
  {
    var s, parts := Encode(v).value + x, EncodeItems(v.items).value;
    assert s == "[" + (Join(parts) + ("]" + x));
    assert s[1..] == Join(parts) + ("]" + x);
    if v.items == [] {
      assert s[2..] == x;
    } else {
      ItemsRead(v.items, x);
      ItemsOpen(v.items);
      ListStart(parts, ']', x);
    }
  }

  lemma {:induction false} ObjectReads(v: Json, x: string)
    requires v.Obj? && Encode(v).Some?
    ensures ReadValue(Encode(v).value + x) == Some((v, x))
    decreases v, |v.fields|, 1
  {
    var s, keys := Encode(v).value + x, Sorted(v.fields.Keys);
    var parts := EncodeMembers(v, keys).value;
    assert s == "{" + (Join(parts) + ("}" + x));
    assert s[1..] == Join(parts) + ("}" + x);
    if v.fields == map[] {
      assert keys == [];
      assert s[2..] == x;
    } else {
      assert |keys| == |v.fields.Keys| == |v.fields|;
      MembersRead(v, keys, x);
      MembersOpen(v, keys);
      ListStart(parts, '}', x);
      AllFields(v);
      BraceReads(v, s, Join(parts) + ("}" + x), x);
    }
  }

  lemma AllFields(v: Json)
    requires v.Obj?
    ensures Fields(v, Sorted(v.fields.Keys)) == v.fields
  {
  }

  lemma BraceReads(v: Json, s: string, rest: string, x: string)
    requires v.Obj? && s == "{" + rest && rest != "" && rest[0] != '}' && ReadMembers(rest) == Some((v.fields, x))
    ensures ReadValue(s) == Some((v, x))
  {
    assert s[1..] == rest;
  }

  // ----- Which of the texts is the canonical one -------------------------------------

  /** Canonical texts mean what they say: a value is read back from its text alone. */
  lemma TextsReadBack(v: Json)
    requires Encode(v).Some?
    ensures ReadValue(Encode(v).value) == Some((v, ""))
  {
    ValueReads(v, "");
    assert Encode(v).value + "" == Encode(v).value;
  }

  function Lower(s: string): string {
    if s == "" then ""
    else [if 'A' <= s[0] <= 'F' then (s[0] as int - 'A' as int + 'a' as int) as char else s[0]] + Lower(s[1..])
  }

  lemma HexIsLower(c: char, d: nat)
    requires ReadHex(c) == Some(d)
    ensures d < 16 && Lower([c]) == [HexDigit(d)]
  {
    assert Lower("") == "";
  }

  lemma {:induction false} LowerJoins(a: string, b: string)
    ensures Lower(a + b) == Lower(a) + Lower(b)
  {
    if a == "" {
      assert a + b == b;
    } else {
      assert (a + b)[1..] == a[1..] + b;
      LowerJoins(a[1..], b);
    }
  }

  /** Of all the ways to write a character in a string, the canonical one is the shortest, and
      where a code is needed, the one in lower case. */
  lemma EscapeIsShortest(c: char, t: string)
    requires ReadChar(t) == Some((c, ""))
    ensures |Escape(c)| <= |t|
    ensures |Escape(c)| == |t| ==> t == Escape(c) || (|t| == 6 && Lower(t[2..]) == Escape(c)[2..])
  {
    if t[0] != '\\' {
      assert t == [t[0]] + t[1..];
    } else if t[1] == 'u' {
      CodeIsLower(c, t);
    } else {
      assert t == [t[0], t[1]] + t[2..];
    }
  }

  lemma CodeIsLower(c: char, t: string)
    requires ReadChar(t) == Some((c, "")) && t[0] == '\\' && t[1] == 'u'
    ensures |t| == 6 && (|Escape(c)| == 6 ==> Lower(t[2..]) == Escape(c)[2..])
  {
    assert |t[6..]| == 0;
    var code := c as int;
    if |Escape(c)| == 6 {
      var (p, q, r, s) := (ReadHex(t[2]).value, ReadHex(t[3]).value, ReadHex(t[4]).value, ReadHex(t[5]).value);
      HexIsLower(t[2], p);
      HexIsLower(t[3], q);
      HexIsLower(t[4], r);
      HexIsLower(t[5], s);
      assert p == 0 && q == 0 && r == code / 16 && s == code % 16;
      assert t[2..] == [t[2]] + ([t[3]] + ([t[4]] + [t[5]]));
      LowerJoins([t[2]], [t[3]] + ([t[4]] + [t[5]]));
      LowerJoins([t[3]], [t[4]] + [t[5]]);
      LowerJoins([t[4]], [t[5]]);
      assert Escape(c)[2..] == [HexDigit(0), HexDigit(0), HexDigit(code / 16), HexDigit(code % 16)];
    }
  }

  /** An object is written member by member, each name once, in ascending order of its UTF-8. */
  lemma ObjectsAreSorted(v: Json) returns (keys: seq<string>, parts: seq<string>)
    requires v.Obj? && Encode(v).Some?
    ensures Encode(v).value == "{" + Join(parts) + "}" && |parts| == |keys|
    ensures forall k :: k in keys <==> k in v.fields
    ensures forall i, j :: 0 <= i < j < |keys| ==> Before(Utf8(keys[i]), Utf8(keys[j]))
    ensures forall i :: 0 <= i < |keys| ==>
              && Encode(v.fields[keys[i]]).Some?
              && parts[i] == Quoted(keys[i]) + ":" + Encode(v.fields[keys[i]]).value
  {
    keys := Sorted(v.fields.Keys);
    parts := EncodeMembers(v, keys).value;
    forall i, j | 0 <= i < j < |keys| ensures Before(Utf8(keys[i]), Utf8(keys[j])) { Utf8KeepsOrder(keys[i], keys[j]); }
    forall i | 0 <= i < |keys|
      ensures Encode(v.fields[keys[i]]).Some? && parts[i] == Quoted(keys[i]) + ":" + Encode(v.fields[keys[i]]).value
    {
      MemberAt(v, keys, i);
    }
  }

  /** What is digested: the domain, a newline, and a text that is read back as the value. */
  lemma DigestIsOfThePayload(domain: string, v: Json) returns (payload: string)
    requires ExactRequestDigest(domain, v).Some?
    ensures ExactRequestDigest(domain, v) == Some(Sha256(Utf8(payload)))
    ensures |payload| > |domain| && payload[..|domain|] == domain && payload[|domain|] == '\n'
    ensures ReadValue(payload[|domain| + 1..]) == Some((v, ""))
  {
    payload := domain + "\n" + Encode(v).value;
    assert payload[|domain| + 1..] == Encode(v).value;
    TextsReadBack(v);
  }
}
