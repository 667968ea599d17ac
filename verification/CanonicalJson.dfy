/** The canonical request encoding shared by the Python scripts and the TypeScript SDK, and
    the proof that it is injective: a digest names one domain and one JSON value. */
module CanonicalJson {
  import opened Results
  import opened Text

  const EXACT_LIMIT := 9_007_199_254_740_991

  /** JSON values. `Inexact` stands for everything the encoder refuses, such as floats. */
  datatype Json =
    | Null
    | Bool(flag: bool)
    | Int(n: int)
    | Str(text: string)
    | Arr(items: seq<Json>)
    | Obj(fields: map<string, Json>)
    | Inexact

  // ----- The printer -----------------------------------------------------------------

  const BACKSPACE := 0x08 as char
  const FORM_FEED := 0x0C as char

  function HexDigit(d: nat): (c: char)
    requires d < 16
    ensures '0' <= c <= '9' || 'a' <= c <= 'f'
  {
    (d + if d < 10 then '0' as int else 'a' as int - 10) as char
  }

  /** String escapes of RFC 8259, section 7, with the short forms where there is one. */
  function Escape(c: char): (s: string)
    ensures s != ""
  {
    if c == '"' then "\\\""
    else if c == '\\' then "\\\\"
    else if c == '\n' then "\\n"
    else if c == '\r' then "\\r"
    else if c == '\t' then "\\t"
    else if c == BACKSPACE then "\\b"
    else if c == FORM_FEED then "\\f"
    else if c as int < 0x20 then "\\u00" + [HexDigit(c as int / 16), HexDigit(c as int % 16)]
    else [c]
  }

  function Escaped(s: string): string {
    if s == "" then "" else Escape(s[0]) + Escaped(s[1..])
  }

  function Quoted(s: string): string { "\"" + Escaped(s) + "\"" }

  function Numeral(n: int): string {
    if n < 0 then "-" + Decimal(-n) else Decimal(n)
  }

  function Join(parts: seq<string>): string {
    if parts == [] then ""
    else if |parts| == 1 then parts[0]
    else parts[0] + "," + Join(parts[1..])
  }

  /** The canonical text of a value, or None where the encoder raises. */
  function Encode(v: Json): Option<string>
    decreases v, 1 + if v.Obj? then |v.fields| else 0
  {
    match v
    case Null => Some("null")
    case Bool(flag) => Some(if flag then "true" else "false")
    case Int(n) => if -EXACT_LIMIT <= n <= EXACT_LIMIT then Some(Numeral(n)) else None
    case Str(text) => Some(Quoted(text))
    case Arr(items) =>
      var parts := EncodeItems(items);
      if parts.None? then None else Some("[" + Join(parts.value) + "]")
    case Obj(fields) =>
      var parts := EncodeMembers(v, Sorted(fields.Keys));
      if parts.None? then None else Some("{" + Join(parts.value) + "}")
    case Inexact => None
  }

  function EncodeItems(items: seq<Json>): (r: Option<seq<string>>)
    ensures r.Some? ==> |r.value| == |items|
    decreases items, 0
  {
    if items == [] then Some([]) else
      var first := Encode(items[0]);
      var rest := EncodeItems(items[1..]);
      if first.None? || rest.None? then None else Some([first.value] + rest.value)
  }

  function EncodeMembers(v: Json, keys: seq<string>): (r: Option<seq<string>>)
    requires v.Obj? && forall k :: k in keys ==> k in v.fields
    ensures r.Some? ==> |r.value| == |keys|
    decreases v, |keys|
  {
    if keys == [] then Some([]) else
      var first := Encode(v.fields[keys[0]]);
      var rest := EncodeMembers(v, keys[1..]);
      if first.None? || rest.None? then None
      else Some([Quoted(keys[0]) + ":" + first.value] + rest.value)
  }

  // ----- The digest ------------------------------------------------------------------

  predicate IsHexText(s: string) {
    s != "" && forall i :: 0 <= i < |s| ==> '0' <= s[i] <= '9' || 'a' <= s[i] <= 'f'
  }

  /** SHA-256 without collisions: an ideal digest is its whole input, written in hexadecimal.
      It keeps the alphabet of a real digest and gives up its fixed length. */
  function Sha256(bytes: seq<int>): (s: string)
    requires forall i :: 0 <= i < |bytes| ==> 0 <= bytes[i] < 0x100
    ensures bytes != [] ==> IsHexText(s)
  {
    if bytes == [] then "" else
      [HexDigit(bytes[0] / 16), HexDigit(bytes[0] % 16)] + Sha256(bytes[1..])
  }

  /** `exact_request_digest`: the digest of the domain, a newline and the canonical text. */
  function ExactRequestDigest(domain: string, v: Json): (r: Option<string>)
    ensures r.Some? ==> IsHexText(r.value)
  {
    var body := Encode(v);
    if body.None? then None else
      var payload := domain + "\n" + body.value;
      Some(Sha256(Utf8(payload)))
  }

  // ----- Reading texts off the front -------------------------------------------------

  lemma Cut(p: string, x: string, q: string, y: string)
    requires p + x == q + y && |p| == |q|
    ensures p == q && x == y
  {
    assert p == (p + x)[..|p|] && q == (q + y)[..|q|];
    assert x == (p + x)[|p|..] && y == (q + y)[|q|..];
  }

  lemma Regroup(open: string, body: string, close: string, x: string)
    ensures open + body + close + x == open + (body + (close + x))
    ensures (open + body) + x == open + (body + x)
  {}

  lemma EscapeShape(c: char)
    ensures |Escape(c)| == if Escape(c)[0] != '\\' then 1 else if Escape(c)[1] != 'u' then 2 else 6
    ensures Escape(c)[0] != '"'
  {}

  lemma EscapeIsInjective(c: char, d: char)
    requires Escape(c) == Escape(d)
    ensures c == d
  {
    EscapeShape(c);
    EscapeShape(d);
    if |Escape(c)| == 6 {
      assert Escape(c)[4] == HexDigit(c as int / 16) && Escape(c)[5] == HexDigit(c as int % 16);
      assert Escape(d)[4] == HexDigit(d as int / 16) && Escape(d)[5] == HexDigit(d as int % 16);
    }
  }

  lemma EscapeIsPrefixFree(c: char, d: char, x: string, y: string)
    requires Escape(c) + x == Escape(d) + y
    ensures c == d && x == y
  {
    EscapeShape(c);
    EscapeShape(d);
    var a, b := Escape(c), Escape(d);
    assert (a + x)[0] == a[0] && (b + y)[0] == b[0];
    assert |a| > 1 ==> (a + x)[1] == a[1];
    assert |b| > 1 ==> (b + y)[1] == b[1];
    Cut(a, x, b, y);
    EscapeIsInjective(c, d);
  }

  lemma {:induction false} EscapedIsUnique(s: string, t: string, x: string, y: string)
    requires Escaped(s) + ("\"" + x) == Escaped(t) + ("\"" + y)
    ensures s == t && x == y
  {
    if s != "" && t != "" {
      var a, b := Escaped(s[1..]) + ("\"" + x), Escaped(t[1..]) + ("\"" + y);
      Regroup(Escape(s[0]), Escaped(s[1..]), "", "\"" + x);
      Regroup(Escape(t[0]), Escaped(t[1..]), "", "\"" + y);
      EscapeIsPrefixFree(s[0], t[0], a, b);
      EscapedIsUnique(s[1..], t[1..], x, y);
      assert s == [s[0]] + s[1..] && t == [t[0]] + t[1..];
    } else {
      EscapedStart(s, x);
      EscapedStart(t, y);
      assert Escaped("") == "";
      Cut("\"", x, "\"", y);
    }
  }

  lemma EscapedStart(s: string, x: string)
    ensures (Escaped(s) + ("\"" + x))[0] == '"' <==> s == ""
    ensures s == "" ==> Escaped(s) + ("\"" + x) == "\"" + x
  {
    if s != "" { EscapeShape(s[0]); }
  }

  lemma QuotedIsUnique(s: string, t: string, x: string, y: string)
    requires Quoted(s) + x == Quoted(t) + y
    ensures s == t && x == y
  {
    Regroup("\"", Escaped(s), "\"", x);
    Regroup("\"", Escaped(t), "\"", y);
    Cut("\"", Escaped(s) + ("\"" + x), "\"", Escaped(t) + ("\"" + y));
    EscapedIsUnique(s, t, x, y);
  }

  /** Where two texts followed by something that is no digit agree, each text ends. */
  ghost predicate SplitAlike(p: string, q: string, x: string, y: string) {
    NoDigitFirst(x) && NoDigitFirst(y) && p + x == q + y ==> p == q && x == y
  }

  lemma NumeralsSplitAlike(m: int, n: int, x: string, y: string)
    ensures SplitAlike(Numeral(m), Numeral(n), x, y)
  {
    var p, q := Decimal(if m < 0 then -m else m), Decimal(if n < 0 then -n else n);
    NumeralStart(p, m < 0, q, n < 0, x, y);
  }

  lemma NumeralStart(p: string, minus: bool, q: string, minus': bool, x: string, y: string)
    requires p != "" && AllDigits(p) && q != "" && AllDigits(q)
    ensures SplitAlike(if minus then "-" + p else p, if minus' then "-" + q else q, x, y)
  {
    var a, b := if minus then "-" + p else p, if minus' then "-" + q else q;
    if NoDigitFirst(x) && NoDigitFirst(y) && a + x == b + y {
      assert (a + x)[0] == a[0] && (b + y)[0] == b[0];
      if minus {
        assert a + x == "-" + (p + x) && b + y == "-" + (q + y);
        Cut("-", p + x, "-", q + y);
      }
      DigitRunIsUnique(p, x, q, y);
    }
  }

  /** Parts with a comma before each of them. */
  function Tail(parts: seq<string>): string {
    if parts == [] then "" else "," + (parts[0] + Tail(parts[1..]))
  }

  lemma {:induction false} TailOfJoin(parts: seq<string>)
    ensures Tail(parts) == if parts == [] then "" else "," + Join(parts)
  {
    if |parts| > 1 {
      TailOfJoin(parts[1..]);
      assert Join(parts) == parts[0] + "," + Join(parts[1..]);
    } else if |parts| == 1 {
      assert parts[1..] == [];
    }
  }

  /** Lists of separable parts are separable: what follows the bracket, and the parts. */
  lemma {:induction false} TailsSplitAlike(ps: seq<string>, qs: seq<string>, close: char, x: string, y: string)
    requires forall i, x, y :: 0 <= i < |ps| && i < |qs| ==> SplitAlike(ps[i], qs[i], x, y)
    requires close != ',' && !IsDigit(close)
    requires Tail(ps) + ([close] + x) == Tail(qs) + ([close] + y)
    ensures ps == qs && x == y
    decreases |ps|
  {
    assert (Tail(ps) + ([close] + x))[0] == if ps == [] then close else ',';
    assert (Tail(qs) + ([close] + y))[0] == if qs == [] then close else ',';
    if ps == [] {
      assert Tail(ps) + ([close] + x) == [close] + x && Tail(qs) + ([close] + y) == [close] + y;
      Cut([close], x, [close], y);
    } else {
      var x', y' := Tail(ps[1..]) + ([close] + x), Tail(qs[1..]) + ([close] + y);
      assert Tail(ps) + ([close] + x) == "," + (ps[0] + x');
      assert Tail(qs) + ([close] + y) == "," + (qs[0] + y');
      Cut(",", ps[0] + x', ",", qs[0] + y');
      assert SplitAlike(ps[0], qs[0], x', y');
      assert forall i, x, y :: 0 <= i < |ps[1..]| && i < |qs[1..]| ==>
          SplitAlike(ps[1..][i], qs[1..][i], x, y) by {
        assert forall i :: 0 <= i < |ps[1..]| ==> ps[1..][i] == ps[i + 1];
        assert forall i :: 0 <= i < |qs[1..]| ==> qs[1..][i] == qs[i + 1];
      }
      TailsSplitAlike(ps[1..], qs[1..], close, x, y);
      assert ps == [ps[0]] + ps[1..] && qs == [qs[0]] + qs[1..];
    }
  }

  ghost predicate OpensWithout(parts: seq<string>, close: char) {
    forall i :: 0 <= i < |parts| ==> parts[i] != "" && parts[i][0] != close
  }

  lemma ListStart(parts: seq<string>, close: char, x: string)
    requires OpensWithout(parts, close)
    ensures (Join(parts) + ([close] + x))[0] == close <==> parts == []
  {
    if parts != [] {
      assert parts[0] != "" && parts[0][0] != close;
    }
  }

  /** A bracketed list: `Join(ps) + "]"` ends where `Join(qs) + "]"` ends, part by part. */
  lemma ListsSplitAlike(ps: seq<string>, qs: seq<string>, close: char, x: string, y: string)
    requires forall i, x, y :: 0 <= i < |ps| && i < |qs| ==> SplitAlike(ps[i], qs[i], x, y)
    requires OpensWithout(ps, close) && OpensWithout(qs, close)
    requires close != ',' && !IsDigit(close)
    requires Join(ps) + ([close] + x) == Join(qs) + ([close] + y)
    ensures ps == qs && x == y
  {
    ListStart(ps, close, x);
    ListStart(qs, close, y);
    TailOfJoin(ps);
    TailOfJoin(qs);
    Regroup(",", Join(ps), "", [close] + x);
    Regroup(",", Join(qs), "", [close] + y);
    TailsSplitAlike(ps, qs, close, x, y);
  }

  // ----- Reading values off the front ------------------------------------------------

  /** Which kind of value a canonical text starts, by its first character. */
  predicate Starts(c: char, v: Json) {
    match v
    case Null => c == 'n'
    case Bool(flag) => c == if flag then 't' else 'f'
    case Int(_) => c == '-' || IsDigit(c)
    case Str(_) => c == '"'
    case Arr(_) => c == '['
    case Obj(_) => c == '{'
    case Inexact => false
  }

  lemma FirstCharacter(v: Json)
    requires Encode(v).Some?
    ensures Encode(v).value != "" && Starts(Encode(v).value[0], v)
  {}

  lemma {:induction false} ItemAt(items: seq<Json>, i: nat)
    requires EncodeItems(items).Some? && i < |items|
    ensures Encode(items[i]) == Some(EncodeItems(items).value[i])
  {
    if i > 0 { ItemAt(items[1..], i - 1); }
  }

  lemma {:induction false} MemberAt(v: Json, keys: seq<string>, i: nat)
    requires v.Obj? && (forall k :: k in keys ==> k in v.fields)
    requires EncodeMembers(v, keys).Some? && i < |keys|
    ensures Encode(v.fields[keys[i]]).Some?
    ensures EncodeMembers(v, keys).value[i] == Quoted(keys[i]) + ":" + Encode(v.fields[keys[i]]).value
    decreases i
  {
    if i > 0 { MemberAt(v, keys[1..], i - 1); }
  }

  /** No canonical text goes on where another one ends, digits apart. */
  lemma {:induction false} EncodingsSplitAlike(v: Json, w: Json, x: string, y: string)
    requires Encode(v).Some? && Encode(w).Some?
    ensures SplitAlike(Encode(v).value, Encode(w).value, x, y)
    decreases v, 3
  {
    var a, b := Encode(v).value, Encode(w).value;
    if NoDigitFirst(x) && NoDigitFirst(y) && a + x == b + y {
      FirstCharacter(v);
      FirstCharacter(w);
      assert (a + x)[0] == a[0] && (b + y)[0] == b[0];
      match v {
        case Null => Cut(a, x, b, y);
        case Bool(_) => Cut(a, x, b, y);
        case Int(n) => NumeralsSplitAlike(n, w.n, x, y);
        case Str(text) => QuotedIsUnique(text, w.text, x, y);
        case Arr(items) => var _ := ArraysSplitAlike(v, w, x, y);
        case Obj(fields) => var _ := ObjectsSplitAlike(v, w, x, y);
      }
    }
  }

  /** Equal arrays of parts, read off two arrays. */
  lemma {:induction false} ArraysSplitAlike(v: Json, w: Json, x: string, y: string) returns (ps: seq<string>)
    requires v.Arr? && w.Arr? && Encode(v).Some? && Encode(w).Some?
    requires Encode(v).value + x == Encode(w).value + y
    ensures EncodeItems(v.items) == EncodeItems(w.items) == Some(ps) && x == y
    decreases v, 2
  {
    ps := EncodeItems(v.items).value;
    var qs := EncodeItems(w.items).value;
    Regroup("[", Join(ps), "]", x);
    Regroup("[", Join(qs), "]", y);
    Cut("[", Join(ps) + ("]" + x), "[", Join(qs) + ("]" + y));
    forall i, x, y | 0 <= i < |ps| && i < |qs| ensures SplitAlike(ps[i], qs[i], x, y) {
      ItemAt(v.items, i);
      ItemAt(w.items, i);
      EncodingsSplitAlike(v.items[i], w.items[i], x, y);
    }
    ItemsOpen(v.items);
    ItemsOpen(w.items);
    ListsSplitAlike(ps, qs, ']', x, y);
  }

  lemma ItemsOpen(items: seq<Json>)
    requires EncodeItems(items).Some?
    ensures OpensWithout(EncodeItems(items).value, ']')
  {
    forall i | 0 <= i < |items|
      ensures EncodeItems(items).value[i] != "" && EncodeItems(items).value[i][0] != ']'
    {
      ItemAt(items, i);
      FirstCharacter(items[i]);
    }
  }

  /** Equal members, key by key, read off two objects. */
  lemma {:induction false} ObjectsSplitAlike(v: Json, w: Json, x: string, y: string) returns (ps: seq<string>)
    requires v.Obj? && w.Obj? && Encode(v).Some? && Encode(w).Some?
    requires Encode(v).value + x == Encode(w).value + y
    ensures EncodeMembers(v, Sorted(v.fields.Keys)) == EncodeMembers(w, Sorted(w.fields.Keys)) == Some(ps)
    ensures x == y
    decreases v, 2
  {
    var ks, ls := Sorted(v.fields.Keys), Sorted(w.fields.Keys);
    ps := EncodeMembers(v, ks).value;
    var qs := EncodeMembers(w, ls).value;
    Regroup("{", Join(ps), "}", x);
    Regroup("{", Join(qs), "}", y);
    Cut("{", Join(ps) + ("}" + x), "{", Join(qs) + ("}" + y));
    forall i, x, y | 0 <= i < |ps| && i < |qs| ensures SplitAlike(ps[i], qs[i], x, y) {
      MembersSplitAlike(v, ks, w, ls, i, x, y);
    }
    MembersOpen(v, ks);
    MembersOpen(w, ls);
    ListsSplitAlike(ps, qs, '}', x, y);
  }

  lemma MembersOpen(v: Json, keys: seq<string>)
    requires v.Obj? && (forall k :: k in keys ==> k in v.fields)
    requires EncodeMembers(v, keys).Some?
    ensures OpensWithout(EncodeMembers(v, keys).value, '}')
  {
    forall i | 0 <= i < |keys|
      ensures EncodeMembers(v, keys).value[i] != "" && EncodeMembers(v, keys).value[i][0] != '}'
    {
      MemberAt(v, keys, i);
    }
  }

  lemma {:induction false} MembersSplitAlike(v: Json, ks: seq<string>, w: Json, ls: seq<string>, i: nat, x: string,
                                             y: string)
    requires v.Obj? && (forall k :: k in ks ==> k in v.fields)
    requires w.Obj? && (forall k :: k in ls ==> k in w.fields)
    requires EncodeMembers(v, ks).Some? && EncodeMembers(w, ls).Some?
    requires i < |ks| && i < |ls|
    ensures SplitAlike(EncodeMembers(v, ks).value[i], EncodeMembers(w, ls).value[i], x, y)
    decreases v, 1
  {
    MemberAt(v, ks, i);
    MemberAt(w, ls, i);
    var e, f := Encode(v.fields[ks[i]]).value, Encode(w.fields[ls[i]]).value;
    EncodingsSplitAlike(v.fields[ks[i]], w.fields[ls[i]], x, y);
    PairsSplitAlike(ks[i], e, ls[i], f, x, y);
  }

  lemma PairsSplitAlike(k: string, e: string, l: string, f: string, x: string, y: string)
    requires SplitAlike(e, f, x, y)
    ensures SplitAlike(Quoted(k) + ":" + e, Quoted(l) + ":" + f, x, y)
    ensures Quoted(k) + ":" + e == Quoted(l) + ":" + f ==> k == l && e == f
  {
    var p, q := Quoted(k) + ":" + e, Quoted(l) + ":" + f;
    if p + x == q + y {
      assert p + x == Quoted(k) + (":" + (e + x)) && q + y == Quoted(l) + (":" + (f + y));
      QuotedIsUnique(k, l, ":" + (e + x), ":" + (f + y));
      Cut(":", e + x, ":", f + y);
    }
    if p == q {
      assert p == Quoted(k) + (":" + e) && q == Quoted(l) + (":" + f);
      QuotedIsUnique(k, l, ":" + e, ":" + f);
      Cut(":", e, ":", f);
    }
  }

  // ----- Injectivity -----------------------------------------------------------------

  /** Equal canonical texts come from equal values. */
  lemma {:induction false} EncodeIsInjective(v: Json, w: Json)
    requires Encode(v).Some? && Encode(v) == Encode(w)
    ensures v == w
    decreases v, 1 + if v.Obj? then |v.fields| else 0
  {
    FirstCharacter(v);
    FirstCharacter(w);
    match v {
      case Null =>
      case Bool(_) =>
      case Int(n) =>
        NumeralIsInjective(n, w.n);
      case Str(text) =>
        Regroup(Quoted(text), "", "", "");
        Regroup(Quoted(w.text), "", "", "");
        QuotedIsUnique(text, w.text, "", "");
      case Arr(items) =>
        var _ := ArraysSplitAlike(v, w, "", "");
        ItemsAreInjective(items, w.items);
      case Obj(fields) =>
        var _ := ObjectsSplitAlike(v, w, "", "");
        MembersAreInjective(v, Sorted(fields.Keys), w, Sorted(w.fields.Keys));
        SameFields(fields, w.fields);
    }
  }

  lemma SameFields(f: map<string, Json>, g: map<string, Json>)
    requires Sorted(f.Keys) == Sorted(g.Keys)
    requires forall k :: k in Sorted(f.Keys) ==> k in f && k in g && f[k] == g[k]
    ensures f == g
  {
    assert forall k :: k in f <==> k in Sorted(f.Keys);
    assert forall k :: k in g <==> k in Sorted(g.Keys);
  }

  lemma {:induction false} ItemsAreInjective(vs: seq<Json>, ws: seq<Json>)
    requires EncodeItems(vs).Some? && EncodeItems(vs) == EncodeItems(ws)
    ensures vs == ws
    decreases vs, 0
  {
    if vs != [] {
      ItemAt(vs, 0);
      ItemAt(ws, 0);
      EncodeIsInjective(vs[0], ws[0]);
      assert EncodeItems(vs[1..]).value == EncodeItems(vs).value[1..];
      assert EncodeItems(ws[1..]).value == EncodeItems(ws).value[1..];
      ItemsAreInjective(vs[1..], ws[1..]);
      assert vs == [vs[0]] + vs[1..] && ws == [ws[0]] + ws[1..];
    }
  }

  lemma {:induction false} MembersAreInjective(v: Json, ks: seq<string>, w: Json, ls: seq<string>)
    requires v.Obj? && (forall k :: k in ks ==> k in v.fields)
    requires w.Obj? && (forall k :: k in ls ==> k in w.fields)
    requires EncodeMembers(v, ks).Some? && EncodeMembers(v, ks) == EncodeMembers(w, ls)
    ensures ks == ls && forall k :: k in ks ==> v.fields[k] == w.fields[k]
    decreases v, |ks|
  {
    if ks != [] {
      MemberAt(v, ks, 0);
      MemberAt(w, ls, 0);
      var p, q := v.fields[ks[0]], w.fields[ls[0]];
      PairsSplitAlike(ks[0], Encode(p).value, ls[0], Encode(q).value, "1", "");
      EncodeIsInjective(p, q);
      assert EncodeMembers(v, ks[1..]).value == EncodeMembers(v, ks).value[1..];
      assert EncodeMembers(w, ls[1..]).value == EncodeMembers(w, ls).value[1..];
      MembersAreInjective(v, ks[1..], w, ls[1..]);
      assert ks == [ks[0]] + ks[1..] && ls == [ls[0]] + ls[1..];
    }
  }

  lemma NumeralIsInjective(m: int, n: int)
    requires Numeral(m) == Numeral(n)
    ensures m == n
  {
    var p, q := Decimal(if m < 0 then -m else m), Decimal(if n < 0 then -n else n);
    assert (m < 0) == (n < 0) by {
      assert Numeral(m)[0] == '-' <==> m < 0;
      assert Numeral(n)[0] == '-' <==> n < 0;
    }
    if m < 0 { Cut("-", p, "-", q); }
    DecimalIsInjective(if m < 0 then -m else m, if n < 0 then -n else n);
  }

  // ----- Injectivity of the digest ---------------------------------------------------

  predicate OneLine(s: string) { '\n' !in s }

  lemma {:induction false} EscapedIsOneLine(s: string)
    ensures OneLine(Escaped(s))
  {
    if s != "" { EscapedIsOneLine(s[1..]); }
  }

  lemma {:induction false} JoinIsOneLine(parts: seq<string>)
    requires forall p :: p in parts ==> OneLine(p)
    ensures OneLine(Join(parts))
  {
    if |parts| > 1 {
      JoinIsOneLine(parts[1..]);
      assert OneLine(parts[0]) && OneLine(",");
    } else if |parts| == 1 {
      assert parts[0] in parts;
    }
  }

  lemma {:induction false} EncodeIsOneLine(v: Json)
    requires Encode(v).Some?
    ensures OneLine(Encode(v).value)
    decreases v, 1 + if v.Obj? then |v.fields| else 0
  {
    match v {
      case Null =>
      case Bool(_) =>
      case Int(n) =>
        assert AllDigits(Decimal(if n < 0 then -n else n));
      case Str(text) =>
        EscapedIsOneLine(text);
      case Arr(items) =>
        ItemsAreOneLine(items);
        JoinIsOneLine(EncodeItems(items).value);
      case Obj(fields) =>
        MembersAreOneLine(v, Sorted(fields.Keys));
        JoinIsOneLine(EncodeMembers(v, Sorted(fields.Keys)).value);
    }
  }

  lemma {:induction false} ItemsAreOneLine(vs: seq<Json>)
    requires EncodeItems(vs).Some?
    ensures forall p :: p in EncodeItems(vs).value ==> OneLine(p)
    decreases vs, 0
  {
    if vs != [] {
      EncodeIsOneLine(vs[0]);
      ItemsAreOneLine(vs[1..]);
    }
  }

  lemma {:induction false} MembersAreOneLine(v: Json, keys: seq<string>)
    requires v.Obj? && (forall k :: k in keys ==> k in v.fields)
    requires EncodeMembers(v, keys).Some?
    ensures forall p :: p in EncodeMembers(v, keys).value ==> OneLine(p)
    decreases v, |keys|
  {
    if keys != [] {
      EscapedIsOneLine(keys[0]);
      EncodeIsOneLine(v.fields[keys[0]]);
      MembersAreOneLine(v, keys[1..]);
    }
  }

  /** The length of what follows the last newline. */
  function LastLine(s: string): (n: nat)
    ensures n <= |s|
  {
    if OneLine(s) then |s| else LastLine(s[1..])
  }

  lemma {:induction false} LastLineOf(d: string, a: string)
    requires OneLine(a)
    ensures LastLine(d + ("\n" + a)) == |a|
  {
    var s := d + ("\n" + a);
    assert s[|d|] == '\n';
    if d == "" {
      assert s[1..] == a;
    } else {
      assert s[1..] == d[1..] + ("\n" + a);
      LastLineOf(d[1..], a);
    }
  }

  /** The last newline of the payload is the one after the domain. */
  lemma PayloadIsUnique(d: string, a: string, e: string, b: string)
    requires OneLine(a) && OneLine(b)
    requires d + ("\n" + a) == e + ("\n" + b)
    ensures d == e && a == b
  {
    LastLineOf(d, a);
    LastLineOf(e, b);
    Cut(d, "\n" + a, e, "\n" + b);
    Cut("\n", a, "\n", b);
  }

  lemma {:induction false} Sha256IsInjective(a: seq<int>, b: seq<int>)
    requires forall i :: 0 <= i < |a| ==> 0 <= a[i] < 0x100
    requires forall i :: 0 <= i < |b| ==> 0 <= b[i] < 0x100
    requires Sha256(a) == Sha256(b)
    ensures a == b
  {
    if a != [] && b != [] {
      var p, q := [HexDigit(a[0] / 16), HexDigit(a[0] % 16)], [HexDigit(b[0] / 16), HexDigit(b[0] % 16)];
      Cut(p, Sha256(a[1..]), q, Sha256(b[1..]));
      assert p[0] == q[0] && p[1] == q[1];
      assert a[0] / 16 == b[0] / 16 && a[0] % 16 == b[0] % 16;
      Sha256IsInjective(a[1..], b[1..]);
      assert a == [a[0]] + a[1..] && b == [b[0]] + b[1..];
    }
  }

  /** One digest, one domain and one value: objects as maps, whatever their nesting, and
      domains with or without newlines. */
  lemma DigestIsInjective(domain: string, v: Json, domain': string, v': Json)
    requires ExactRequestDigest(domain, v).Some?
    requires ExactRequestDigest(domain, v) == ExactRequestDigest(domain', v')
    ensures domain == domain' && v == v'
  {
    var a, b := Encode(v).value, Encode(v').value;
    Sha256IsInjective(Utf8(domain + "\n" + a), Utf8(domain' + "\n" + b));
    Utf8KeepsOrder(domain + "\n" + a, domain' + "\n" + b);
    EncodeIsOneLine(v);
    EncodeIsOneLine(v');
    Regroup(domain, "\n", "", a);
    Regroup(domain', "\n", "", b);
    PayloadIsUnique(domain, a, domain', b);
    EncodeIsInjective(v, v');
  }

  /** Every integer in range and nothing inexact: what the encoder accepts. */
  ghost predicate Exact(v: Json) {
    match v
    case Int(n) => -EXACT_LIMIT <= n <= EXACT_LIMIT
    case Arr(items) => forall i :: 0 <= i < |items| ==> Exact(items[i])
    case Obj(fields) => forall k :: k in fields ==> Exact(fields[k])
    case Inexact => false
    case _ => true
  }

  /** The encoder raises exactly on values that hold something inexact or out of range. */
  lemma {:induction false} EncodesExactValues(v: Json)
    ensures Encode(v).Some? <==> Exact(v)
    decreases v, 1 + if v.Obj? then |v.fields| else 0
  {
    match v {
      case Arr(items) => ItemsAreExact(items);
      case Obj(fields) =>
        MembersAreExact(v, Sorted(fields.Keys));
        assert forall k :: k in fields ==> k in Sorted(fields.Keys);
      case _ =>
    }
  }

  lemma {:induction false} ItemsAreExact(vs: seq<Json>)
    ensures EncodeItems(vs).Some? <==> forall i :: 0 <= i < |vs| ==> Exact(vs[i])
    decreases vs, 0
  {
    if vs != [] {
      EncodesExactValues(vs[0]);
      ItemsAreExact(vs[1..]);
      assert forall i :: 1 <= i < |vs| ==> vs[i] == vs[1..][i - 1];
    }
  }

  lemma {:induction false} MembersAreExact(v: Json, keys: seq<string>)
    requires v.Obj? && (forall k :: k in keys ==> k in v.fields)
    ensures EncodeMembers(v, keys).Some? <==> forall k :: k in keys ==> Exact(v.fields[k])
    decreases v, |keys|
  {
    if keys != [] {
      EncodesExactValues(v.fields[keys[0]]);
      MembersAreExact(v, keys[1..]);
    }
  }
}
