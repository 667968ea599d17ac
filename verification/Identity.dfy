/** Identities of browser tabs, frames and DOM nodes: what the adapter prints into a reference
    and what it reads back out of it. */
module Identity {
  import opened Results
  import opened Text

  const MAX_U64 := 0xFFFF_FFFF_FFFF_FFFF
  const MAX_FRAME_BYTES := 256

  // ----- Splitting -------------------------------------------------------------------

  /** Where a separator first occurs. */
  function Find(s: string, sep: string): Option<nat> {
    if sep <= s then Some(0)
    else if s == "" then None
    else
      var rest := Find(s[1..], sep);
      if rest.None? then None else Some(rest.value + 1)
  }

  lemma {:induction false} FindIsInside(s: string, sep: string)
    ensures Find(s, sep).Some? ==> Find(s, sep).value + |sep| <= |s|
  {
    if !(sep <= s) && s != "" { FindIsInside(s[1..], sep); }
  }

  ghost predicate OccursAt(s: string, sep: string, i: nat) { i + |sep| <= |s| && s[i..i + |sep|] == sep }

  lemma OccursNext(s: string, sep: string, i: nat)
    requires s != "" && sep != ""
    ensures OccursAt(s, sep, i) <==> if i == 0 then sep <= s else OccursAt(s[1..], sep, i - 1)
  {
    if i > 0 && i + |sep| <= |s| { assert s[i..i + |sep|] == s[1..][i - 1..i - 1 + |sep|]; }
  }

  /** A separator is found where it occurs first, and nowhere exactly if it does not occur. */
  lemma {:induction false} FindIsFirst(s: string, sep: string)
    requires sep != ""
    ensures Find(s, sep).None? ==> forall i: nat :: !OccursAt(s, sep, i)
    ensures Find(s, sep).Some? ==> OccursAt(s, sep, Find(s, sep).value)
    ensures Find(s, sep).Some? ==> forall i: nat :: i < Find(s, sep).value ==> !OccursAt(s, sep, i)
  {
    if sep <= s {
      assert OccursAt(s, sep, 0);
    } else if s != "" {
      FindIsFirst(s[1..], sep);
      var rest := Find(s[1..], sep);
      if rest.Some? { OccursNext(s, sep, rest.value + 1); }
      forall i: nat | rest.None? || i < rest.value + 1 ensures !OccursAt(s, sep, i) {
        OccursNext(s, sep, i);
        if i > 0 { assert !OccursAt(s[1..], sep, i - 1); }
      }
    }
  }

  /** `split_once`. */
  function SplitOnce(s: string, sep: string): Option<(string, string)> {
    var at := Find(s, sep);
    if at.None? then None else
      FindIsInside(s, sep);
      Some((s[..at.value], s[at.value + |sep|..]))
  }

  /** A separator whose first character does not come again in it. */
  ghost predicate IsSeparator(sep: string) { sep != "" && sep[0] !in sep[1..] }

  lemma StartsWithSeparator(a: string, sep: string, b: string)
    requires IsSeparator(sep) && a != ""
    ensures sep <= a + sep + b <==> sep <= a
  {
    var s := a + sep + b;
    if |a| < |sep| {
      assert s[|a|] == sep[0] && sep[|a|] == sep[1..][|a| - 1];
    } else {
      assert s[..|sep|] == a[..|sep|];
    }
  }

  /** Such a separator is found where it was put, unless it is found earlier on its own. */
  lemma {:induction false} FindFirst(a: string, sep: string, b: string)
    requires IsSeparator(sep)
    ensures Find(a + sep + b, sep) == if Find(a, sep).Some? then Find(a, sep) else Some(|a|)
  {
    if a == "" {
      assert sep <= a + sep + b;
    } else {
      StartsWithSeparator(a, sep, b);
      assert (a + sep + b)[1..] == a[1..] + sep + b;
      FindFirst(a[1..], sep, b);
    }
  }

  lemma SplitFirst(a: string, sep: string, b: string)
    requires IsSeparator(sep)
    ensures SplitOnce(a + sep + b, sep).Some?
    ensures SplitOnce(a + sep + b, sep).value.0 == a <==> Find(a, sep).None?
    ensures Find(a, sep).None? ==> SplitOnce(a + sep + b, sep).value == (a, b)
  {
    FindFirst(a, sep, b);
    FindIsInside(a, sep);
    var s := a + sep + b;
    assert s[..|a|] == a && s[|a| + |sep|..] == b;
    if Find(a, sep).Some? {
      assert |s[..Find(a, sep).value]| < |a|;
    }
  }

  // ----- Node numbers ----------------------------------------------------------------

  /** `u64::from_str`: digits, after one plus sign if there is one, of a value that fits. */
  function ParseU64(s: string): Option<nat> {
    var digits := if "+" <= s then s[1..] else s;
    if digits == "" || !AllDigits(digits) || Value(digits) > MAX_U64 then None else Some(Value(digits))
  }

  lemma ParseDecimal(n: nat)
    requires n <= MAX_U64
    ensures ParseU64(Decimal(n)) == Some(n)
  {
    ValueOfDecimal(n);
    assert IsDigit(Decimal(n)[0]);
  }

  // ----- Printing and parsing --------------------------------------------------------

  /** `dom_ref_in_frame`. */
  function DomIdentity(tab: string, frame: Option<string>, node: nat): string {
    if frame.Some? then tab + "#frame:" + frame.value + "#node:" + Decimal(node) else tab + "#" + Decimal(node)
  }

  /** `frame_ref`. */
  function FrameIdentity(tab: string, frame: string): string { tab + "#frame:" + frame }

  predicate IsFrame(frame: string) { frame != "" && ByteLength(frame) <= MAX_FRAME_BYTES }

  datatype Parts = Parts(tab: string, node: Option<nat>, frame: Option<string>)

  /** `target_parts`. */
  function TargetParts(kind: string, identity: string): Result<Parts> {
    if kind == "tab" then Ok(Parts(identity, None, None))
    else if kind == "dom" then DomParts(identity)
    else if kind == "frame" then FrameParts(identity)
    else Err(InvalidArgument)
  }

  function DomParts(identity: string): Result<Parts> {
    var outer := SplitOnce(identity, "#");
    if outer.None? then Err(StaleReference) else NodeParts(outer.value.0, outer.value.1)
  }

  /** What follows the tab: a node number, or a frame and a node number. */
  function NodeParts(tab: string, rest: string): Result<Parts> {
    if "frame:" <= rest then
      var inner := SplitOnce(rest[6..], "#node:");
      if inner.None? then Err(StaleReference) else
        var (frame, id) := inner.value;
        if !IsFrame(frame) || ParseU64(id).None? then Err(StaleReference)
        else Ok(Parts(tab, ParseU64(id), Some(frame)))
    else if ParseU64(rest).None? then Err(StaleReference)
    else Ok(Parts(tab, ParseU64(rest), None))
  }

  function FrameParts(identity: string): Result<Parts> {
    var outer := SplitOnce(identity, "#frame:");
    if outer.None? || !IsFrame(outer.value.1) then Err(StaleReference)
    else Ok(Parts(outer.value.0, None, Some(outer.value.1)))
  }

  // ----- Round trips -----------------------------------------------------------------

  lemma Separators()
    ensures IsSeparator("#") && IsSeparator("#node:") && IsSeparator("#frame:")
  {
    assert "#node:"[1..] == "node:" && "#frame:"[1..] == "frame:";
  }

  lemma NodePartsRoundTrip(tab: string, frame: string, node: nat)
    requires node <= MAX_U64
    ensures NodeParts(tab, "frame:" + frame + "#node:" + Decimal(node)) == Ok(Parts(tab, Some(node), Some(frame)))
       <==> IsFrame(frame) && Find(frame, "#node:").None?
  {
    var rest, id := "frame:" + frame + "#node:" + Decimal(node), Decimal(node);
    Separators();
    assert rest[..6] == "frame:" && rest[6..] == frame + "#node:" + id;
    SplitFirst(frame, "#node:", id);
    ParseDecimal(node);
  }

  lemma NodePartsKeepTab(tab: string, rest: string)
    ensures NodeParts(tab, rest).Ok? ==> NodeParts(tab, rest).value.tab == tab
  {}

  /** A reference to a node in a frame is read back exactly as printed, if and only if the tab
      has no '#' and the frame is bounded, not empty, and free of "#node:". */
  lemma NodeInFrameRoundTrip(tab: string, frame: string, node: nat)
    requires node <= MAX_U64
    ensures TargetParts("dom", DomIdentity(tab, Some(frame), node)) == Ok(Parts(tab, Some(node), Some(frame)))
       <==> '#' !in tab && IsFrame(frame) && Find(frame, "#node:").None?
  {
    var identity, rest := DomIdentity(tab, Some(frame), node), "frame:" + frame + "#node:" + Decimal(node);
    Separators();
    FrameIsHash(tab, frame, Decimal(node));
    SplitFirst(tab, "#", rest);
    HashIsFound(tab);
    NodePartsRoundTrip(tab, frame, node);
    var outer := SplitOnce(identity, "#").value;
    NodePartsKeepTab(outer.0, outer.1);
  }

  lemma FrameIsHash(tab: string, frame: string, id: string)
    ensures tab + "#frame:" + frame + "#node:" + id == tab + "#" + ("frame:" + frame + "#node:" + id)
  {
    assert "#frame:" == "#" + "frame:";
    assert tab + ("#" + "frame:") + frame + "#node:" + id == tab + "#" + ("frame:" + frame + "#node:" + id);
  }

  lemma {:induction false} HashIsFound(s: string)
    ensures Find(s, "#").None? <==> '#' !in s
  {
    if s != "" {
      HashIsFound(s[1..]);
      assert "#" <= s <==> s[0] == '#';
      assert s == [s[0]] + s[1..];
    }
  }

  /** A reference to a node of the main document is read back if and only if the tab has no '#'. */
  lemma NodeRoundTrip(tab: string, node: nat)
    requires node <= MAX_U64
    ensures TargetParts("dom", DomIdentity(tab, None, node)) == Ok(Parts(tab, Some(node), None)) <==> '#' !in tab
  {
    Separators();
    SplitFirst(tab, "#", Decimal(node));
    HashIsFound(tab);
    ParseDecimal(node);
    assert IsDigit(Decimal(node)[0]);
  }

  /** A reference to a frame is read back if and only if the frame is bounded and not empty and
      the tab is free of "#frame:". */
  lemma FrameRoundTrip(tab: string, frame: string)
    ensures TargetParts("frame", FrameIdentity(tab, frame)) == Ok(Parts(tab, None, Some(frame)))
       <==> IsFrame(frame) && Find(tab, "#frame:").None?
  {
    Separators();
    SplitFirst(tab, "#frame:", frame);
  }

  ghost predicate IsPrintable(tab: string, frame: Option<string>, node: nat) {
    '#' !in tab && node <= MAX_U64 && (frame.Some? ==> IsFrame(frame.value) && Find(frame.value, "#node:").None?)
  }

  /** No two nodes, in whatever tabs and frames, share a reference. */
  lemma IdentitiesAreDistinct(tab: string, frame: Option<string>, node: nat, tab': string, frame': Option<string>,
                              node': nat)
    requires IsPrintable(tab, frame, node) && IsPrintable(tab', frame', node')
    requires DomIdentity(tab, frame, node) == DomIdentity(tab', frame', node')
    ensures tab == tab' && frame == frame' && node == node'
  {
    if frame.Some? { NodeInFrameRoundTrip(tab, frame.value, node); } else { NodeRoundTrip(tab, node); }
    if frame'.Some? { NodeInFrameRoundTrip(tab', frame'.value, node'); } else { NodeRoundTrip(tab', node'); }
  }

  // ----- What is read at all ---------------------------------------------------------

  lemma SplitIsAround(s: string, sep: string)
    requires sep != "" && SplitOnce(s, sep).Some?
    ensures var (a, b) := SplitOnce(s, sep).value; s == a + sep + b
  {
    FindIsInside(s, sep);
    FindIsFirst(s, sep);
    var i := Find(s, sep).value;
    assert s == s[..i] + s[i..i + |sep|] + s[i + |sep|..];
  }

  lemma {:induction false} FoundWithin(a: string, sep: string, b: string)
    requires IsSeparator(sep) && SplitOnce(a + sep + b, sep) == Some((a, b))
    ensures Find(a, sep).None?
  {
    SplitFirst(a, sep, b);
  }

  /** `tab` and `frame` references, and anything else: a tab is any text, and a frame reference is
      read exactly if it is a tab without "#frame:", "#frame:", and a bounded frame. */
  lemma TabsAndFramesAreReadExactly(kind: string, identity: string, parts: Parts)
    requires kind != "dom"
    ensures TargetParts(kind, identity) == Ok(parts) <==>
              || (kind == "tab" && parts == Parts(identity, None, None))
              || (kind == "frame" && parts.node.None? && parts.frame.Some?
                  && (forall i: nat :: !OccursAt(parts.tab, "#frame:", i))
                  && parts.frame.value != "" && |Utf8(parts.frame.value)| <= 256
                  && identity == parts.tab + "#frame:" + parts.frame.value)
  {
    Separators();
    FindIsFirst(parts.tab, "#frame:");
    if kind == "frame" {
      if parts.frame.Some? {
        SplitFirst(parts.tab, "#frame:", parts.frame.value);
        ByteLengthIsUtf8Length(parts.frame.value);
      }
      if TargetParts(kind, identity) == Ok(parts) {
        SplitIsAround(identity, "#frame:");
        FoundWithin(parts.tab, "#frame:", parts.frame.value);
      }
    }
  }

  /** `dom` references are read exactly if they are a tab without '#', a '#', and a number of a
      node, or "frame:", a bounded frame without "#node:", "#node:" and a number; and are read
      as that. Numbers may be written with leading zeros or one plus sign. */
  lemma DomIsReadExactly(identity: string, parts: Parts)
    ensures TargetParts("dom", identity) == Ok(parts) <==>
              && '#' !in parts.tab && parts.node.Some?
              && exists id :: ParseU64(id) == parts.node && IsSpelled(identity, parts, id)
  {
    if TargetParts("dom", identity) == Ok(parts) { ReadIsSpelled(identity, parts); }
    if '#' !in parts.tab && parts.node.Some? {
      forall id | ParseU64(id) == parts.node && IsSpelled(identity, parts, id)
        ensures TargetParts("dom", identity) == Ok(parts)
      {
        SpellingIsRead(identity, parts, id);
      }
    }
  }

  lemma ReadIsSpelled(identity: string, parts: Parts)
    requires TargetParts("dom", identity) == Ok(parts)
    ensures '#' !in parts.tab && parts.node.Some?
    ensures exists id :: ParseU64(id) == parts.node && IsSpelled(identity, parts, id)
  {
    var (tab, rest) := SplitOnce(identity, "#").value;
    Separators();
    SplitIsAround(identity, "#");
    FoundWithin(tab, "#", rest);
    HashIsFound(tab);
    var id := PartsAreSpelled(tab, rest, parts);
    if parts.frame.Some? { FrameIsHash(tab, parts.frame.value, id); }
    assert IsSpelled(identity, parts, id);
  }

  lemma PartsAreSpelled(tab: string, rest: string, parts: Parts) returns (id: string)
    requires NodeParts(tab, rest) == Ok(parts)
    ensures parts.tab == tab && parts.node.Some? && ParseU64(id) == parts.node
    ensures if parts.frame.None? then rest == id
            else
              && parts.frame.value != "" && |Utf8(parts.frame.value)| <= 256
              && (forall i: nat :: !OccursAt(parts.frame.value, "#node:", i))
              && rest == "frame:" + parts.frame.value + "#node:" + id
  {
    if "frame:" <= rest {
      Separators();
      var (frame, number) := SplitOnce(rest[6..], "#node:").value;
      id := number;
      SplitIsAround(rest[6..], "#node:");
      FoundWithin(frame, "#node:", id);
      assert rest == "frame:" + rest[6..];
      assert "frame:" + (frame + "#node:" + id) == "frame:" + frame + "#node:" + id;
      FindIsFirst(frame, "#node:");
      ByteLengthIsUtf8Length(frame);
    } else {
      id := rest;
    }
  }

  /** How a node is referred to, with the number of the node as it is written. */
  ghost predicate IsSpelled(identity: string, parts: Parts, id: string) {
    if parts.frame.None? then identity == parts.tab + "#" + id
    else
      && parts.frame.value != "" && |Utf8(parts.frame.value)| <= 256
      && (forall i: nat :: !OccursAt(parts.frame.value, "#node:", i))
      && identity == parts.tab + "#frame:" + parts.frame.value + "#node:" + id
  }

  lemma PlainIsRead(tab: string, node: nat, id: string)
    requires '#' !in tab && ParseU64(id) == Some(node)
    ensures TargetParts("dom", tab + "#" + id) == Ok(Parts(tab, Some(node), None))
  {
    Separators();
    HashIsFound(tab);
    SplitFirst(tab, "#", id);
    NumbersAreNoFrames(id);
  }

  lemma FramedPartsAreRead(tab: string, frame: string, node: nat, id: string)
    requires ParseU64(id) == Some(node) && IsFrame(frame) && Find(frame, "#node:").None?
    ensures NodeParts(tab, "frame:" + frame + "#node:" + id) == Ok(Parts(tab, Some(node), Some(frame)))
  {
    Separators();
    var rest := "frame:" + frame + "#node:" + id;
    assert rest[..6] == "frame:" && rest[6..] == frame + "#node:" + id;
    SplitFirst(frame, "#node:", id);
  }

  lemma FramedIsRead(tab: string, frame: string, node: nat, id: string)
    requires '#' !in tab && ParseU64(id) == Some(node) && IsFrame(frame) && Find(frame, "#node:").None?
    ensures TargetParts("dom", tab + "#frame:" + frame + "#node:" + id) == Ok(Parts(tab, Some(node), Some(frame)))
  {
    Separators();
    HashIsFound(tab);
    FrameIsHash(tab, frame, id);
    SplitFirst(tab, "#", "frame:" + frame + "#node:" + id);
    FramedPartsAreRead(tab, frame, node, id);
  }

  lemma SpellingIsRead(identity: string, parts: Parts, id: string)
    requires '#' !in parts.tab && parts.node.Some? && ParseU64(id) == parts.node && IsSpelled(identity, parts, id)
    ensures TargetParts("dom", identity) == Ok(parts)
  {
    if parts.frame.None? {
      PlainIsRead(parts.tab, parts.node.value, id);
    } else {
      FindIsFirst(parts.frame.value, "#node:");
      ByteLengthIsUtf8Length(parts.frame.value);
      FramedIsRead(parts.tab, parts.frame.value, parts.node.value, id);
    }
  }

  lemma NumbersAreNoFrames(id: string)
    requires ParseU64(id).Some?
    ensures !("frame:" <= id)
  {
    assert "frame:"[0] == 'f';
  }
}
