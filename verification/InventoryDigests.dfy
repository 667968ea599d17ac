/** The digests the inventory really computes, as text, and the proof that they are as
    one-to-one as the symbolic digests of `InventoryModel`. */
module InventoryDigests {
  import opened Results
  import opened Text
  import opened CanonicalJson
  import M = InventoryModel

  function Name(command: M.Command): string {
    match command
    case Reserve => "driver.native-inventory.reserve"
    case Release => "driver.native-inventory.release"
    case Snapshot => "driver.native-inventory.snapshot"
    case Fork => "driver.native-inventory.fork"
    case Restore => "driver.native-inventory.restore"
    case PublishPrivate => "driver.native-inventory.publish-private"
  }

  function VersionJson(v: M.Version): Json {
    Obj(map["resource" := Str(v.resource), "generation" := Str(v.generation), "revision" := Str(Decimal(v.revision))])
  }

  function ItemJson(item: M.Item): Json {
    Obj(map["sku" := Str(item.sku), "available" := Int(item.level.available), "reserved" := Int(item.level.reserved)])
  }

  function ItemsJson(items: seq<M.Item>): seq<Json> {
    seq(|items|, i requires 0 <= i < |items| => ItemJson(items[i]))
  }

  function SnapshotJson(data: M.SnapshotData): Json {
    Obj(map["source" := VersionJson(data.source), "items" := Arr(ItemsJson(data.items))])
  }

  function RequestJson(command: M.Command, expected: M.Version, epoch: int, key: string, parameters: Json): Json {
    Obj(map["command" := Str(Name(command)), "app_version" := Str("1.0.0"), "expected" := VersionJson(expected),
            "epoch" := Int(epoch), "key" := Str(key), "parameters" := parameters])
  }

  /** The text of a digest; None where the encoder would raise. */
  function TextOf(d: M.Digest): Option<string>
    decreases d
  {
    match d
    case OfRequest(command, expected, epoch, key, p) =>
      var parameters := ParametersJson(p);
      if parameters.None? then None
      else ExactRequestDigest("inventory-request/1", RequestJson(command, expected, epoch, key, parameters.value))
    case OfSnapshot(data) => ExactRequestDigest("inventory-snapshot/1", SnapshotJson(data))
    case Foreign(text) => Some(text)
  }

  function ParametersJson(p: M.Parameters): Option<Json>
    decreases p
  {
    match p
    case Units(sku, quantity) => Some(Obj(map["sku" := Str(sku), "quantity" := Int(quantity)]))
    case Nothing => Some(Obj(map[]))
    case Source(snapshot) =>
      var s := TextOf(snapshot);
      if s.None? then None else Some(Obj(map["snapshot_id" := Str(s.value)]))
    case Publication(snapshot, candidate) =>
      var s, c := TextOf(snapshot), TextOf(candidate);
      if s.None? || c.None? then None
      else Some(Obj(map["snapshot_id" := Str(s.value), "candidate_sha256" := Str(c.value)]))
    case Malformed(json) => Some(json)
  }

  /** Parameters that are not malformed. */
  predicate HasShape(v: Json) {
    v.Obj? && (
      || v.fields.Keys == {}
      || (v.fields.Keys == {"sku", "quantity"} && v.fields["sku"].Str? && v.fields["quantity"].Int?)
      || (v.fields.Keys == {"snapshot_id"} && v.fields["snapshot_id"].Str?)
      || (v.fields.Keys == {"snapshot_id", "candidate_sha256"}
          && v.fields["snapshot_id"].Str? && v.fields["candidate_sha256"].Str?))
  }

  /** Everything in a digest goes by its own name: a foreign text is the digest of nothing, and
      malformed JSON has none of the shapes. */
  ghost predicate Proper(d: M.Digest)
    decreases d
  {
    match d
    case OfRequest(_, _, _, _, p) => ProperParameters(p)
    case OfSnapshot(_) => true
    case Foreign(text) => forall x: M.Digest :: !x.Foreign? ==> TextOf(x) != Some(text)
  }

  ghost predicate ProperParameters(p: M.Parameters)
    decreases p
  {
    match p
    case Source(snapshot) => Proper(snapshot)
    case Publication(snapshot, candidate) => Proper(snapshot) && Proper(candidate)
    case Malformed(json) => !HasShape(json)
    case _ => true
  }

  lemma NameIsInjective(a: M.Command, b: M.Command)
    requires Name(a) == Name(b)
    ensures a == b
  {
    assert Name(a)[24..27] == Name(b)[24..27];
  }

  lemma VersionJsonIsInjective(a: M.Version, b: M.Version)
    requires VersionJson(a) == VersionJson(b)
    ensures a == b
  {
    assert "resource"[2] == 's' && "revision"[2] == 'v';
    var f, g := VersionJson(a).fields, VersionJson(b).fields;
    assert f["resource"] == Str(a.resource) && g["resource"] == Str(b.resource);
    assert f["generation"] == Str(a.generation) && g["generation"] == Str(b.generation);
    assert f["revision"] == Str(Decimal(a.revision)) && g["revision"] == Str(Decimal(b.revision));
    DecimalIsInjective(a.revision, b.revision);
  }

  lemma ItemJsonIsInjective(a: M.Item, b: M.Item)
    requires ItemJson(a) == ItemJson(b)
    ensures a == b
  {
    var f, g := ItemJson(a).fields, ItemJson(b).fields;
    assert f["sku"] == Str(a.sku) && g["sku"] == Str(b.sku);
    assert f["available"] == Int(a.level.available) && g["available"] == Int(b.level.available);
    assert f["reserved"] == Int(a.level.reserved) && g["reserved"] == Int(b.level.reserved);
  }

  lemma SnapshotJsonIsInjective(a: M.SnapshotData, b: M.SnapshotData)
    requires SnapshotJson(a) == SnapshotJson(b)
    ensures a == b
  {
    var f, g := SnapshotJson(a).fields, SnapshotJson(b).fields;
    assert f["source"] == VersionJson(a.source) && g["source"] == VersionJson(b.source);
    assert f["items"] == Arr(ItemsJson(a.items)) && g["items"] == Arr(ItemsJson(b.items));
    VersionJsonIsInjective(a.source, b.source);
    assert |ItemsJson(a.items)| == |a.items| && |ItemsJson(b.items)| == |b.items|;
    forall i | 0 <= i < |a.items| ensures a.items[i] == b.items[i] {
      assert ItemsJson(a.items)[i] == ItemsJson(b.items)[i];
      ItemJsonIsInjective(a.items[i], b.items[i]);
    }
  }

  lemma RequestJsonParts(command: M.Command, expected: M.Version, epoch: int, key: string, parameters: Json)
    ensures var f := RequestJson(command, expected, epoch, key, parameters).fields;
            && f.Keys == {"command", "app_version", "expected", "epoch", "key", "parameters"}
            && f["command"] == Str(Name(command)) && f["expected"] == VersionJson(expected)
            && f["epoch"] == Int(epoch) && f["key"] == Str(key) && f["parameters"] == parameters
  {}

  /** Two digests have one text only if they are of one kind and of the same content. A request
      digest therefore binds command, version, epoch, key and parameters, and a snapshot
      digest its source and items; neither is ever the other, nor what a foreign text is. */
  lemma {:induction false} TextIsInjective(d: M.Digest, e: M.Digest)
    requires Proper(d) && Proper(e) && TextOf(d).Some? && TextOf(d) == TextOf(e)
    ensures d == e
    decreases d
  {
    if d.OfRequest? && e.OfRequest? {
      var p, q := ParametersJson(d.parameters).value, ParametersJson(e.parameters).value;
      DigestIsInjective("inventory-request/1", RequestJson(d.command, d.expected, d.epoch, d.key, p),
                        "inventory-request/1", RequestJson(e.command, e.expected, e.epoch, e.key, q));
      RequestJsonParts(d.command, d.expected, d.epoch, d.key, p);
      RequestJsonParts(e.command, e.expected, e.epoch, e.key, q);
      NameIsInjective(d.command, e.command);
      VersionJsonIsInjective(d.expected, e.expected);
      ParametersJsonIsInjective(d.parameters, e.parameters);
    } else if d.OfSnapshot? && e.OfSnapshot? {
      DigestIsInjective("inventory-snapshot/1", SnapshotJson(d.data), "inventory-snapshot/1", SnapshotJson(e.data));
      SnapshotJsonIsInjective(d.data, e.data);
    } else if !d.Foreign? && !e.Foreign? {
      DomainsDiffer(d, e);
    }
  }

  lemma DomainsDiffer(d: M.Digest, e: M.Digest)
    requires !d.Foreign? && !e.Foreign? && d.OfRequest? != e.OfRequest?
    requires TextOf(d).Some? && TextOf(e).Some?
    ensures TextOf(d) != TextOf(e)
  {
    assert |"inventory-request/1"| == 19 && |"inventory-snapshot/1"| == 20;
    if TextOf(d) == TextOf(e) {
      var (r, s) := if d.OfRequest? then (d, e) else (e, d);
      DigestIsInjective("inventory-request/1",
                        RequestJson(r.command, r.expected, r.epoch, r.key, ParametersJson(r.parameters).value),
                        "inventory-snapshot/1", SnapshotJson(s.data));
    }
  }

  lemma ParametersHaveShape(p: M.Parameters)
    requires ProperParameters(p) && ParametersJson(p).Some?
    ensures HasShape(ParametersJson(p).value) <==> !p.Malformed?
  {
  }

  lemma FieldsOfParameters(p: M.Parameters)
    requires !p.Malformed? && ParametersJson(p).Some?
    ensures ParametersJson(p).value.Obj?
    ensures var f := ParametersJson(p).value.fields;
            && ("sku" in f <==> p.Units?)
            && ("snapshot_id" in f <==> p.Source? || p.Publication?)
            && ("candidate_sha256" in f <==> p.Publication?)
  {
    assert |"sku"| == 3 && |"quantity"| == 8 && |"snapshot_id"| == 11 && |"candidate_sha256"| == 16;
  }

  lemma {:induction false} ParametersJsonIsInjective(p: M.Parameters, q: M.Parameters)
    requires ProperParameters(p) && ProperParameters(q)
    requires ParametersJson(p).Some? && ParametersJson(p) == ParametersJson(q)
    ensures p == q
    decreases p, 1
  {
    ParametersHaveShape(p);
    ParametersHaveShape(q);
    if !p.Malformed? {
      FieldsOfParameters(p);
      FieldsOfParameters(q);
      ShapedParametersAreInjective(p, q);
    }
  }

  lemma {:induction false} ShapedParametersAreInjective(p: M.Parameters, q: M.Parameters)
    requires ProperParameters(p) && ProperParameters(q) && !p.Malformed? && !q.Malformed?
    requires ParametersJson(p).Some? && ParametersJson(p) == ParametersJson(q)
    requires (p.Units? <==> q.Units?) && (p.Publication? <==> q.Publication?) && (p.Source? <==> q.Source?)
    ensures p == q
    decreases p, 0
  {
    if !p.Nothing? {
      var f, g := ParametersJson(p).value.fields, ParametersJson(q).value.fields;
      match p {
        case Units(sku, quantity) =>
          assert f["sku"] == Str(sku) && g["sku"] == Str(q.sku);
          assert f["quantity"] == Int(quantity) && g["quantity"] == Int(q.quantity);
        case Source(snapshot) =>
          assert f["snapshot_id"] == Str(TextOf(snapshot).value) && g["snapshot_id"] == Str(TextOf(q.snapshot).value);
          TextIsInjective(snapshot, q.snapshot);
        case Publication(snapshot, candidate) =>
          assert f["snapshot_id"] == Str(TextOf(snapshot).value) && g["snapshot_id"] == Str(TextOf(q.snapshot).value);
          assert f["candidate_sha256"] == Str(TextOf(candidate).value)
              && g["candidate_sha256"] == Str(TextOf(q.candidate).value);
          TextIsInjective(snapshot, q.snapshot);
          TextIsInjective(candidate, q.candidate);
      }
    }
  }
}
