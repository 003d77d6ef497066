/** Checking an uploaded package (app/marketplace/assets.py): the walk over the
    manifest, the asset references it makes, and the sizes. */
module PackageCheck {
  import opened Wrappers

  /** A parsed manifest. The names of an object's fields are distinct. */
  datatype Json =
    | Null | Bool(b: bool) | Number(n: int) | Str(s: string) | Arr(items: seq<Json>) | Obj(fields: seq<Field>)

  datatype Field = Field(name: string, value: Json)

  const MAX_DEPTH := 32

  const FORBIDDEN := [
    "../", "..\\", "file://", "http://", "https://", "javascript:", "data:", "<script", "/etc/", "\\\\"]

  /** Free text of the user: not searched. */
  const PROSE := {"name", "text"}

  function LowerChar(c: char): char { if 'A' <= c <= 'Z' then (c as int + 32) as char else c }

  function Lower(s: string): string { seq(|s|, i requires 0 <= i < |s| => LowerChar(s[i])) }

  predicate OccursAt(s: string, t: string, i: nat) { i + |t| <= |s| && s[i..i + |t|] == t }

  predicate Contains(s: string, t: string) { exists i :: 0 <= i <= |s| && OccursAt(s, t, i) }

  predicate Forbidden(s: string) { exists k :: 0 <= k < |FORBIDDEN| && Contains(Lower(s), FORBIDDEN[k]) }

  predicate Fine(s: string, key: Option<string>) { (key.Some? && key.value in PROSE) || !Forbidden(s) }

  /** `_reject_forbidden`: field names are strings of their own, without a key;
      a list passes its key on to its items. */
  predicate Passes(v: Json, key: Option<string>, depth: nat)
    decreases v, 1
  {
    depth <= MAX_DEPTH &&
    match v
    case Str(s) => Fine(s, key)
    case Obj(fields) => forall i :: 0 <= i < |fields| ==> FieldPasses(fields[i], depth + 1)
    case Arr(items) => forall i :: 0 <= i < |items| ==> Passes(items[i], key, depth + 1)
    case _ => true
  }

  predicate FieldPasses(f: Field, depth: nat)
    decreases f, 0
  {
    depth <= MAX_DEPTH && Fine(f.name, None) && Passes(f.value, Some(f.name), depth)
  }

  // The declarative form: every place in the document.

  datatype Turn = NameOf(i: nat) | Member(i: nat) | Item(i: nat)

  /** Does this path lead somewhere? */
  predicate Leads(v: Json, path: seq<Turn>)
    decreases |path|
  {
    path == [] ||
    match path[0]
    case NameOf(i) => v.Obj? && i < |v.fields| && path[1..] == []
    case Member(i) => v.Obj? && i < |v.fields| && Leads(v.fields[i].value, path[1..])
    case Item(i) => v.Arr? && i < |v.items| && Leads(v.items[i], path[1..])
  }

  /** What is there, and under which key it stands. */
  function There(v: Json, key: Option<string>, path: seq<Turn>): (Json, Option<string>)
    requires Leads(v, path)
    decreases |path|
  {
    if path == [] then (v, key)
    else
      match path[0]
      case NameOf(i) => (Str(v.fields[i].name), None)
      case Member(i) => There(v.fields[i].value, Some(v.fields[i].name), path[1..])
      case Item(i) => There(v.items[i], key, path[1..])
  }

  /** This place is not too deep, and if it holds text that is not prose, the text
      is free of forbidden references. */
  predicate PlaceOk(v: Json, key: Option<string>, depth: nat, path: seq<Turn>)
    requires Leads(v, path)
  {
    && depth + |path| <= MAX_DEPTH
    && var (node, under) := There(v, key, path);
       node.Str? ==> Fine(node.s, under)
  }

  lemma {:induction false} PassesMeansEveryPlace(v: Json, key: Option<string>, depth: nat, path: seq<Turn>)
    requires Passes(v, key, depth) && Leads(v, path)
    ensures PlaceOk(v, key, depth, path)
    decreases |path|
  {
    if path != [] {
      match path[0]
      case NameOf(i) => assert FieldPasses(v.fields[i], depth + 1);
      case Member(i) =>
        assert FieldPasses(v.fields[i], depth + 1);
        PassesMeansEveryPlace(v.fields[i].value, Some(v.fields[i].name), depth + 1, path[1..]);
      case Item(i) =>
        PassesMeansEveryPlace(v.items[i], key, depth + 1, path[1..]);
    }
  }

  /** A document that does not pass has a place that is at fault. */
  lemma {:induction false} FaultHasPlace(v: Json, key: Option<string>, depth: nat) returns (path: seq<Turn>)
    requires !Passes(v, key, depth)
    ensures Leads(v, path) && !PlaceOk(v, key, depth, path)
    decreases v
  {
    path := [];
    if depth <= MAX_DEPTH {
      match v
      case Obj(fields) =>
        var i :| 0 <= i < |fields| && !FieldPasses(fields[i], depth + 1);
        if depth + 1 > MAX_DEPTH || !Fine(fields[i].name, None) {
          path := [NameOf(i)];
          assert path[1..] == [];
        } else {
          var rest := FaultHasPlace(fields[i].value, Some(fields[i].name), depth + 1);
          path := [Member(i)] + rest;
          assert path[1..] == rest;
        }
      case Arr(items) =>
        var i :| 0 <= i < |items| && !Passes(items[i], key, depth + 1);
        var rest := FaultHasPlace(items[i], key, depth + 1);
        path := [Item(i)] + rest;
        assert path[1..] == rest;
      case _ =>
    }
  }

  /** The walk accepts exactly the documents in which every place is fine. */
  lemma WalkIsExact(v: Json)
    ensures Passes(v, None, 0) <==> forall path :: Leads(v, path) ==> PlaceOk(v, None, 0, path)
  {
    if Passes(v, None, 0) {
      forall path | Leads(v, path) ensures PlaceOk(v, None, 0, path) {
        PassesMeansEveryPlace(v, None, 0, path);
      }
    } else {
      var path := FaultHasPlace(v, None, 0);
    }
  }

  // Asset references.

  predicate Hex(c: char) { '0' <= c <= '9' || 'a' <= c <= 'f' || 'A' <= c <= 'F' }

  /** 8-4-4-4-12 hexadecimal digits. */
  predicate Uuid(s: string) {
    |s| == 36 && forall i :: 0 <= i < 36 ==> if i in {8, 13, 18, 23} then s[i] == '-' else Hex(s[i])
  }

  /** What the pattern accepts: its end anchor also matches before a final newline. */
  predicate AssetId(s: string) { Uuid(s) || (|s| == 37 && Uuid(s[..36]) && s[36] == '\n') }

  /** Ids are meant to be UUIDs; the pattern lets exactly one more form through. */
  lemma AssetIdIsAlmostUuid(s: string)
    requires AssetId(s)
    ensures Uuid(s) <==> s[|s| - 1] != '\n'
    ensures forall i :: 0 <= i < |s| ==> Hex(s[i]) || s[i] == '-' || (s[i] == '\n' && i == 36)
  {
    if !Uuid(s) {
      forall i | 0 <= i < 36 ensures Hex(s[i]) || s[i] == '-' {
        assert s[..36][i] == s[i];
      }
    } else {
      assert s[35] != '\n' by { assert Hex(s[35]); }
    }
  }

  /** The other form: every UUID with a newline after it. */
  lemma NewlineIsAccepted(u: string)
    requires Uuid(u)
    ensures AssetId(u + "\n") && !Uuid(u + "\n")
  {
    assert (u + "\n")[..36] == u;
  }

  /** No asset id can leave its place in the storage. */
  lemma AssetIdsStayInPlace(s: string)
    requires AssetId(s)
    ensures forall i :: 0 <= i < |s| ==> s[i] != '/' && s[i] != '\\' && s[i] != '.' && s[i] != ':'
  {
    AssetIdIsAlmostUuid(s);
  }

  function Get(v: Json, name: string): Option<Json>
    requires v.Obj?
  {
    Find(v.fields, name)
  }

  function Find(fields: seq<Field>, name: string): Option<Json> {
    if fields == [] then None
    else if fields[0].name == name then Some(fields[0].value)
    else Find(fields[1..], name)
  }

  predicate HasString(v: Json, name: string)
    requires v.Obj?
  {
    Get(v, name).Some? && Get(v, name).value.Str?
  }

  predicate HasObject(v: Json, name: string)
    requires v.Obj?
  {
    Get(v, name).Some? && Get(v, name).value.Obj?
  }

  /** `_array`: missing means empty; anything but a list is an error. */
  function List(v: Json, name: string): Option<seq<Json>>
    requires v.Obj?
  {
    if Get(v, name).None? then Some([])
    else if Get(v, name).value.Arr? then Some(Get(v, name).value.items)
    else None
  }

  /** The asset a reference names. */
  function Reference(v: Json): Option<string> {
    if v.Str? && AssetId(v.s) then Some(v.s) else None
  }

  datatype Mention = Broken | Nothing | Asset(id: string)

  /** A sticker refers to an asset only if its source is a photo. */
  function StickerMention(v: Json): Mention {
    if !v.Obj? || !HasObject(v, "source") then Broken
    else
      var source := Get(v, "source").value;
      if Get(source, "kind") != Some(Str("photo")) then Nothing
      else AssetMention(source)
  }

  function AssetMention(v: Json): Mention
    requires v.Obj?
  {
    if Get(v, "assetID").None? || Reference(Get(v, "assetID").value).None? then Broken
    else Asset(Reference(Get(v, "assetID").value).value)
  }

  function ArtworkMention(v: Json): Mention { if v.Obj? then AssetMention(v) else Broken }

  /** All mentions of a design, or None where it is not of our format. */
  function Mentions(design: Json): Option<seq<Mention>>
    requires design.Obj?
  {
    var stickers, artworks := List(design, "stickers"), List(design, "importedArtworks");
    if stickers.None? || artworks.None? then None
    else
      Some(seq(|stickers.value|, i requires 0 <= i < |stickers.value| => StickerMention(stickers.value[i]))
           + seq(|artworks.value|, i requires 0 <= i < |artworks.value| => ArtworkMention(artworks.value[i])))
  }

  predicate DesignOk(design: Json)
    requires design.Obj?
  {
    Mentions(design).Some? && Broken !in Mentions(design).value
  }

  /** The assets a design refers to. */
  ghost function AssetsOf(design: Json): set<string>
    requires design.Obj? && DesignOk(design)
  {
    set i | 0 <= i < |Mentions(design).value| && Mentions(design).value[i].Asset? :: Mentions(design).value[i].id
  }

  /** `_design_asset_ids`: two loops that fill a set. */
  method DesignAssetIds(design: Json) returns (r: Option<set<string>>)
    requires design.Obj?
    ensures r.Some? <==> DesignOk(design)
    ensures r.Some? ==> r.value == AssetsOf(design)
  {
    var ids: set<string> := {};
    var stickers := List(design, "stickers");
    if stickers.None? {
      return None;
    }
    ghost var seen: seq<Mention> := [];
    for i := 0 to |stickers.value|
      invariant |seen| == i && forall j :: 0 <= j < i ==> seen[j] == StickerMention(stickers.value[j])
      invariant Broken !in seen && ids == Named(seen)
    {
      var m := StickerMention(stickers.value[i]);
      if m.Broken? {
        BrokenSticker(design, i);
        return None;
      }
      NamedGrows(seen, m);
      seen := seen + [m];
      if m.Asset? {
        ids := ids + {m.id};
      }
    }
    var artworks := List(design, "importedArtworks");
    if artworks.None? {
      return None;
    }
    var n := |stickers.value|;
    for i := 0 to |artworks.value|
      invariant |seen| == n + i && forall j :: 0 <= j < n ==> seen[j] == StickerMention(stickers.value[j])
      invariant forall j :: 0 <= j < i ==> seen[n + j] == ArtworkMention(artworks.value[j])
      invariant Broken !in seen && ids == Named(seen)
    {
      var m := ArtworkMention(artworks.value[i]);
      if m.Broken? {
        BrokenArtwork(design, i);
        return None;
      }
      NamedGrows(seen, m);
      seen := seen + [m];
      if m.Asset? {
        ids := ids + {m.id};
      }
    }
    assert seen == Mentions(design).value;
    r := Some(ids);
  }

  ghost function Named(ms: seq<Mention>): set<string> { set i | 0 <= i < |ms| && ms[i].Asset? :: ms[i].id }

  lemma NamedGrows(ms: seq<Mention>, m: Mention)
    ensures Named(ms + [m]) == Named(ms) + if m.Asset? then {m.id} else {}
  {
    var all := ms + [m];
    forall id | id in Named(ms) ensures id in Named(all) {
      var i :| 0 <= i < |ms| && ms[i].Asset? && ms[i].id == id;
      assert all[i] == ms[i];
    }
    if m.Asset? {
      assert all[|ms|] == m;
    }
  }

  lemma BrokenSticker(design: Json, i: nat)
    requires design.Obj? && List(design, "stickers").Some? && i < |List(design, "stickers").value|
    requires StickerMention(List(design, "stickers").value[i]).Broken?
    ensures !DesignOk(design)
  {
    if Mentions(design).Some? {
      assert Mentions(design).value[i] == Broken;
    }
  }

  lemma BrokenArtwork(design: Json, i: nat)
    requires design.Obj? && List(design, "stickers").Some? && List(design, "importedArtworks").Some?
    requires i < |List(design, "importedArtworks").value|
    requires ArtworkMention(List(design, "importedArtworks").value[i]).Broken?
    ensures !DesignOk(design)
  {
    var n := |List(design, "stickers").value|;
    assert Mentions(design).value[n + i] == Broken;
  }

  datatype ContentType = Mirror | Sticker

  predicate MirrorShape(v: Json)
    requires v.Obj?
  {
    HasString(v, "id") && HasString(v, "name") && HasObject(v, "style") && Get(v, "design").None?
  }

  predicate StickerShape(v: Json)
    requires v.Obj?
  {
    && HasString(v, "id") && HasString(v, "name") && HasObject(v, "design")
    && HasObject(Get(v, "design").value, "style")
  }

  /** No document can be sold under both labels. */
  lemma ShapesAreExclusive(v: Json)
    requires v.Obj?
    ensures !(MirrorShape(v) && StickerShape(v))
  {
  }

  /** Is the document of this type, with every reference in order? */
  predicate ReferencesOk(t: ContentType, v: Json)
    requires v.Obj?
  {
    match t
    case Mirror => MirrorShape(v) && DesignOk(v)
    case Sticker =>
      && StickerShape(v) && DesignOk(Get(v, "design").value)
      && var last := Get(v, "finalAssetID"); last.None? || last.value.Null? || Reference(last.value).Some?
  }

  /** `referenced_asset_ids`: everything the manifest refers to. */
  ghost function Referenced(t: ContentType, v: Json): set<string>
    requires v.Obj? && ReferencesOk(t, v)
  {
    match t
    case Mirror => AssetsOf(v)
    case Sticker =>
      var last := Get(v, "finalAssetID");
      AssetsOf(Get(v, "design").value)
      + if last.Some? && !last.value.Null? then {Reference(last.value).value} else {}
  }

  method ReferencedAssetIds(t: ContentType, v: Json) returns (r: Option<set<string>>)
    requires v.Obj?
    ensures r.Some? <==> ReferencesOk(t, v)
    ensures r.Some? ==> r.value == Referenced(t, v)
  {
    match t
    case Mirror =>
      if !MirrorShape(v) {
        return None;
      }
      r := DesignAssetIds(v);
    case Sticker =>
      if !StickerShape(v) {
        return None;
      }
      r := DesignAssetIds(Get(v, "design").value);
      if r.None? {
        return None;
      }
      var last := Get(v, "finalAssetID");
      if last.Some? && !last.value.Null? {
        var id := Reference(last.value);
        if id.None? {
          return None;
        }
        r := Some(r.value + {id.value});
      }
  }

  // The package.

  const MAX_MANIFEST_BYTES := 256 * 1024
  const MAX_IMAGE_BYTES := 2 * 1024 * 1024
  const MAX_SNAPSHOT_BYTES := 10 * 1024 * 1024
  const MAX_ASSETS := 32

  const PNG_MAGIC: seq<int> := [137, 80, 78, 71, 13, 10, 26, 10]

  datatype Image = Image(id: string, data: seq<int>)

  /** `document` is the parsed manifest, None when it is not UTF-8 JSON. The ids of
      `assets` are distinct: they come from a dictionary. */
  datatype Package = Package(manifest: seq<int>, document: Option<Json>, preview: seq<int>, assets: seq<Image>)

  predicate IsPng(data: seq<int>) { PNG_MAGIC <= data }

  predicate ImageOk(x: Image) { AssetId(x.id) && 0 < |x.data| <= MAX_IMAGE_BYTES && IsPng(x.data) }

  function Size(images: seq<Image>): nat {
    if images == [] then 0 else Size(images[..|images| - 1]) + |images[|images| - 1].data|
  }

  function Ids(images: seq<Image>): set<string> { set x | x in images :: x.id }

  /** What makes a package acceptable, all conditions side by side. */
  ghost predicate Acceptable(t: ContentType, p: Package) {
    && 0 < |p.manifest| <= MAX_MANIFEST_BYTES
    && 0 < |p.preview| <= MAX_IMAGE_BYTES && IsPng(p.preview)
    && |p.assets| <= MAX_ASSETS && (forall x :: x in p.assets ==> ImageOk(x))
    && p.document.Some? && p.document.value.Obj?
    && (forall path :: Leads(p.document.value, path) ==> PlaceOk(p.document.value, None, 0, path))
    && ReferencesOk(t, p.document.value) && Referenced(t, p.document.value) == Ids(p.assets)
    && |p.manifest| + |p.preview| + Size(p.assets) <= MAX_SNAPSHOT_BYTES
  }

  /** `checked_package`: the checks in their order. */
  method CheckedPackage(t: ContentType, p: Package) returns (ok: bool)
    ensures ok <==> Acceptable(t, p)
  {
    if |p.manifest| == 0 || |p.manifest| > MAX_MANIFEST_BYTES {
      return false;
    }
    if |p.preview| == 0 || |p.preview| > MAX_IMAGE_BYTES {
      return false;
    }
    if |p.assets| > MAX_ASSETS {
      return false;
    }
    if p.document.None? || !p.document.value.Obj? {
      return false;
    }
    WalkIsExact(p.document.value);
    if !Passes(p.document.value, None, 0) {
      return false;
    }
    var referenced := ReferencedAssetIds(t, p.document.value);
    if referenced.None? {
      return false;
    }
    if !IsPng(p.preview) {
      return false;
    }
    var valid, ids, size := CheckedImages(p.assets);
    if !valid {
      return false;
    }
    if referenced.value != ids {
      return false;
    }
    ok := |p.manifest| + |p.preview| + size <= MAX_SNAPSHOT_BYTES;
  }

  method CheckedImages(images: seq<Image>) returns (ok: bool, ids: set<string>, size: nat)
    ensures ok <==> forall x :: x in images ==> ImageOk(x)
    ensures ok ==> ids == Ids(images) && size == Size(images)
  {
    size, ids := 0, {};
    for i := 0 to |images|
      invariant forall j :: 0 <= j < i ==> ImageOk(images[j])
      invariant size == Size(images[..i]) && ids == Ids(images[..i])
    {
      var x := images[i];
      if !AssetId(x.id) || |x.data| == 0 || |x.data| > MAX_IMAGE_BYTES || !IsPng(x.data) {
        assert x in images && !ImageOk(x);
        return false, ids, size;
      }
      assert images[..i + 1][..i] == images[..i];
      size := size + |x.data|;
      ids := ids + {x.id};
    }
    assert images[..|images|] == images;
    ok := true;
  }

  /** Nothing can be accepted both as a mirror and as a sticker. */
  lemma AcceptedUnderOneType(p: Package)
    ensures !(Acceptable(Mirror, p) && Acceptable(Sticker, p))
  {
    if p.document.Some? && p.document.value.Obj? {
      ShapesAreExclusive(p.document.value);
    }
  }

  /** Every stored asset of an accepted package is one that its manifest shows, and
      every asset it shows is there: nothing is missing and nothing smuggled in. */
  lemma AcceptedAssetsAreUsed(t: ContentType, p: Package, id: string)
    requires Acceptable(t, p)
    ensures id in Referenced(t, p.document.value) <==> exists x :: x in p.assets && x.id == id
    ensures id in Referenced(t, p.document.value) ==> AssetId(id)
  {
    assert id in Ids(p.assets) <==> exists x :: x in p.assets && x.id == id;
  }

  // A package with the other form of id.

  /** Every forbidden reference has one of these characters. */
  predicate Telling(c: char) { c == '/' || c == '\\' || c == ':' || c == '<' }

  lemma PlainTextIsFine(s: string, key: Option<string>)
    requires forall i :: 0 <= i < |s| ==> !Telling(s[i])
    ensures Fine(s, key)
  {
    forall k, i | 0 <= k < |FORBIDDEN| && 0 <= i <= |Lower(s)| ensures !OccursAt(Lower(s), FORBIDDEN[k], i) {
      var j := TellingPlace(k);
      TellsApart(s, FORBIDDEN[k], i, j);
    }
  }

  lemma TellsApart(s: string, t: string, i: nat, j: nat)
    requires (forall k :: 0 <= k < |s| ==> !Telling(s[k])) && j < |t| && Telling(t[j])
    ensures !OccursAt(Lower(s), t, i)
  {
    if i + |t| <= |s| {
      assert Lower(s)[i..i + |t|][j] == LowerChar(s[i + j]);
    }
  }

  lemma TellingPlace(k: nat) returns (j: nat)
    requires k < |FORBIDDEN|
    ensures j < |FORBIDDEN[k]| && Telling(FORBIDDEN[k][j])
  {
    j := [2, 2, 4, 4, 5, 10, 4, 0, 0, 0][k];
  }

  /** No asset id is mistaken for a forbidden reference. */
  lemma AssetIdsAreFine(id: string, key: Option<string>)
    requires AssetId(id)
    ensures Fine(id, key)
  {
    AssetIdIsAlmostUuid(id);
    PlainTextIsFine(id, key);
  }

  /** A small mirror that shows one artwork. */
  function Artwork(id: string): Json { Obj([Field("assetID", Str(id))]) }

  function SmallMirror(id: string): Json {
    Obj([Field("id", Str("m")), Field("name", Str("m")), Field("style", Obj([])),
         Field("importedArtworks", Arr([Artwork(id)]))])
  }

  lemma ArtworkPasses(id: string, key: Option<string>)
    requires AssetId(id)
    ensures Passes(Artwork(id), key, 2)
  {
    PlainTextIsFine("assetID", None);
    AssetIdsAreFine(id, Some("assetID"));
    assert FieldPasses(Field("assetID", Str(id)), 3);
  }

  lemma SmallMirrorPasses(id: string)
    requires AssetId(id)
    ensures Passes(SmallMirror(id), None, 0)
  {
    var fields := SmallMirror(id).fields;
    PlainTextIsFine("id", None);
    PlainTextIsFine("m", Some("id"));
    PlainTextIsFine("name", None);
    PlainTextIsFine("m", Some("name"));
    PlainTextIsFine("style", None);
    PlainTextIsFine("importedArtworks", None);
    ArtworkPasses(id, Some("importedArtworks"));
    assert FieldPasses(fields[0], 1) && FieldPasses(fields[1], 1) && FieldPasses(fields[2], 1);
    assert FieldPasses(fields[3], 1);
  }

  lemma SmallMirrorRefers(id: string)
    requires AssetId(id)
    ensures ReferencesOk(Mirror, SmallMirror(id)) && Referenced(Mirror, SmallMirror(id)) == {id}
  {
    var v := SmallMirror(id);
    FindLast(v.fields, "importedArtworks");
    FindLast(v.fields, "style");
    FindLast(v.fields, "stickers");
    FindLast(v.fields, "design");
    FindLast(v.fields, "name");
    assert ArtworkMention(Artwork(id)) == Asset(id);
    assert Mentions(v).value == [Asset(id)];
    assert Mentions(v).value[0].Asset? && Mentions(v).value[0].id == id;
  }

  /** Looking a name up among four fields. */
  lemma FindLast(fields: seq<Field>, name: string)
    requires |fields| == 4
    ensures Find(fields, name)
         == if fields[0].name == name then Some(fields[0].value)
            else if fields[1].name == name then Some(fields[1].value)
            else if fields[2].name == name then Some(fields[2].value)
            else if fields[3].name == name then Some(fields[3].value)
            else None
  {
    var a := fields[1..];
    var b := a[1..];
    var c := b[1..];
    assert a[0] == fields[1] && b[0] == fields[2] && c[0] == fields[3] && c[1..] == [];
    assert Find(c, name) == if c[0].name == name then Some(c[0].value) else Find([], name);
    assert Find(b, name) == if b[0].name == name then Some(b[0].value) else Find(c, name);
    assert Find(a, name) == if a[0].name == name then Some(a[0].value) else Find(b, name);
  }

  /** So a package whose asset ids are no UUIDs is accepted, whatever the UUID. */
  lemma NonUuidIsAccepted(u: string) returns (p: Package)
    requires Uuid(u)
    ensures Acceptable(Mirror, p) && Referenced(Mirror, p.document.value) == {u + "\n"} && !Uuid(u + "\n")
  {
    var id := u + "\n";
    NewlineIsAccepted(u);
    SmallMirrorPasses(id);
    WalkIsExact(SmallMirror(id));
    SmallMirrorRefers(id);
    p := Package([0], Some(SmallMirror(id)), PNG_MAGIC, [Image(id, PNG_MAGIC)]);
    assert Ids(p.assets) == {id} by {
      assert p.assets[0] in p.assets && p.assets[0].id == id;
    }
    assert p.assets[..0] == [] && Size(p.assets) == 8;
  }
}
