/** What the package check means, told by the document alone: which asset ids it
    shows, which texts it may hold, and which images must come with it. */
module PackageMeaning {
  import opened Wrappers
  import opened PackageCheck

  // The fields of an object.

  /** The object has this value under this name. */
  ghost predicate Says(v: Json, name: string, x: Json) {
    v.Obj? && exists i :: FirstNamed(v.fields, name, i) && v.fields[i].value == x
  }

  predicate FirstNamed(fields: seq<Field>, name: string, i: int) {
    0 <= i < |fields| && fields[i].name == name && forall j :: 0 <= j < i ==> fields[j].name != name
  }

  ghost predicate Silent(v: Json, name: string)
    requires v.Obj?
  {
    forall i :: 0 <= i < |v.fields| ==> v.fields[i].name != name
  }

  lemma {:induction false} FindIsFirst(fields: seq<Field>, name: string, x: Json)
    ensures Find(fields, name) == Some(x) <==> exists i :: FirstNamed(fields, name, i) && fields[i].value == x
    ensures Find(fields, name) == None <==> forall i :: 0 <= i < |fields| ==> fields[i].name != name
  {
    if fields != [] {
      var rest := fields[1..];
      FindIsFirst(rest, name, x);
      assert forall i :: 0 < i < |fields| ==> fields[i] == rest[i - 1];
      assert forall i :: 0 <= i < |rest| ==> rest[i] == fields[i + 1];
      if fields[0].name == name {
        assert FirstNamed(fields, name, 0);
        assert forall i :: FirstNamed(fields, name, i) ==> i == 0;
      } else {
        forall i | FirstNamed(rest, name, i) ensures FirstNamed(fields, name, i + 1) {}
        forall i | FirstNamed(fields, name, i) ensures i > 0 && FirstNamed(rest, name, i - 1) {}
        if i :| FirstNamed(rest, name, i) && rest[i].value == x {
          assert FirstNamed(fields, name, i + 1);
        }
      }
    }
  }

  lemma GetIsSaid(v: Json, name: string, x: Json)
    requires v.Obj?
    ensures Get(v, name) == Some(x) <==> Says(v, name, x)
    ensures Get(v, name) == None <==> Silent(v, name)
  {
    FindIsFirst(v.fields, name, x);
  }

  // What a design shows.

  /** The value stands in the list of this name. */
  ghost predicate Lists(v: Json, name: string, item: Json) {
    exists items :: Says(v, name, Arr(items)) && item in items
  }

  /** The object names this asset. */
  ghost predicate Names(v: Json, id: string) { Says(v, "assetID", Str(id)) }

  /** A sticker whose source is a photo with this asset id. */
  ghost predicate IsPhotoOf(sticker: Json, id: string) {
    exists source :: Says(sticker, "source", source) && Says(source, "kind", Str("photo")) && Names(source, id)
  }

  /** A sticker needs an object as its source. If that is a photo it needs an asset
      id; a sticker of any other kind, or of none, needs no asset id. */
  ghost predicate StickerOk(sticker: Json) {
    exists source :: Says(sticker, "source", source) && source.Obj?
                     && (Says(source, "kind", Str("photo")) ==> exists id :: Names(source, id) && AssetId(id))
  }

  ghost predicate ArtworkOk(artwork: Json) { exists id :: Names(artwork, id) && AssetId(id) }

  /** Missing means empty; anything but a list is an error. */
  ghost predicate ListOk(v: Json, name: string)
    requires v.Obj?
  {
    Silent(v, name) || exists items :: Says(v, name, Arr(items))
  }

  lemma AssetMentionMeans(v: Json, id: string)
    requires v.Obj?
    ensures AssetMention(v) == Asset(id) <==> Names(v, id) && AssetId(id)
    ensures AssetMention(v) == Broken <==> !ArtworkOk(v)
  {
    GetIsSaid(v, "assetID", Str(id));
    forall x ensures Get(v, "assetID") == Some(x) <==> Says(v, "assetID", x) { GetIsSaid(v, "assetID", x); }
    if ArtworkOk(v) {
      var y :| Names(v, y) && AssetId(y);
      assert Get(v, "assetID") == Some(Str(y));
    } else if AssetMention(v).Asset? {
      assert Names(v, AssetMention(v).id);
    }
  }

  lemma StickerMentionMeans(v: Json, id: string)
    ensures StickerMention(v) == Asset(id) <==> IsPhotoOf(v, id) && AssetId(id)
    ensures StickerMention(v) == Broken <==> !StickerOk(v)
  {
    if v.Obj? {
      forall x ensures Get(v, "source") == Some(x) <==> Says(v, "source", x) { GetIsSaid(v, "source", x); }
      if HasObject(v, "source") {
        var source := Get(v, "source").value;
        GetIsSaid(source, "kind", Str("photo"));
        AssetMentionMeans(source, id);
        assert Says(v, "source", source);
      }
    }
  }

  lemma ListMeans(v: Json, name: string)
    requires v.Obj?
    ensures List(v, name).Some? <==> ListOk(v, name)
    ensures List(v, name).Some? ==> forall x :: x in List(v, name).value <==> Lists(v, name, x)
  {
    forall x ensures Get(v, name) == Some(x) <==> Says(v, name, x) { GetIsSaid(v, name, x); }
    GetIsSaid(v, name, Null);
    if List(v, name).Some? && Get(v, name).Some? {
      assert Says(v, name, Arr(List(v, name).value));
    }
  }

  /** When a design is in order: two lists, and every item of them in order. */
  lemma DesignOkMeans(design: Json)
    requires design.Obj?
    ensures DesignOk(design) <==>
              && ListOk(design, "stickers") && ListOk(design, "importedArtworks")
              && (forall x :: Lists(design, "stickers", x) ==> StickerOk(x))
              && (forall x :: Lists(design, "importedArtworks", x) ==> ArtworkOk(x))
  {
    ListMeans(design, "stickers");
    ListMeans(design, "importedArtworks");
    if Mentions(design).Some? {
      NoneBroken(design);
      forall x ensures StickerMention(x) == Broken <==> !StickerOk(x) { StickerMentionMeans(x, ""); }
      forall x ensures ArtworkMention(x) == Broken <==> !ArtworkOk(x) { ArtworkBroken(x); }
    }
  }

  lemma NoneBroken(design: Json)
    requires design.Obj? && Mentions(design).Some?
    ensures DesignOk(design) <==>
              && (forall x :: x in List(design, "stickers").value ==> StickerMention(x) != Broken)
              && (forall x :: x in List(design, "importedArtworks").value ==> ArtworkMention(x) != Broken)
  {
    var stickers, artworks := List(design, "stickers").value, List(design, "importedArtworks").value;
    var ms := Mentions(design).value;
    assert forall i :: 0 <= i < |stickers| ==> ms[i] == StickerMention(stickers[i]);
    assert forall i :: 0 <= i < |artworks| ==> ms[|stickers| + i] == ArtworkMention(artworks[i]);
    assert forall i :: |stickers| <= i < |ms| ==> ms[i] == ArtworkMention(artworks[i - |stickers|]);
  }

  lemma ArtworkBroken(v: Json)
    ensures ArtworkMention(v) == Broken <==> !ArtworkOk(v)
  {
    if v.Obj? { AssetMentionMeans(v, ""); }
  }

  /** Which asset ids a design refers to. */
  lemma AssetsAreShown(design: Json, id: string)
    requires design.Obj? && DesignOk(design)
    ensures id in AssetsOf(design) <==>
              || (exists x :: Lists(design, "stickers", x) && IsPhotoOf(x, id))
              || (exists x :: Lists(design, "importedArtworks", x) && Names(x, id))
  {
    if id in AssetsOf(design) {
      ShownFrom(design, id);
    }
    if x :| Lists(design, "stickers", x) && IsPhotoOf(x, id) {
      PhotoIsShown(design, x, id);
    }
    if x :| Lists(design, "importedArtworks", x) && Names(x, id) {
      ArtworkIsShown(design, x, id);
    }
  }

  lemma ShownFrom(design: Json, id: string)
    requires design.Obj? && DesignOk(design) && id in AssetsOf(design)
    ensures || (exists x :: Lists(design, "stickers", x) && IsPhotoOf(x, id))
            || (exists x :: Lists(design, "importedArtworks", x) && Names(x, id))
  {
    ListMeans(design, "stickers");
    ListMeans(design, "importedArtworks");
    var stickers, artworks := List(design, "stickers").value, List(design, "importedArtworks").value;
    var n, ms := |stickers|, Mentions(design).value;
    var i :| 0 <= i < |ms| && ms[i].Asset? && ms[i].id == id;
    if i < n {
      StickerMentionMeans(stickers[i], id);
      assert stickers[i] in stickers;
    } else {
      AssetMentionMeans(artworks[i - n], id);
      assert artworks[i - n] in artworks;
    }
  }

  lemma PhotoIsShown(design: Json, x: Json, id: string)
    requires design.Obj? && DesignOk(design) && Lists(design, "stickers", x) && IsPhotoOf(x, id)
    ensures id in AssetsOf(design)
  {
    DesignOkMeans(design);
    ListMeans(design, "stickers");
    var stickers := List(design, "stickers").value;
    var i :| 0 <= i < |stickers| && stickers[i] == x;
    PhotoNamesItsAsset(x, id);
    StickerMentionMeans(x, id);
    assert Mentions(design).value[i] == Asset(id);
  }

  lemma ArtworkIsShown(design: Json, x: Json, id: string)
    requires design.Obj? && DesignOk(design) && Lists(design, "importedArtworks", x) && Names(x, id)
    ensures id in AssetsOf(design)
  {
    DesignOkMeans(design);
    ListMeans(design, "importedArtworks");
    var artworks := List(design, "importedArtworks").value;
    var i :| 0 <= i < |artworks| && artworks[i] == x;
    NameIsOne(x, id);
    AssetMentionMeans(x, id);
    assert Mentions(design).value[|List(design, "stickers").value| + i] == Asset(id);
  }

  lemma NameIsOne(v: Json, id: string)
    requires ArtworkOk(v) && Names(v, id)
    ensures AssetId(id)
  {
    var y :| Names(v, y) && AssetId(y);
    GetIsSaid(v, "assetID", Str(y));
    GetIsSaid(v, "assetID", Str(id));
  }

  lemma PhotoNamesItsAsset(sticker: Json, id: string)
    requires StickerOk(sticker) && IsPhotoOf(sticker, id)
    ensures AssetId(id)
  {
    var a :| Says(sticker, "source", a) && Says(a, "kind", Str("photo")) && Names(a, id);
    var b :| Says(sticker, "source", b) && b.Obj?
             && (Says(b, "kind", Str("photo")) ==> exists y :: Names(b, y) && AssetId(y));
    GetIsSaid(sticker, "source", a);
    GetIsSaid(sticker, "source", b);
    NameIsOne(a, id);
  }

  // Whole documents.

  /** The design of a mirror is the mirror itself; a sticker holds one. */
  ghost predicate HasDesign(t: ContentType, v: Json, design: Json) {
    match t
    case Mirror => design == v
    case Sticker => Says(v, "design", design)
  }

  ghost predicate Shape(t: ContentType, v: Json)
    requires v.Obj?
  {
    && (exists s :: Says(v, "id", Str(s))) && (exists s :: Says(v, "name", Str(s)))
    && match t
       case Mirror => Silent(v, "design") && exists x :: Says(v, "style", x) && x.Obj?
       case Sticker => exists d, x :: Says(v, "design", d) && d.Obj? && Says(d, "style", x) && x.Obj?
  }

  lemma ShapeMeans(t: ContentType, v: Json)
    requires v.Obj?
    ensures Shape(t, v) <==> match t case Mirror => MirrorShape(v) case Sticker => StickerShape(v)
  {
    TextMeans(v, "id");
    TextMeans(v, "name");
    GetIsSaid(v, "design", Null);
    ObjectMeans(v, "design");
    match t
    case Mirror => ObjectMeans(v, "style");
    case Sticker =>
      if HasObject(v, "design") { ObjectMeans(Get(v, "design").value, "style"); }
  }

  lemma TextMeans(v: Json, name: string)
    requires v.Obj?
    ensures HasString(v, name) <==> exists s :: Says(v, name, Str(s))
  {
    forall x ensures Get(v, name) == Some(x) <==> Says(v, name, x) { GetIsSaid(v, name, x); }
    if HasString(v, name) { assert Says(v, name, Str(Get(v, name).value.s)); }
  }

  lemma ObjectMeans(v: Json, name: string)
    requires v.Obj?
    ensures HasObject(v, name) <==> exists x :: Says(v, name, x) && x.Obj?
    ensures forall x :: Says(v, name, x) <==> Get(v, name) == Some(x)
  {
    forall x ensures Get(v, name) == Some(x) <==> Says(v, name, x) { GetIsSaid(v, name, x); }
  }

  /** Which documents are in order, for each label. */
  lemma ReferencesOkMeans(t: ContentType, v: Json)
    requires v.Obj?
    ensures ReferencesOk(t, v) <==>
              && Shape(t, v)
              && (exists d :: HasDesign(t, v, d) && d.Obj? && DesignOk(d))
              && (t == Sticker ==> forall x :: Says(v, "finalAssetID", x) ==>
                                     x == Null || (x.Str? && AssetId(x.s)))
  {
    ShapeMeans(t, v);
    ObjectMeans(v, "design");
    ObjectMeans(v, "finalAssetID");
  }

  /** Which asset ids a document refers to: those of photo stickers, those of
      artworks, and the finished picture of a sticker. Nothing else counts. */
  lemma ReferencedMeans(t: ContentType, v: Json, id: string)
    requires v.Obj? && ReferencesOk(t, v)
    ensures id in Referenced(t, v) <==>
              || (exists d, x :: HasDesign(t, v, d) && Lists(d, "stickers", x) && IsPhotoOf(x, id))
              || (exists d, x :: HasDesign(t, v, d) && Lists(d, "importedArtworks", x) && Names(x, id))
              || (t == Sticker && Says(v, "finalAssetID", Str(id)))
  {
    ObjectMeans(v, "design");
    ObjectMeans(v, "finalAssetID");
    match t
    case Mirror => AssetsAreShown(v, id);
    case Sticker => AssetsAreShown(Get(v, "design").value, id);
  }

  // Images.

  /** The ids of a package's images are the keys of a dictionary. */
  ghost predicate Distinct(images: seq<Image>) {
    forall i, j :: 0 <= i < j < |images| ==> images[i].id != images[j].id
  }

  /** Of an accepted package no image can be left out, and no other can be added. */
  lemma ImagesAreExact(t: ContentType, p: Package, k: nat, more: Image)
    requires Acceptable(t, p) && Distinct(p.assets)
    ensures k < |p.assets| ==> !Acceptable(t, p.(assets := p.assets[..k] + p.assets[k + 1..]))
    ensures (forall x :: x in p.assets ==> x.id != more.id) ==> !Acceptable(t, p.(assets := p.assets + [more]))
  {
    if k < |p.assets| {
      var fewer := p.assets[..k] + p.assets[k + 1..];
      assert p.assets[k] in p.assets;
      assert p.assets[k].id in Ids(p.assets) && p.assets[k].id !in Ids(fewer);
    }
    if forall x :: x in p.assets ==> x.id != more.id {
      assert more in p.assets + [more];
      assert more.id in Ids(p.assets + [more]) && more.id !in Ids(p.assets);
    }
  }

  /** A mirror with one sticker, whose source is of this kind. */
  function MirrorWith(kind: string, id: string): Json {
    Obj([Field("id", Str("m")), Field("name", Str("m")), Field("style", Obj([])),
         Field("stickers", Arr([StickerWith(kind, id)]))])
  }

  function StickerWith(kind: string, id: string): Json { Obj([Field("source", SourceOf(kind, id))]) }

  function SourceOf(kind: string, id: string): Json { Obj([Field("kind", Str(kind)), Field("assetID", Str(id))]) }

  predicate Plain(s: string) { forall i :: 0 <= i < |s| ==> !Telling(s[i]) }

  lemma UuidIsAssetId(u: string)
    requires Uuid(u)
    ensures AssetId(u) && Plain(u)
  {
    assert forall i :: 0 <= i < 36 ==> u[i] == '-' || Hex(u[i]);
  }

  lemma SourcePasses(kind: string, id: string)
    requires Plain(kind) && Plain(id)
    ensures Passes(SourceOf(kind, id), Some("source"), 3)
  {
    PlainTextIsFine("kind", None);
    PlainTextIsFine(kind, Some("kind"));
    PlainTextIsFine("assetID", None);
    PlainTextIsFine(id, Some("assetID"));
    assert FieldPasses(SourceOf(kind, id).fields[0], 4) && FieldPasses(SourceOf(kind, id).fields[1], 4);
  }

  lemma MirrorPasses(kind: string, id: string)
    requires Plain(kind) && Plain(id)
    ensures Passes(MirrorWith(kind, id), None, 0)
  {
    var fields := MirrorWith(kind, id).fields;
    PlainTextIsFine("id", None);
    PlainTextIsFine("m", Some("id"));
    PlainTextIsFine("name", None);
    PlainTextIsFine("m", Some("name"));
    PlainTextIsFine("style", None);
    PlainTextIsFine("stickers", None);
    PlainTextIsFine("source", None);
    SourcePasses(kind, id);
    assert FieldPasses(Field("source", SourceOf(kind, id)), 3);
    assert Passes(StickerWith(kind, id), Some("stickers"), 2);
    assert FieldPasses(fields[0], 1) && FieldPasses(fields[1], 1) && FieldPasses(fields[2], 1);
    assert FieldPasses(fields[3], 1);
  }

  lemma MirrorRefers(kind: string, id: string)
    requires kind == "photo" ==> AssetId(id)
    ensures ReferencesOk(Mirror, MirrorWith(kind, id))
    ensures Referenced(Mirror, MirrorWith(kind, id)) == if kind == "photo" then {id} else {}
  {
    var v := MirrorWith(kind, id);
    FindLast(v.fields, "importedArtworks");
    FindLast(v.fields, "style");
    FindLast(v.fields, "stickers");
    FindLast(v.fields, "design");
    FindLast(v.fields, "name");
    var source := SourceOf(kind, id);
    assert source.fields[1..][0] == Field("assetID", Str(id));
    assert Get(source, "kind") == Some(Str(kind));
    assert Get(source, "assetID") == Find(source.fields[1..], "assetID") == Some(Str(id));
    assert AssetMention(source) == if AssetId(id) then Asset(id) else Broken;
    var mention := StickerMention(StickerWith(kind, id));
    assert mention == if kind == "photo" then Asset(id) else Nothing;
    assert Mentions(v).value == [mention];
    assert Mentions(v).value[0] == mention;
  }

  function PackageWith(kind: string, id: string, images: seq<Image>): Package {
    Package([0], Some(MirrorWith(kind, id)), PNG_MAGIC, images)
  }

  /** A mirror with one sticker. For every UUID: if the sticker is a photo the image is
      needed; if it is of any other kind the image must not be there. */
  lemma OneStickerPackage(kind: string, u: string)
    requires Uuid(u) && Plain(kind)
    ensures Acceptable(Mirror, PackageWith(kind, u, [Image(u, PNG_MAGIC)])) <==> kind == "photo"
    ensures Acceptable(Mirror, PackageWith(kind, u, [])) <==> kind != "photo"
  {
    UuidIsAssetId(u);
    MirrorPasses(kind, u);
    WalkIsExact(MirrorWith(kind, u));
    MirrorRefers(kind, u);
    var images := [Image(u, PNG_MAGIC)];
    assert images[0] in images && Ids(images) == {u} && Ids([]) == {};
    assert images[..0] == [] && Size(images) == 8;
  }

  /** Which sizes an accepted package has, and that a mirror without images may have
      any of them: a manifest of 1 byte to 256 KiB, a PNG preview of up to 2 MiB. */
  lemma SizesAreExact(t: ContentType, p: Package, u: string, manifest: seq<int>, preview: seq<int>)
    requires Uuid(u)
    ensures Acceptable(t, p) ==>
              && 1 <= |p.manifest| <= 262_144 && 8 <= |p.preview| <= 2_097_152
              && |p.assets| <= 32 && (forall x :: x in p.assets ==> 8 <= |x.data| <= 2_097_152)
              && |p.manifest| + |p.preview| + Size(p.assets) <= 10_485_760
    ensures Acceptable(Mirror, Package(manifest, Some(MirrorWith("builtIn", u)), preview, [])) <==>
              && 1 <= |manifest| <= 262_144 && |preview| <= 2_097_152
              && |preview| >= 8 && preview[..8] == [137, 80, 78, 71, 13, 10, 26, 10]
  {
    UuidIsAssetId(u);
    MirrorPasses("builtIn", u);
    WalkIsExact(MirrorWith("builtIn", u));
    MirrorRefers("builtIn", u);
    assert Ids([]) == {};
  }

  // Ids, texts and depth.

  predicate AllHex(s: string, n: nat) { |s| == n && forall i :: 0 <= i < n ==> Hex(s[i]) }

  /** A UUID is five groups of 8, 4, 4, 4 and 12 hexadecimal digits. */
  lemma UuidIsFiveGroups(s: string)
    ensures Uuid(s) <==>
              exists a, b, c, d, e ::
                && AllHex(a, 8) && AllHex(b, 4) && AllHex(c, 4) && AllHex(d, 4) && AllHex(e, 12)
                && s == a + "-" + b + "-" + c + "-" + d + "-" + e
  {
    if Uuid(s) {
      var a, b, c, d, e := s[..8], s[9..13], s[14..18], s[19..23], s[24..];
      assert AllHex(a, 8) && AllHex(b, 4) && AllHex(c, 4) && AllHex(d, 4) && AllHex(e, 12);
      assert s == a + "-" + b + "-" + c + "-" + d + "-" + e;
    }
  }

  /** This text reads like the reference, in upper or lower case. */
  predicate Reads(text: string, reference: string) {
    |text| == |reference| &&
    forall i :: 0 <= i < |text| ==>
      text[i] == reference[i] || ('A' <= text[i] <= 'Z' && text[i] as int + 32 == reference[i] as int)
  }

  /** A text anywhere but under "name" and "text" is fine exactly when no part of it
      reads like a forbidden reference. */
  lemma FineMeans(s: string, key: Option<string>)
    ensures Fine(s, key) <==>
              || key == Some("name") || key == Some("text")
              || forall k, i, j :: 0 <= k < |FORBIDDEN| && 0 <= i <= j <= |s| ==> !Reads(s[i..j], FORBIDDEN[k])
  {
    if Forbidden(s) {
      var k :| 0 <= k < |FORBIDDEN| && Contains(Lower(s), FORBIDDEN[k]);
      var i :| 0 <= i <= |Lower(s)| && OccursAt(Lower(s), FORBIDDEN[k], i);
      ReadsIsLower(s, FORBIDDEN[k], i);
      assert Reads(s[i..i + |FORBIDDEN[k]|], FORBIDDEN[k]);
    }
    if k, i, j :| 0 <= k < |FORBIDDEN| && 0 <= i <= j <= |s| && Reads(s[i..j], FORBIDDEN[k]) {
      ReadsIsLower(s, FORBIDDEN[k], i);
      assert OccursAt(Lower(s), FORBIDDEN[k], i);
    }
  }

  lemma ReadsIsLower(s: string, t: string, i: nat)
    requires forall j :: 0 <= j < |t| ==> !('A' <= t[j] <= 'Z')
    ensures OccursAt(Lower(s), t, i) <==> i + |t| <= |s| && Reads(s[i..i + |t|], t)
  {
    if i + |t| <= |s| {
      var part := s[i..i + |t|];
      assert forall j :: 0 <= j < |t| ==> Lower(s)[i..i + |t|][j] == LowerChar(part[j]);
    }
  }

  /** Lists within lists. */
  function Nested(n: nat): Json { if n == 0 then Null else Arr([Nested(n - 1)]) }

  lemma {:induction false} DepthIsBounded(n: nat, depth: nat, key: Option<string>)
    ensures Passes(Nested(n), key, depth) <==> n + depth <= 32
  {
    if n > 0 {
      DepthIsBounded(n - 1, depth + 1, key);
      assert Nested(n).items[0] == Nested(n - 1);
    }
  }

  /** Prose stays prose in a list, and nowhere else. */
  lemma ProseMeans(s: string, name: string)
    requires Plain(name)
    ensures Passes(Obj([Field(name, Arr([Str(s)]))]), None, 0) <==>
              name == "name" || name == "text" || Fine(s, None)
  {
    PlainTextIsFine(name, None);
    var f := Field(name, Arr([Str(s)]));
    assert f.value.items[0] == Str(s);
    assert Passes(f.value, Some(name), 1) <==> Fine(s, Some(name));
    assert FieldPasses(f, 1) <==> Fine(s, Some(name));
    assert Obj([f]).fields[0] == f;
  }
}
