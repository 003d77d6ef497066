/** Uploading a snapshot (app/marketplace/service.py, create_snapshot, over the
    create-only storage of app/marketplace/assets.py): objects first, document
    last, clean-up on failure; any number of uploads interleave, fail or stop. */
module SnapshotAssets {

  type Content = string

  datatype Key =
    | ManifestKey(snapshot: string) | PreviewKey(snapshot: string) | AssetKey(snapshot: string, asset: string)

  /** A checked package: `assets` are exactly the images its manifest refers to. */
  datatype Package = Package(manifest: Content, preview: Content, assets: map<string, Content>)

  datatype Document = Document(seller: string, checksum: Content, assetCount: nat)

  /** The document of a package. The checksum is taken to be collision free. */
  function Described(seller: string, p: Package): Document { Document(seller, p.manifest, |p.assets|) }

  /** The objects a complete snapshot consists of, and nothing else. */
  function Objects(id: string, p: Package): map<Key, Content> {
    map[ManifestKey(id) := p.manifest, PreviewKey(id) := p.preview]
    + (map k | k in AssetKeys(id, p.assets.Keys) :: p.assets[k.asset])
  }

  function AssetKeys(id: string, assets: set<string>): set<Key>
    ensures forall k :: k in AssetKeys(id, assets) ==> k.AssetKey? && k.asset in assets && k.snapshot == id
  {
    set a | a in assets :: AssetKey(id, a)
  }

  datatype Upload = Upload(key: Key, data: Content)

  /** The uploads in their order; `order` lists the asset ids. */
  function Uploads(id: string, p: Package, order: seq<string>): seq<Upload>
    requires forall a :: a in order ==> a in p.assets
  {
    [Upload(ManifestKey(id), p.manifest), Upload(PreviewKey(id), p.preview)]
    + seq(|order|, i requires 0 <= i < |order| => Upload(AssetKey(id, order[i]), p.assets[order[i]]))
  }

  /** `order` lists every asset id once. */
  predicate Enumerates(order: seq<string>, assets: set<string>) {
    && (forall a :: a in order ==> a in assets) && (forall a :: a in assets ==> a in order)
    && (forall i, j :: 0 <= i < j < |order| ==> order[i] != order[j])
  }

  /** The objects after the first `k` uploads. */
  function Uploaded(us: seq<Upload>, k: nat): map<Key, Content>
    requires k <= |us|
  {
    if k == 0 then map[] else Uploaded(us, k - 1)[us[k - 1].key := us[k - 1].data]
  }

  lemma {:induction false} UploadedHas(us: seq<Upload>, k: nat, key: Key)
    requires k <= |us| && forall i, j :: 0 <= i < j < |us| ==> us[i].key != us[j].key
    ensures key in Uploaded(us, k) <==> exists i :: 0 <= i < k && us[i].key == key
    ensures forall i :: 0 <= i < k ==> us[i].key in Uploaded(us, k) && Uploaded(us, k)[us[i].key] == us[i].data
  {
    if k > 0 {
      UploadedHas(us, k - 1, key);
    }
  }

  lemma UploadsAreDistinct(id: string, p: Package, order: seq<string>)
    requires Enumerates(order, p.assets.Keys)
    ensures var us := Uploads(id, p, order); forall i, j :: 0 <= i < j < |us| ==> us[i].key != us[j].key
  {
  }

  /** All uploads together are exactly the objects of the snapshot. */
  lemma AllUploaded(id: string, p: Package, order: seq<string>)
    requires Enumerates(order, p.assets.Keys)
    ensures var us := Uploads(id, p, order); Uploaded(us, |us|) == Objects(id, p)
  {
    var us := Uploads(id, p, order);
    UploadsAreDistinct(id, p, order);
    forall key: Key ensures key in Uploaded(us, |us|) <==> key in Objects(id, p) {
      UploadedHas(us, |us|, key);
      UploadKeys(id, p, order, key);
    }
    forall key: Key | key in Objects(id, p) ensures Uploaded(us, |us|)[key] == Objects(id, p)[key] {
      UploadedHas(us, |us|, key);
      UploadKeys(id, p, order, key);
      var i :| 0 <= i < |us| && us[i].key == key;
    }
  }

  lemma UploadIsObject(id: string, p: Package, order: seq<string>, i: nat)
    requires Enumerates(order, p.assets.Keys) && i < |Uploads(id, p, order)|
    ensures var u := Uploads(id, p, order)[i];
            u.key.snapshot == id && u.key in Objects(id, p) && u.data == Objects(id, p)[u.key]
  {
    if i >= 2 {
      assert Uploads(id, p, order)[i].key == AssetKey(id, order[i - 2]) && order[i - 2] in p.assets;
    }
  }

  lemma UploadKeys(id: string, p: Package, order: seq<string>, key: Key)
    requires Enumerates(order, p.assets.Keys)
    ensures var us := Uploads(id, p, order); (exists i :: 0 <= i < |us| && us[i].key == key) <==> key in Objects(id, p)
    ensures forall i :: 0 <= i < |Uploads(id, p, order)| ==>
              var u := Uploads(id, p, order)[i];
              u.key.snapshot == id && u.key in Objects(id, p) && u.data == Objects(id, p)[u.key]
  {
    var us := Uploads(id, p, order);
    forall i | 0 <= i < |us|
      ensures us[i].key.snapshot == id && us[i].key in Objects(id, p) && us[i].data == Objects(id, p)[us[i].key]
    {
      UploadIsObject(id, p, order, i);
    }
    if key in Objects(id, p) {
      ObjectIsUploaded(id, p, order, key);
    }
  }

  lemma ObjectIsUploaded(id: string, p: Package, order: seq<string>, key: Key)
    requires Enumerates(order, p.assets.Keys) && key in Objects(id, p)
    ensures exists i :: 0 <= i < |Uploads(id, p, order)| && Uploads(id, p, order)[i].key == key
  {
    var us := Uploads(id, p, order);
    if key == ManifestKey(id) {
      assert us[0].key == key;
    } else if key == PreviewKey(id) {
      assert us[1].key == key;
    } else {
      var i :| 0 <= i < |order| && order[i] == key.asset;
      assert us[i + 2].key == key;
    }
  }

  // The step relation.

  /** How a call goes: it works, it raises without effect, or it raises although
      the effect took place. */
  datatype Luck = Fine | Refused | Broken

  datatype Phase = Uploading(next: nat) | Cleaning(next: nat, upto: nat) | Documented | Failed

  datatype Attempt = Attempt(seller: string, package: Package, order: seq<string>, phase: Phase)

  /** `attempts` are all uploads ever begun, by their new snapshot id. */
  datatype World = World(objects: map<Key, Content>, documents: map<string, Document>, attempts: map<string, Attempt>)

  predicate WellFormed(a: Attempt) { Enumerates(a.order, a.package.assets.Keys) }

  function Plan(id: string, a: Attempt): seq<Upload>
    requires WellFormed(a)
  {
    Uploads(id, a.package, a.order)
  }

  function Moved(w: World, id: string, phase: Phase): World
    requires id in w.attempts
  {
    w.(attempts := w.attempts[id := w.attempts[id].(phase := phase)])
  }

  ghost predicate Starts(w: World, v: World, id: string, a: Attempt) {
    && id !in w.attempts && WellFormed(a) && a.phase == Uploading(0)
    && v == w.(attempts := w.attempts[id := a])
  }

  /** `put` is create-only; what raises ends the upload. */
  ghost predicate Puts(w: World, v: World, id: string, luck: Luck) {
    && id in w.attempts && WellFormed(w.attempts[id]) && w.attempts[id].phase.Uploading?
    && var k, us := w.attempts[id].phase.next, Plan(id, w.attempts[id]);
       && k < |us|
       && v == if luck.Refused? || us[k].key in w.objects then Moved(w, id, Cleaning(0, k))
               else Moved(w, id, if luck.Fine? then Uploading(k + 1) else Cleaning(0, k))
                    .(objects := w.objects[us[k].key := us[k].data])
  }

  /** Best-effort deletion of what was written, one object at a time. */
  ghost predicate Cleans(w: World, v: World, id: string, luck: Luck) {
    && id in w.attempts && WellFormed(w.attempts[id]) && w.attempts[id].phase.Cleaning?
    && var a, us := w.attempts[id].phase, Plan(id, w.attempts[id]);
       && a.upto <= |us|
       && v == if a.next >= a.upto then Moved(w, id, Failed)
               else Moved(w, id, Cleaning(a.next + 1, a.upto))
                    .(objects := if luck.Refused? then w.objects else w.objects - {us[a.next].key})
  }

  ghost predicate Documents(w: World, v: World, id: string, luck: Luck) {
    && id in w.attempts && WellFormed(w.attempts[id])
    && w.attempts[id].phase == Uploading(|Plan(id, w.attempts[id])|)
    && v == if luck.Refused? || id in w.documents then Moved(w, id, Failed)
            else Moved(w, id, Documented)
                 .(documents := w.documents[id := Described(w.attempts[id].seller, w.attempts[id].package)])
  }

  ghost predicate Acts(w: World, v: World, id: string) {
    exists luck :: Puts(w, v, id, luck) || Cleans(w, v, id, luck) || Documents(w, v, id, luck)
  }

  ghost predicate Next(w: World, v: World) {
    (exists id, a :: Starts(w, v, id, a)) || (exists id :: Acts(w, v, id))
  }

  const EMPTY_WORLD := World(map[], map[], map[])

  // Invariant.

  /** The stored objects of one snapshot id. */
  function Of(objects: map<Key, Content>, id: string): map<Key, Content> {
    map k | k in objects && k.snapshot == id :: objects[k]
  }

  ghost predicate AttemptOk(w: World, id: string)
    requires id in w.attempts
  {
    var a := w.attempts[id];
    && WellFormed(a)
    && match a.phase
       case Uploading(k) => k <= |Plan(id, a)| && id !in w.documents && Of(w.objects, id) == Uploaded(Plan(id, a), k)
       case Cleaning(_, upto) => upto <= |Plan(id, a)| && id !in w.documents
       case Failed => id !in w.documents
       case Documented =>
         && id in w.documents && w.documents[id] == Described(a.seller, a.package)
         && Of(w.objects, id) == Objects(id, a.package)
  }

  ghost predicate Inv(w: World) {
    && (forall id :: id in w.attempts ==> AttemptOk(w, id))
    && (forall k :: k in w.objects ==> k.snapshot in w.attempts)
    && (forall id :: id in w.documents ==> id in w.attempts)
  }

  /** A step of one attempt leaves the objects and documents of all others alone. */
  ghost predicate OthersSame(w: World, v: World, id: string) {
    && v.attempts.Keys == w.attempts.Keys
    && (forall i :: i in w.attempts && i != id ==>
          v.attempts[i] == w.attempts[i] && Of(v.objects, i) == Of(w.objects, i))
    && (forall i :: i != id ==> (i in v.documents <==> i in w.documents))
    && (forall i :: i in w.documents && i != id ==> v.documents[i] == w.documents[i])
  }

  lemma OthersStayOk(w: World, v: World, id: string)
    requires Inv(w) && id in w.attempts && OthersSame(w, v, id) && AttemptOk(v, id)
    requires forall k :: k in v.objects ==> k in w.objects || k.snapshot == id
    ensures Inv(v)
  {
    forall i | i in v.attempts ensures AttemptOk(v, i) {
      if i != id {
        assert AttemptOk(w, i);
      }
    }
    forall k | k in v.objects ensures k.snapshot in v.attempts {
      if k in w.objects { assert k.snapshot in w.attempts; }
    }
  }

  lemma StartKeepsInv(w: World, v: World, id: string, a: Attempt)
    requires Inv(w) && Starts(w, v, id, a)
    ensures Inv(v)
  {
    assert Of(w.objects, id) == map[] by {
      forall k | k in w.objects ensures k.snapshot != id { assert k.snapshot in w.attempts; }
    }
    forall i | i in v.attempts ensures AttemptOk(v, i) {
      if i != id { assert AttemptOk(w, i); }
    }
  }

  lemma OfPut(objects: map<Key, Content>, key: Key, data: Content, i: string)
    ensures Of(objects[key := data], i) == if key.snapshot == i then Of(objects, i)[key := data] else Of(objects, i)
  {
  }

  lemma OfDelete(objects: map<Key, Content>, key: Key, i: string)
    ensures key.snapshot != i ==> Of(objects - {key}, i) == Of(objects, i)
  {
  }

  /** Every planned key belongs to the attempt's own snapshot. */
  lemma PlannedKey(id: string, a: Attempt, k: nat)
    requires WellFormed(a) && k < |Plan(id, a)|
    ensures Plan(id, a)[k].key.snapshot == id
  {
    UploadKeys(id, a.package, a.order, Plan(id, a)[k].key);
  }

  lemma OthersSameOnPut(w: World, v: World, id: string, key: Key, data: Content)
    requires id in w.attempts && key.snapshot == id && v == w.(attempts := v.attempts, objects := v.objects)
    requires v.attempts.Keys == w.attempts.Keys
    requires forall i :: i in w.attempts && i != id ==> v.attempts[i] == w.attempts[i]
    requires v.objects == w.objects || v.objects == w.objects[key := data] || v.objects == w.objects - {key}
    ensures OthersSame(w, v, id) && forall k :: k in v.objects ==> k in w.objects || k.snapshot == id
  {
    forall i | i != id ensures Of(v.objects, i) == Of(w.objects, i) {
      OfPut(w.objects, key, data, i);
      OfDelete(w.objects, key, i);
    }
  }

  lemma PutFacts(w: World, v: World, id: string, luck: Luck)
    requires Puts(w, v, id, luck)
    ensures var a := w.attempts[id];
            var k, us := a.phase.next, Plan(id, a);
            && k < |us| && id in v.attempts && v == w.(attempts := v.attempts, objects := v.objects)
            && v.attempts == w.attempts[id := a.(phase := v.attempts[id].phase)]
            && (v.attempts[id].phase == Cleaning(0, k) || v.attempts[id].phase == Uploading(k + 1))
            && (v.objects == w.objects || v.objects == w.objects[us[k].key := us[k].data])
            && (v.attempts[id].phase.Uploading? ==> v.objects == w.objects[us[k].key := us[k].data])
  {
  }

  lemma PutAttemptOk(w: World, v: World, id: string, luck: Luck)
    requires id in w.attempts && AttemptOk(w, id) && Puts(w, v, id, luck)
    ensures id in v.attempts && AttemptOk(v, id)
  {
    PutFacts(w, v, id, luck);
    var a := w.attempts[id];
    var k, us := a.phase.next, Plan(id, a);
    PlannedKey(id, a, k);
    OfPut(w.objects, us[k].key, us[k].data, id);
  }

  lemma PutKeepsInv(w: World, v: World, id: string, luck: Luck)
    requires Inv(w) && Puts(w, v, id, luck)
    ensures Inv(v) && OthersSame(w, v, id)
  {
    var a := w.attempts[id];
    var k, us := a.phase.next, Plan(id, a);
    assert AttemptOk(w, id);
    PutFacts(w, v, id, luck);
    PutAttemptOk(w, v, id, luck);
    PlannedKey(id, a, k);
    OthersSameOnPut(w, v, id, us[k].key, us[k].data);
    OthersStayOk(w, v, id);
  }

  lemma CleanFacts(w: World, v: World, id: string, luck: Luck)
    requires Cleans(w, v, id, luck)
    ensures var a := w.attempts[id];
            var us := Plan(id, a);
            && id in v.attempts && v == w.(attempts := v.attempts, objects := v.objects)
            && v.attempts == w.attempts[id := a.(phase := v.attempts[id].phase)]
            && (v.attempts[id].phase.Failed? || v.attempts[id].phase == Cleaning(a.phase.next + 1, a.phase.upto))
            && (v.objects == w.objects ||
                (a.phase.next < |us| && v.objects == w.objects - {us[a.phase.next].key}))
  {
  }

  lemma CleanKeepsInv(w: World, v: World, id: string, luck: Luck)
    requires Inv(w) && Cleans(w, v, id, luck)
    ensures Inv(v) && OthersSame(w, v, id)
  {
    var a := w.attempts[id];
    var us := Plan(id, a);
    assert AttemptOk(w, id);
    CleanFacts(w, v, id, luck);
    assert AttemptOk(v, id);
    var key := if v.objects == w.objects then ManifestKey(id) else us[a.phase.next].key;
    if v.objects != w.objects {
      PlannedKey(id, a, a.phase.next);
    }
    OthersSameOnPut(w, v, id, key, "");
    OthersStayOk(w, v, id);
  }

  lemma DocumentFacts(w: World, v: World, id: string, luck: Luck)
    requires Documents(w, v, id, luck)
    ensures var a := w.attempts[id];
            && id in v.attempts && v == w.(attempts := v.attempts, documents := v.documents)
            && v.attempts == w.attempts[id := a.(phase := v.attempts[id].phase)]
            && ((v.attempts[id].phase.Failed? && v.documents == w.documents) ||
                (v.attempts[id].phase.Documented? && v.documents == w.documents[id := Described(a.seller, a.package)]))
  {
  }

  lemma DocumentAttemptOk(w: World, v: World, id: string, luck: Luck)
    requires id in w.attempts && AttemptOk(w, id) && Documents(w, v, id, luck)
    ensures id in v.attempts && AttemptOk(v, id)
  {
    DocumentFacts(w, v, id, luck);
    AllUploaded(id, w.attempts[id].package, w.attempts[id].order);
  }

  lemma OthersSameOnDocument(w: World, v: World, id: string)
    requires id in w.attempts && id in v.attempts && v == w.(attempts := v.attempts, documents := v.documents)
    requires v.attempts == w.attempts[id := v.attempts[id]]
    requires v.documents == w.documents || (id in v.documents && v.documents == w.documents[id := v.documents[id]])
    ensures OthersSame(w, v, id)
  {
  }

  lemma DocumentKeepsInv(w: World, v: World, id: string, luck: Luck)
    requires Inv(w) && Documents(w, v, id, luck)
    ensures Inv(v) && OthersSame(w, v, id)
  {
    assert AttemptOk(w, id);
    DocumentFacts(w, v, id, luck);
    DocumentAttemptOk(w, v, id, luck);
    OthersSameOnDocument(w, v, id);
    OthersStayOk(w, v, id);
  }

  /** What is documented stays as it is. */
  ghost predicate Kept(w: World, v: World) {
    forall id :: id in w.documents ==>
      id in v.documents && v.documents[id] == w.documents[id] && Of(v.objects, id) == Of(w.objects, id)
  }

  lemma ActKeeps(w: World, v: World, id: string)
    requires Inv(w) && Acts(w, v, id)
    ensures Inv(v) && Kept(w, v)
  {
    assert AttemptOk(w, id);
    var luck :| Puts(w, v, id, luck) || Cleans(w, v, id, luck) || Documents(w, v, id, luck);
    if Puts(w, v, id, luck) {
      PutKeepsInv(w, v, id, luck);
    } else if Cleans(w, v, id, luck) {
      CleanKeepsInv(w, v, id, luck);
    } else {
      DocumentKeepsInv(w, v, id, luck);
    }
    forall i | i in w.documents
      ensures i in v.documents && v.documents[i] == w.documents[i] && Of(v.objects, i) == Of(w.objects, i)
    {
      assert i in w.attempts && i != id;
    }
  }

  lemma NextKeeps(w: World, v: World)
    requires Inv(w) && Next(w, v)
    ensures Inv(v) && Kept(w, v)
  {
    if id, a :| Starts(w, v, id, a) {
      StartKeepsInv(w, v, id, a);
    } else {
      var id :| Acts(w, v, id);
      ActKeeps(w, v, id);
    }
  }

  ghost predicate StepAt(ws: seq<World>, n: int)
    requires 0 <= n < |ws| - 1
  {
    Next(ws[n], ws[n + 1])
  }

  ghost predicate Behaviour(ws: seq<World>) {
    |ws| > 0 && ws[0] == EMPTY_WORLD && forall n :: 0 <= n < |ws| - 1 ==> StepAt(ws, n)
  }

  lemma {:induction false} RunKeepsInv(ws: seq<World>, n: nat)
    requires Behaviour(ws) && n < |ws|
    ensures Inv(ws[n])
    decreases n
  {
    if n > 0 {
      RunKeepsInv(ws, n - 1);
      assert StepAt(ws, n - 1);
      NextKeeps(ws[n - 1], ws[n]);
    }
  }

  lemma {:induction false} RunKeepsDocuments(ws: seq<World>, m: nat, n: nat)
    requires Behaviour(ws) && m <= n < |ws|
    ensures Kept(ws[m], ws[n])
    decreases n
  {
    if m < n {
      RunKeepsDocuments(ws, m, n - 1);
      RunKeepsInv(ws, n - 1);
      assert StepAt(ws, n - 1);
      NextKeeps(ws[n - 1], ws[n]);
      KeptIsTransitive(ws[m], ws[n - 1], ws[n]);
    }
  }

  lemma KeptIsTransitive(u: World, v: World, w: World)
    requires Kept(u, v) && Kept(v, w)
    ensures Kept(u, w)
  {
  }

  /** Whatever uploads fail or stop halfway: a snapshot with a document has its
      manifest, its preview and exactly its assets in storage, and document and
      objects are the same ever after. */
  lemma DocumentedSnapshotsAreComplete(ws: seq<World>, m: nat, n: nat, id: string)
    requires Behaviour(ws) && m <= n < |ws| && id in ws[m].documents
    ensures id in ws[m].attempts && Of(ws[m].objects, id) == Objects(id, ws[m].attempts[id].package)
    ensures ws[m].documents[id] == Described(ws[m].attempts[id].seller, ws[m].attempts[id].package)
    ensures id in ws[n].documents && ws[n].documents[id] == ws[m].documents[id]
    ensures Of(ws[n].objects, id) == Of(ws[m].objects, id)
  {
    RunKeepsInv(ws, m);
    assert AttemptOk(ws[m], id);
    RunKeepsDocuments(ws, m, n);
  }

  // How one upload goes when nothing else happens.

  ghost predicate Steps(ws: seq<World>) { forall n :: 0 <= n < |ws| - 1 ==> StepAt(ws, n) }

  /** The world with this attempt at `k` uploads. */
  function Midway(w: World, id: string, a: Attempt, k: nat): World
    requires WellFormed(a) && k <= |Plan(id, a)|
  {
    w.(attempts := w.attempts[id := a.(phase := Uploading(k))], objects := w.objects + Uploaded(Plan(id, a), k))
  }

  lemma NewIdIsAbsent(w: World, id: string)
    requires Inv(w) && id !in w.attempts
    ensures id !in w.documents && Absent(id, w.objects)
  {
    forall k | k in w.objects ensures k.snapshot != id { assert k.snapshot in w.attempts; }
  }

  /** A put of a new key: with luck it is stored; refused, the clean-up begins. */
  lemma PutGoes(w: World, id: string, us: seq<Upload>, k: nat)
    requires id in w.attempts && WellFormed(w.attempts[id]) && w.attempts[id].phase == Uploading(k)
    requires us == Plan(id, w.attempts[id]) && k < |us| && us[k].key !in w.objects
    ensures Puts(w, Moved(w, id, Uploading(k + 1)).(objects := w.objects[us[k].key := us[k].data]), id, Fine)
    ensures Puts(w, Moved(w, id, Cleaning(0, k)), id, Refused)
  {
  }

  lemma UploadGoesOn(w: World, id: string, a: Attempt, k: nat)
    requires Absent(id, w.objects) && WellFormed(a) && k < |Plan(id, a)|
    ensures var here := Midway(w, id, a, k);
            && Acts(here, Midway(w, id, a, k + 1), id)
            && Acts(here, Moved(here, id, Cleaning(0, k)), id)
  {
    var here, us := Midway(w, id, a, k), Plan(id, a);
    assert us[k].key !in here.objects && here.objects[us[k].key := us[k].data] == w.objects + Uploaded(us, k + 1) by {
      UploadsArePlanned(id, a.package, a.order);
      NextKeyIsNew(id, us, k, w.objects);
    }
    PutGoes(here, id, us, k);
    MidwayMoves(w, id, a, k);
  }

  lemma MidwayMoves(w: World, id: string, a: Attempt, k: nat)
    requires WellFormed(a) && k < |Plan(id, a)|
    ensures Moved(Midway(w, id, a, k), id, Uploading(k + 1)).(objects := w.objects + Uploaded(Plan(id, a), k + 1))
         == Midway(w, id, a, k + 1)
  {
    var next := Moved(Midway(w, id, a, k), id, Uploading(k + 1));
    assert next.attempts == Midway(w, id, a, k + 1).attempts;
  }

  lemma UploadStarts(w: World, id: string, a: Attempt) returns (ws: seq<World>)
    requires id !in w.attempts && WellFormed(a) && a.phase == Uploading(0)
    ensures Steps(ws) && ws == [w, Midway(w, id, a, 0)]
  {
    assert w.objects + map[] == w.objects;
    var v := Midway(w, id, a, 0);
    assert Starts(w, v, id, a);
    ws := [w, v];
    assert StepAt(ws, 0);
  }

  lemma {:induction false} UploadsGoOn(w: World, id: string, a: Attempt, k: nat) returns (ws: seq<World>)
    requires id !in w.attempts && Absent(id, w.objects) && WellFormed(a) && a.phase == Uploading(0)
    requires k <= |Plan(id, a)|
    ensures Steps(ws) && |ws| == k + 2 && ws[0] == w && ws[k + 1] == Midway(w, id, a, k)
    ensures forall v :: v in ws ==> v.documents == w.documents
    decreases k
  {
    if k == 0 {
      ws := UploadStarts(w, id, a);
    } else {
      ws := UploadsGoOn(w, id, a, k - 1);
      UploadGoesOn(w, id, a, k - 1);
      ws := OneMore(ws, Midway(w, id, a, k), id);
    }
  }

  lemma OneMore(before: seq<World>, v: World, id: string) returns (ws: seq<World>)
    requires Steps(before) && |before| > 0 && Acts(before[|before| - 1], v, id)
    ensures ws == before + [v] && Steps(ws)
  {
    ws := before + [v];
    forall n | 0 <= n < |ws| - 1 ensures StepAt(ws, n) {
      if n < |before| - 1 { assert StepAt(before, n); }
    }
  }

  /** All objects are stored, and documented unless that failed. */
  predicate Ended(w: World, v: World, id: string, a: Attempt, create: Luck) {
    && v.objects == w.objects + Objects(id, a.package)
    && id in v.attempts && v.attempts[id].package == a.package && v.attempts[id].seller == a.seller
    && v.attempts[id].phase == (if create == Refused then Failed else Documented)
    && v.documents == if create == Refused then w.documents
                      else w.documents[id := Document(a.seller, a.package.manifest, |a.package.assets|)]
  }

  lemma UploadsEnd(w: World, id: string, a: Attempt, create: Luck) returns (v: World)
    requires id !in w.documents && WellFormed(a)
    ensures Acts(Midway(w, id, a, |Plan(id, a)|), v, id) && Ended(w, v, id, a, create)
  {
    var here := Midway(w, id, a, |Plan(id, a)|);
    AllUploaded(id, a.package, a.order);
    v := if create == Refused then Moved(here, id, Failed)
         else Moved(here, id, Documented).(documents := w.documents[id := Described(a.seller, a.package)]);
    assert Documents(here, v, id, create);
  }

  /** An upload that meets no failure is documented with all its objects, and with its
      last step only; if just the creation of the document fails, the objects stay
      and nothing refers to them. */
  lemma LuckyUploadIsDocumented(w: World, id: string, a: Attempt, create: Luck) returns (ws: seq<World>)
    requires Inv(w) && id !in w.attempts && WellFormed(a) && a.phase == Uploading(0)
    ensures Steps(ws) && |ws| > 1 && ws[0] == w && Ended(w, ws[|ws| - 1], id, a, create)
    ensures forall n :: 0 <= n < |ws| - 1 ==> ws[n].documents == w.documents
  {
    NewIdIsAbsent(w, id);
    var before := UploadsGoOn(w, id, a, |Plan(id, a)|);
    var v := UploadsEnd(w, id, a, create);
    ws := Prolonged(before, v, id, w.documents);
  }

  lemma Prolonged(before: seq<World>, v: World, id: string, documents: map<string, Document>)
    returns (ws: seq<World>)
    requires Steps(before) && |before| > 0 && Acts(before[|before| - 1], v, id)
    requires forall u :: u in before ==> u.documents == documents
    ensures Steps(ws) && ws == before + [v]
    ensures forall n :: 0 <= n < |ws| - 1 ==> ws[n].documents == documents
  {
    ws := OneMore(before, v, id);
    assert forall n :: 0 <= n < |ws| - 1 ==> ws[n] == before[n] && before[n] in before;
  }

  /** While the clean-up has removed the first `j` of `k` objects. */
  function Swept(w: World, id: string, a: Attempt, k: nat, j: nat): World
    requires WellFormed(a) && j <= k <= |Plan(id, a)|
  {
    w.(attempts := w.attempts[id := a.(phase := Cleaning(j, k))],
       objects := w.objects + Uploaded(Plan(id, a), k) - (set i | 0 <= i < j :: Plan(id, a)[i].key))
  }

  lemma CleanGoes(w: World, id: string, us: seq<Upload>, k: nat, j: nat)
    requires id in w.attempts && WellFormed(w.attempts[id]) && w.attempts[id].phase == Cleaning(j, k)
    requires us == Plan(id, w.attempts[id]) && j <= k <= |us|
    ensures j < k ==> Cleans(w, Moved(w, id, Cleaning(j + 1, k)).(objects := w.objects - {us[j].key}), id, Fine)
    ensures j == k ==> Cleans(w, Moved(w, id, Failed), id, Fine)
  {
  }

  lemma KeysGrow(us: seq<Upload>, j: nat)
    requires j < |us|
    ensures (set i | 0 <= i < j + 1 :: us[i].key) == (set i | 0 <= i < j :: us[i].key) + {us[j].key}
  {
  }

  lemma SweepGoesOn(w: World, id: string, a: Attempt, k: nat, j: nat)
    requires WellFormed(a) && j < k <= |Plan(id, a)|
    ensures Acts(Swept(w, id, a, k, j), Swept(w, id, a, k, j + 1), id)
  {
    var here, us := Swept(w, id, a, k, j), Plan(id, a);
    CleanGoes(here, id, us, k, j);
    KeysGrow(us, j);
    var next := Moved(here, id, Cleaning(j + 1, k)).(objects := here.objects - {us[j].key});
    assert next.objects == Swept(w, id, a, k, j + 1).objects;
    assert next.attempts == Swept(w, id, a, k, j + 1).attempts;
  }

  lemma {:induction false} SweepsGoOn(w: World, id: string, a: Attempt, k: nat, j: nat) returns (ws: seq<World>)
    requires id !in w.attempts && Absent(id, w.objects) && WellFormed(a) && a.phase == Uploading(0)
    requires j <= k < |Plan(id, a)|
    ensures Steps(ws) && |ws| > 0 && ws[0] == w && ws[|ws| - 1] == Swept(w, id, a, k, j)
    decreases j
  {
    if j == 0 {
      ws := UploadsGoOn(w, id, a, k);
      UploadGoesOn(w, id, a, k);
      SweepStarts(w, id, a, k);
      ws := OneMore(ws, Swept(w, id, a, k, 0), id);
    } else {
      ws := SweepsGoOn(w, id, a, k, j - 1);
      SweepGoesOn(w, id, a, k, j - 1);
      ws := OneMore(ws, Swept(w, id, a, k, j), id);
    }
  }

  lemma SweepStarts(w: World, id: string, a: Attempt, k: nat)
    requires WellFormed(a) && k <= |Plan(id, a)|
    ensures Moved(Midway(w, id, a, k), id, Cleaning(0, k)) == Swept(w, id, a, k, 0)
  {
    var v := Moved(Midway(w, id, a, k), id, Cleaning(0, k));
    assert v.attempts == Swept(w, id, a, k, 0).attempts && v.objects == Swept(w, id, a, k, 0).objects;
  }

  lemma SweptIsAll(id: string, us: seq<Upload>, k: nat, before: map<Key, Content>)
    requires Planned(id, us) && k <= |us| && Absent(id, before)
    ensures before + Uploaded(us, k) - (set i | 0 <= i < k :: us[i].key) == before
  {
    forall key: Key
      ensures key in Uploaded(us, k) <==> key in set i | 0 <= i < k :: us[i].key
      ensures key in Uploaded(us, k) ==> key !in before
    {
      UploadedHas(us, k, key);
    }
  }

  /** An upload whose object `k` is refused ends with nothing of it left, if the
      deletions work. */
  lemma RefusedUploadIsSwept(w: World, id: string, a: Attempt, k: nat) returns (ws: seq<World>)
    requires Inv(w) && id !in w.attempts && WellFormed(a) && a.phase == Uploading(0) && k < |Plan(id, a)|
    ensures Steps(ws) && |ws| > 0 && ws[0] == w
    ensures ws[|ws| - 1] == w.(attempts := w.attempts[id := a.(phase := Failed)])
  {
    NewIdIsAbsent(w, id);
    ws := SweepsGoOn(w, id, a, k, k);
    var here := Swept(w, id, a, k, k);
    UploadsArePlanned(id, a.package, a.order);
    SweptIsAll(id, Plan(id, a), k, w.objects);
    CleanGoes(here, id, Plan(id, a), k, k);
    var v := Moved(here, id, Failed);
    assert v.attempts == w.attempts[id := a.(phase := Failed)];
    ws := OneMore(ws, v, id);
  }

  // The service and its storage.

  class AssetStorage {
    var objects: map<Key, Content>

    constructor ()
      ensures objects == map[]
    {
      objects := map[];
    }

    /** Create-only; false when it raises. */
    method PutNew(key: Key, data: Content, luck: Luck) returns (ok: bool)
      modifies this
      ensures ok == (luck.Fine? && key !in old(objects))
      ensures objects == if luck.Refused? || key in old(objects) then old(objects) else old(objects)[key := data]
    {
      if luck.Refused? || key in objects {
        return false;
      }
      objects := objects[key := data];
      ok := luck.Fine?;
    }

    /** Best effort: what fails is logged, whether it took effect or not. */
    method Delete(key: Key, luck: Luck)
      modifies this
      ensures objects == if luck.Refused? then old(objects) else old(objects) - {key}
    {
      if !luck.Refused? {
        objects := objects - {key};
      }
    }
  }

  /** The keys of one upload: its own, and each once. */
  predicate Planned(id: string, keys: seq<Upload>) {
    && (forall i :: 0 <= i < |keys| ==> keys[i].key.snapshot == id)
    && (forall i, j :: 0 <= i < j < |keys| ==> keys[i].key != keys[j].key)
  }

  lemma UploadsArePlanned(id: string, p: Package, order: seq<string>)
    requires Enumerates(order, p.assets.Keys)
    ensures Planned(id, Uploads(id, p, order))
  {
    UploadsAreDistinct(id, p, order);
    UploadKeys(id, p, order, ManifestKey(id));
  }

  predicate Absent(id: string, objects: map<Key, Content>) { forall k :: k in objects ==> k.snapshot != id }

  lemma NextKeyIsNew(id: string, keys: seq<Upload>, k: nat, before: map<Key, Content>)
    requires Planned(id, keys) && k < |keys| && Absent(id, before)
    ensures keys[k].key !in before + Uploaded(keys, k)
    ensures (before + Uploaded(keys, k))[keys[k].key := keys[k].data] == before + Uploaded(keys, k + 1)
  {
    UploadedHas(keys, k, keys[k].key);
  }

  /** Those of the first `n` keys whose deletion took effect. */
  function Cleared(keys: seq<Upload>, cleans: seq<Luck>, n: nat): set<Key>
    requires n <= |keys| == |cleans|
  {
    set j | 0 <= j < n && !cleans[j].Refused? :: keys[j].key
  }

  lemma ClearedAreUploaded(id: string, keys: seq<Upload>, cleans: seq<Luck>, n: nat)
    requires Planned(id, keys) && n <= |keys| == |cleans|
    ensures Cleared(keys, cleans, n) <= Uploaded(keys, n).Keys
    ensures (forall j :: 0 <= j < n ==> !cleans[j].Refused?) ==> Cleared(keys, cleans, n) == Uploaded(keys, n).Keys
    ensures forall k :: k in Uploaded(keys, n) ==> k.snapshot == id
  {
    forall key: Key
      ensures key in Cleared(keys, cleans, n) ==> key in Uploaded(keys, n)
      ensures (forall j :: 0 <= j < n ==> !cleans[j].Refused?) ==>
                (key in Uploaded(keys, n) ==> key in Cleared(keys, cleans, n))
      ensures key in Uploaded(keys, n) ==> key.snapshot == id
    {
      UploadedHas(keys, n, key);
    }
  }

  lemma OthersSurvive(id: string, before: map<Key, Content>, up: map<Key, Content>, gone: set<Key>)
    requires (forall k :: k in up ==> k.snapshot == id) && (forall k :: k in gone ==> k.snapshot == id)
    ensures forall i: string :: i != id ==> Of(before + up - gone, i) == Of(before, i)
  {
    forall i: string | i != id ensures Of(before + up - gone, i) == Of(before, i) {
    }
  }

  lemma AllTakenBack(before: map<Key, Content>, up: map<Key, Content>)
    requires forall k :: k in up ==> k !in before
    ensures before + up - up.Keys == before
  {
  }

  /** Taking back the written keys leaves every other snapshot alone, and restores
      storage if all deletions take effect - but for a last upload that took
      effect although it raised. */
  lemma TakenBack(id: string, keys: seq<Upload>, cleans: seq<Luck>, n: nat, before: map<Key, Content>, extra: bool)
    requires Planned(id, keys) && n < |keys| == |cleans| && Absent(id, before)
    ensures var left := if extra then before + Uploaded(keys, n + 1) else before + Uploaded(keys, n);
            && (forall i: string :: i != id ==> Of(left - Cleared(keys, cleans, n), i) == Of(before, i))
            && (!extra && NoneRefused(cleans) ==> left - Cleared(keys, cleans, n) == before)
  {
    ClearedAreUploaded(id, keys, cleans, n);
    ClearedAreUploaded(id, keys, cleans, n + 1);
    var gone := Cleared(keys, cleans, n);
    assert forall k :: k in gone ==> k in Uploaded(keys, n);
    OthersSurvive(id, before, Uploaded(keys, if extra then n + 1 else n), gone);
    AllTakenBack(before, Uploaded(keys, n));
  }

  predicate AllFine(lucks: seq<Luck>) { forall i :: 0 <= i < |lucks| ==> lucks[i].Fine? }

  predicate NoneBroken(lucks: seq<Luck>) { forall i :: 0 <= i < |lucks| ==> !lucks[i].Broken? }

  predicate NoneRefused(lucks: seq<Luck>) { forall i :: 0 <= i < |lucks| ==> !lucks[i].Refused? }

  class SnapshotService {
    const assets: AssetStorage
    var documents: map<string, Document>

    constructor (assets: AssetStorage)
      ensures this.assets == assets && documents == map[]
    {
      this.assets := assets;
      documents := map[];
    }

    /** `create_snapshot`, for a new id. `lucks` says how each upload goes, `cleans`
        how each deletion of the clean-up would go, `create` how the creation of
        the document goes. A failed upload never leaves a document, and leaves no
        trace at all if it raised without effect and the clean-up works. */
    method CreateSnapshot(id: string, seller: string, p: Package, order: seq<string>, lucks: seq<Luck>,
                          cleans: seq<Luck>, create: Luck) returns (ok: bool)
      requires Enumerates(order, p.assets.Keys) && |lucks| == |cleans| == |Uploads(id, p, order)|
      requires id !in documents && Absent(id, assets.objects)
      modifies this, assets
      ensures ok <==> AllFine(lucks) && create.Fine?
      ensures id in documents ==> assets.objects == old(assets.objects) + Objects(id, p)
      ensures documents == if AllFine(lucks) && !create.Refused?
                           then old(documents)[id := Described(seller, p)] else old(documents)
      ensures forall i: string :: i != id ==> Of(assets.objects, i) == Of(old(assets.objects), i)
      ensures !AllFine(lucks) && NoneBroken(lucks) && NoneRefused(cleans) ==> assets.objects == old(assets.objects)
    {
      ok := UploadPackage(id, p, order, lucks, cleans);
      if ok {
        if !create.Refused? {
          documents := documents[id := Described(seller, p)];
        }
        ok := create.Fine?;
      }
    }

    /** The objects of one snapshot, all or - as far as the clean-up works - none. */
    method UploadPackage(id: string, p: Package, order: seq<string>, lucks: seq<Luck>, cleans: seq<Luck>)
      returns (ok: bool)
      requires Enumerates(order, p.assets.Keys) && |lucks| == |cleans| == |Uploads(id, p, order)|
      requires Absent(id, assets.objects)
      modifies assets
      ensures ok <==> AllFine(lucks)
      ensures ok ==> assets.objects == old(assets.objects) + Objects(id, p)
      ensures forall i: string :: i != id ==> Of(assets.objects, i) == Of(old(assets.objects), i)
      ensures !ok && NoneBroken(lucks) && NoneRefused(cleans) ==> assets.objects == old(assets.objects)
    {
      UploadsArePlanned(id, p, order);
      ok := UploadAll(id, Uploads(id, p, order), lucks, cleans);
      if ok {
        AllUploaded(id, p, order);
        ObjectsAreOwn(id, p, old(assets.objects));
      }
    }

    /** Upload one after the other; what was written is taken back when one raises. */
    method UploadAll(id: string, keys: seq<Upload>, lucks: seq<Luck>, cleans: seq<Luck>) returns (ok: bool)
      requires Planned(id, keys) && |lucks| == |cleans| == |keys| && Absent(id, assets.objects)
      modifies assets
      ensures ok <==> AllFine(lucks)
      ensures ok ==> assets.objects == old(assets.objects) + Uploaded(keys, |keys|)
      ensures !ok ==> forall i: string :: i != id ==> Of(assets.objects, i) == Of(old(assets.objects), i)
      ensures !ok && NoneBroken(lucks) && NoneRefused(cleans) ==> assets.objects == old(assets.objects)
    {
      var written := 0;
      while written < |keys|
        invariant 0 <= written <= |keys|
        invariant assets.objects == old(assets.objects) + Uploaded(keys, written)
        invariant forall i :: 0 <= i < written ==> lucks[i].Fine?
      {
        NextKeyIsNew(id, keys, written, old(assets.objects));
        var stored := assets.PutNew(keys[written].key, keys[written].data, lucks[written]);
        if !stored {
          TakeBack(keys, cleans, written);
          TakenBack(id, keys, cleans, written, old(assets.objects), lucks[written].Broken?);
          return false;
        }
        written := written + 1;
      }
      ok := true;
    }

    method TakeBack(keys: seq<Upload>, cleans: seq<Luck>, written: nat)
      requires written <= |keys| == |cleans|
      modifies assets
      ensures assets.objects == old(assets.objects) - Cleared(keys, cleans, written)
    {
      var i := 0;
      while i < written
        invariant 0 <= i <= written && assets.objects == old(assets.objects) - Cleared(keys, cleans, i)
      {
        assets.Delete(keys[i].key, cleans[i]);
        assert Cleared(keys, cleans, i + 1)
            == Cleared(keys, cleans, i) + if cleans[i].Refused? then {} else {keys[i].key};
        i := i + 1;
      }
    }
  }

  lemma ObjectsAreOwn(id: string, p: Package, before: map<Key, Content>)
    ensures forall i: string :: i != id ==> Of(before + Objects(id, p), i) == Of(before, i)
  {
    assert forall k :: k in Objects(id, p) ==> k.snapshot == id;
    OthersSurvive(id, before, Objects(id, p), {});
    assert before + Objects(id, p) - {} == before + Objects(id, p);
  }
}
