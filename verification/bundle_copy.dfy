// Export and import run one after the other.
module BundleCopy {
  import opened Common
  import opened BundleTypes
  import opened BundleSpec
  import opened BundleExport
  import opened BundleRoundTrip
  import opened BundleImport

  // The stored chunks of each session of the campaign, and any number bound to no session.
  ghost predicate ChunksStored(chunks: seq<Stored>, db: Db, cid: Id) {
    forall i :: In(db.sessions, cid, i) ==> ChunksOf(chunks, i) == db.sessions[i].row.chunks
  }

  // Every well-formed stored campaign is restored by importing its export, unless the target
  // refuses a write; then the target is as it was.
  method CopyCampaign(db: Db, blobs: map<Id, Image>, chunks: seq<Stored>, cid: Id, withHistory: bool, withImages: bool, render: Render,
                      store: Store)
    returns (outcome: Outcome, m: Minted, ghost f: Renaming)
    requires WellFormed(db, cid) && RasterBlobs(blobs) && Faithful(render) && ChunksStored(chunks, db, cid)
    requires store.Valid() && (withImages ==> store.hasBlobs)
    modifies store
    ensures store.Valid()
    ensures store.Quiet() ==> outcome == Done
    ensures outcome == Done ==> Isomorphic(f, db, blobs, cid, store.Snapshot(), store.blobs, m.campaign, withHistory, withImages)
    ensures outcome != Done ==> store.Snapshot() == old(store.Snapshot())
  {
    LinesStored(db, cid);
    var ok, b;
    ghost var o;
    ok, b, o := Export(db, blobs, chunks, cid, withHistory, withImages, render);
    ghost var before, beforeBlobs, loKey := store.Snapshot(), store.blobs, store.nextKey;
    ExportIsImportable(b, db, blobs, cid, o, withHistory, withImages, render, store.hasBlobs);
    NoImagesAsked(b, db, blobs, cid, o, withHistory, withImages, render);
    var dropped;
    ghost var written, failed;
    outcome, m, dropped, written, failed := store.Import(b);
    f := RenamingOf(o, m);
    if outcome == Done {
      RoundTrip(db, blobs, cid, b, o, withHistory, withImages, render, before, store.Snapshot(), beforeBlobs, store.blobs,
                store.defaultGrants, m, loKey, store.nextKey);
    }
  }

  lemma LinesStored(db: Db, cid: Id)
    requires WellFormed(db, cid)
    ensures forall i, k :: i in db.sessions && db.sessions[i].campaign == cid && k in db.sessions[i].row.lines ==>
              db.sessions[i].row.lines[k].lineId == k
  {
    forall i, k | i in db.sessions && db.sessions[i].campaign == cid && k in db.sessions[i].row.lines
      ensures db.sessions[i].row.lines[k].lineId == k
    {
      assert In(db.sessions, cid, i) && SessionSound(db.nodes, cid, db.sessions[i].row);
    }
  }

  lemma NoImagesAsked(b: Bundle, db: Db, blobs: map<Id, Image>, cid: Id, o: Order, withHistory: bool, withImages: bool, render: Render)
    requires Describes(b, db, blobs, cid, o, withHistory, withImages, render)
    ensures !withImages ==> forall k :: 0 <= k < |b.maps| ==> b.maps[k].image == Empty
  {
  }
}
