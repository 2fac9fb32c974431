/**
 * crates/storage/src/qdrant/mod.rs: the vector store. A collection is a map
 * from point id to (vector, payload); an email's point id is derived from its
 * Outlook identity by SHA-256, which is a parameter here (`sha256` in FIPS
 * 180-4, section 6.2, maps any byte string to 32 bytes). The Qdrant server is
 * modelled by the map it holds; its transport failures are parameters.
 */
module Qdrant {
  import opened Errors
  import opened JsonValue
  import opened Provider

  type Byte = b: int | 0 <= b < 256
  type Digest = d: seq<Byte> | |d| == 32 witness seq(32, i => 0)
  type Sha256 = seq<Byte> -> Digest

  const EmailsCollection := "emails"
  const AttachmentsCollection := "attachments"
  const VectorName := "body_embedding"
  const DefaultDim := 1536

  /** Texts standing for the server's refusals. */
  const CollectionMissing := "Not found: Collection `emails` doesn't exist!"
  const CollectionExists := "Wrong input: Collection already exists!"
  const DimensionMismatch := "Wrong input: Vector dimension error"

  // ---------------------------------------------------------------------
  // Stable point ids

  /** The UTF-8 bytes of one character (Dafny characters are Unicode scalar values). */
  function CharUtf8(c: char): (bs: seq<Byte>)
    ensures 1 <= |bs| <= 4
    ensures (c as int < 0x80) <==> |bs| == 1
  {
    var n := c as int;
    if n < 0x80 then [n]
    else if n < 0x800 then [0xC0 + n / 64, 0x80 + n % 64]
    else if n < 0x10000 then [0xE0 + n / 4096, 0x80 + (n / 64) % 64, 0x80 + n % 64]
    else [0xF0 + n / 262144, 0x80 + (n / 4096) % 64, 0x80 + (n / 64) % 64, 0x80 + n % 64]
  }

  /** The bytes `hasher.update(&str)` consumes. */
  function Utf8(s: string): (bs: seq<Byte>)
    ensures |bs| >= |s|
  {
    if s == [] then [] else CharUtf8(s[0]) + Utf8(s[1..])
  }

  lemma {:induction false} Utf8Append(a: string, b: string)
    ensures Utf8(a + b) == Utf8(a) + Utf8(b)
  {
    if a == [] {
      assert a + b == b;
    } else {
      assert (a + b)[1..] == a[1..] + b;
      Utf8Append(a[1..], b);
    }
  }

  function Pow256(k: nat): (p: nat)
    ensures p >= 1
  {
    if k == 0 then 1 else 256 * Pow256(k - 1)
  }

  /** `u64::from_le_bytes`: byte 0 is the least significant. */
  function FromLeBytes(bs: seq<Byte>): nat {
    if bs == [] then 0 else bs[0] + 256 * FromLeBytes(bs[1..])
  }

  /** `u64::to_le_bytes`, for `k` bytes. */
  function ToLeBytes(n: nat, k: nat): (bs: seq<Byte>)
    ensures |bs| == k
  {
    if k == 0 then [] else [n % 256] + ToLeBytes(n / 256, k - 1)
  }

  lemma {:induction false} FromLeBytesBound(bs: seq<Byte>)
    ensures FromLeBytes(bs) < Pow256(|bs|)
  {
    if bs != [] {
      FromLeBytesBound(bs[1..]);
    }
  }

  /** Reading little-endian and writing back gives the same bytes. */
  lemma {:induction false} LeBytesRoundTrip(bs: seq<Byte>)
    ensures ToLeBytes(FromLeBytes(bs), |bs|) == bs
  {
    if bs != [] {
      var n := FromLeBytes(bs);
      assert n % 256 == bs[0] && n / 256 == FromLeBytes(bs[1..]);
      LeBytesRoundTrip(bs[1..]);
    }
  }

  /** Writing a number that fits and reading it back gives the number. */
  lemma {:induction false} LeNumberRoundTrip(n: nat, k: nat)
    requires n < Pow256(k)
    ensures FromLeBytes(ToLeBytes(n, k)) == n
  {
    if k > 0 {
      LeNumberRoundTrip(n / 256, k - 1);
    }
  }

  /** The 8-byte prefix of the digest, read little-endian; a u64. */
  function StableId(storeId: string, entryId: string, sha256: Sha256): (id: nat)
    ensures id < 0x1_0000_0000_0000_0000
    ensures id % 256 == sha256(Utf8(storeId) + Utf8(entryId))[0]
    ensures ToLeBytes(id, 8) == sha256(Utf8(storeId) + Utf8(entryId))[..8]
  {
    var digest := sha256(Utf8(storeId) + Utf8(entryId));
    FromLeBytesBound(digest[..8]);
    LeBytesRoundTrip(digest[..8]);
    assert Pow256(8) == 0x1_0000_0000_0000_0000;
    FromLeBytes(digest[..8])
  }

  /** The id sees only the concatenation: two pairs with the same concatenation collide. */
  lemma StableIdOfConcatenation(s1: string, e1: string, s2: string, e2: string, sha256: Sha256)
    requires s1 + e1 == s2 + e2
    ensures StableId(s1, e1, sha256) == StableId(s2, e2, sha256)
  {
    Utf8Append(s1, e1);
    Utf8Append(s2, e2);
  }

  lemma SplitCollision(sha256: Sha256)
    ensures StableId("ab", "c", sha256) == StableId("a", "bc", sha256)
  {
    StableIdOfConcatenation("ab", "c", "a", "bc", sha256);
  }

  // ---------------------------------------------------------------------
  // Collections

  datatype Distance = Cosine | Euclid | Dot

  datatype Point = Point(vector: Embedding, payload: map<string, Value>)

  datatype Collection = Collection(dim: nat, distance: Distance, points: map<nat, Point>)

  type Collections = map<string, Collection>

  /** `create_collection` as the server performs it. */
  function CreateCollection(cols: Collections, name: string, dim: nat): (r: Result<Collections>)
    ensures r.Ok? <==> name !in cols
    ensures r.Ok? ==>
      && r.value.Keys == cols.Keys + {name}
      && r.value[name] == Collection(dim, Cosine, map[])
      && forall n :: n in cols ==> r.value[n] == cols[n]
  {
    if name in cols then Err(Storage(CollectionExists))
    else Ok(cols[name := Collection(dim, Cosine, map[])])
  }

  /** `upsert_points` of one point into `name`: the id's old point, if any, is replaced. */
  function UpsertPoint(cols: Collections, name: string, id: nat, p: Point): (r: Result<Collections>)
    ensures r.Ok? <==> name in cols && |p.vector| == cols[name].dim
    ensures r.Ok? ==>
      && r.value.Keys == cols.Keys
      && r.value[name].points.Keys == cols[name].points.Keys + {id}
      && r.value[name].points[id] == p
      && r.value[name].dim == cols[name].dim && r.value[name].distance == cols[name].distance
      && (forall n :: n in cols && n != name ==> r.value[n] == cols[n])
      && (forall j :: j in cols[name].points && j != id ==> r.value[name].points[j] == cols[name].points[j])
  {
    if name !in cols then Err(Storage(CollectionMissing))
    else if |p.vector| != cols[name].dim then Err(Storage(DimensionMismatch))
    else Ok(cols[name := cols[name].(points := cols[name].points[id := p])])
  }

  /** Upserting under one id twice is upserting the second point once. */
  lemma UpsertTwice(cols: Collections, name: string, id: nat, p1: Point, p2: Point)
    requires UpsertPoint(cols, name, id, p1).Ok?
    requires |p2.vector| == |p1.vector|
    ensures UpsertPoint(UpsertPoint(cols, name, id, p1).value, name, id, p2) == UpsertPoint(cols, name, id, p2)
  {
    var once := UpsertPoint(cols, name, id, p1).value;
    assert once[name].points[id := p2] == cols[name].points[id := p2];
    assert once[name := once[name].(points := once[name].points[id := p2])]
        == cols[name := cols[name].(points := cols[name].points[id := p2])];
  }

  /** Both collections exist; `QdrantStorage::new` fails unless it establishes this. */
  ghost predicate Ready(cols: Collections) {
    EmailsCollection in cols && AttachmentsCollection in cols
  }

  class QdrantStore {
    var collections: Collections

    constructor(existing: Collections)
      ensures collections == existing
    {
      collections := existing;
    }

    /** `ensure_collection`: a failed existence check counts as "absent". */
    method EnsureCollection(name: string, dim: nat, checkFails: bool, createFault: Option<string>)
      returns (r: Result<()>)
      modifies this
      ensures !checkFails && name in old(collections) ==> r == Ok(()) && collections == old(collections)
      ensures (checkFails || name !in old(collections)) && createFault.Some? ==>
        r == Err(Storage(createFault.value)) && collections == old(collections)
      ensures (checkFails || name !in old(collections)) && createFault.None? ==>
        match CreateCollection(old(collections), name, dim)
        case Ok(cols) => r == Ok(()) && collections == cols
        case Err(e) => r == Err(e) && collections == old(collections)
    {
      var present := if checkFails then false else name in collections;
      if !present {
        if createFault.Some? {
          return Err(Storage(createFault.value));
        }
        var created := CreateCollection(collections, name, dim);
        if created.Err? {
          return Err(created.error);
        }
        collections := created.value;
      }
      r := Ok(());
    }

    /** `ensure_collections`: "emails", then "attachments", both 1536-dimensional. */
    method EnsureCollections(checkFails: string -> bool, createFault: string -> Option<string>)
      returns (r: Result<()>)
      modifies this
      ensures r.Ok? ==> Ready(collections)
      ensures r.Ok? ==> forall n :: n in {EmailsCollection, AttachmentsCollection} ==>
        collections[n] == if n in old(collections) then old(collections)[n] else Collection(DefaultDim, Cosine, map[])
      ensures r.Ok? ==> forall n :: n in old(collections) ==> n in collections && collections[n] == old(collections)[n]
      // A failure keeps what the emails step did and creates no "attachments".
      ensures r.Err? ==>
        || collections == old(collections)
        || (EmailsCollection !in old(collections)
            && collections == old(collections)[EmailsCollection := Collection(DefaultDim, Cosine, map[])])
      ensures (checkFails(EmailsCollection) || EmailsCollection !in old(collections)) && createFault(EmailsCollection).Some? ==>
        r == Err(Storage(createFault(EmailsCollection).value)) && collections == old(collections)
      ensures checkFails(EmailsCollection) && EmailsCollection in old(collections) && createFault(EmailsCollection).None? ==>
        r == Err(Storage(CollectionExists)) && collections == old(collections)
      ensures (&& (|| (!checkFails(EmailsCollection) && EmailsCollection in old(collections))
                  || (EmailsCollection !in old(collections) && createFault(EmailsCollection).None?))
               && (checkFails(AttachmentsCollection) || AttachmentsCollection !in old(collections))
               && createFault(AttachmentsCollection).Some?) ==>
        r == Err(Storage(createFault(AttachmentsCollection).value))
        && collections.Keys == old(collections).Keys + {EmailsCollection}
    {
      r := EnsureCollection(EmailsCollection, 1536, checkFails(EmailsCollection), createFault(EmailsCollection));
      if r.Err? {
        return;
      }
      assert EmailsCollection != AttachmentsCollection;
      r := EnsureCollection(AttachmentsCollection, 1536, checkFails(AttachmentsCollection), createFault(AttachmentsCollection));
    }

    /** `upsert_email_vector`: one point in "emails" under the email's stable id. */
    method UpsertEmailVector(storeId: string, entryId: string, vector: Embedding, payload: map<string, Value>,
                             sha256: Sha256, fault: Option<string>)
      returns (r: Result<()>)
      modifies this
      ensures fault.Some? ==> r == Err(Storage(fault.value)) && collections == old(collections)
      ensures fault.None? ==>
        match UpsertPoint(old(collections), EmailsCollection, StableId(storeId, entryId, sha256), Point(vector, payload))
        case Ok(cols) => r == Ok(()) && collections == cols
        case Err(e) => r == Err(e) && collections == old(collections)
    {
      var id := StableId(storeId, entryId, sha256);
      if fault.Some? {
        return Err(Storage(fault.value));
      }
      var upserted := UpsertPoint(collections, EmailsCollection, id, Point(vector, payload));
      if upserted.Err? {
        return Err(upserted.error);
      }
      collections := upserted.value;
      r := Ok(());
    }
  }

  /** Saving one email's vector twice leaves one point for it, holding the second vector and payload. */
  method UpsertEmailTwice(q: QdrantStore, storeId: string, entryId: string,
                          v1: Embedding, pl1: map<string, Value>, v2: Embedding, pl2: map<string, Value>, sha256: Sha256)
    returns (r1: Result<()>, r2: Result<()>)
    requires EmailsCollection in q.collections && |v1| == |v2| == q.collections[EmailsCollection].dim
    modifies q
    ensures r1.Ok? && r2.Ok?
    ensures EmailsCollection in q.collections
    ensures var id := StableId(storeId, entryId, sha256);
      q.collections[EmailsCollection].points == old(q.collections[EmailsCollection].points)[id := Point(v2, pl2)]
  {
    r1 := q.UpsertEmailVector(storeId, entryId, v1, pl1, sha256, None);
    r2 := q.UpsertEmailVector(storeId, entryId, v2, pl2, sha256, None);
  }
}
