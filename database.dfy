/**
 * The generic record store: one `DatabaseService` per named collection, giving
 * create, findAll, findOne, findById, update and delete over documents that are
 * plain records. The store owns three fields of every document: its identifier
 * (kept apart from the fields, as `Doc.id`), `createdAt` and `updatedAt`.
 */
module Database {
  import opened Wrappers
  import opened Json
  import opened ObjectIds

  /** A document's `_id`: one the store generated, or one the caller's body carried. */
  datatype Key = Generated(n: nat) | Supplied(v: Value)

  /** A stored document: its `_id` and its other fields. */
  datatype Doc = Doc(id: Key, fields: Record)

  datatype StoreError =
    | Unavailable     // the database cannot be reached
    | BadId           // `new ObjectId(id)` threw
    | DuplicateKey    // an insert whose `_id` is already stored
    | ArrayId         // an insert whose `_id` is an array, which the server refuses
    | ImmutableId     // an update that would change `_id`
    | NotImplemented  // the `deleteById` stub

  const IdField := "_id"
  const CreatedAt := "createdAt"
  const UpdatedAt := "updatedAt"

  // ---------------------------------------------------------------- collections

  /** The collections the application declares a service for. */
  datatype Collection =
    | Testimonials | Experience | Talks | Publications | Patents | Copyrights
    | Startups | ResearchGrants | Gallery | PhdGuide | LearningResources | Login

  /** The collection name each service instance is constructed with. */
  function CollectionName(c: Collection): string {
    match c
    case Testimonials => "testimonials"
    case Experience => "experience"
    case Talks => "talks"
    case Publications => "publications"
    case Patents => "patents"
    case Copyrights => "copyrights"
    case Startups => "startups"
    case ResearchGrants => "researchGrants"
    case Gallery => "gallery"
    case PhdGuide => "phdguide"
    case LearningResources => "learningresources"
    case Login => "login"
  }

  /** No two services share a collection. */
  lemma CollectionNamesDistinct(a: Collection, b: Collection)
    requires CollectionName(a) == CollectionName(b)
    ensures a == b
  {
  }

  // ---------------------------------------------------------------- write policy

  /**
   * The fields `create` stores for a body: the caller's fields with both
   * timestamps set to `now`, whatever the caller supplied for them.
   */
  function Stamped(data: Record, now: int): (r: Record)
    ensures CreatedAt in r && r[CreatedAt] == Date(now)
    ensures UpdatedAt in r && r[UpdatedAt] == Date(now)
    ensures IdField !in r
    ensures forall f :: f != CreatedAt && f != UpdatedAt && f != IdField ==>
                          (f in r <==> f in data) && (f in data ==> r[f] == data[f])
  {
    (data - {IdField})[CreatedAt := Date(now)][UpdatedAt := Date(now)]
  }

  /**
   * The `_id` an insert of `data` gets: the body's own, or the next generated
   * one when the body has none or a null one (the driver fills in an `_id` that
   * is `null` as it does a missing one).
   */
  function KeyFor(data: Record, next: nat): (k: Key)
    ensures k.Supplied? <==> IdField in data && data[IdField] != Null
    ensures k.Supplied? ==> k.v == data[IdField]
    ensures k.Generated? ==> k.n == next
  {
    if IdField in data && data[IdField] != Null then Supplied(data[IdField]) else Generated(next)
  }

  /** The server refuses to store a document whose `_id` is an array. */
  predicate ArrayKeyed(data: Record) {
    IdField in data && data[IdField].Arr?
  }

  /**
   * The fields after `$set` of `partial` plus a fresh `updatedAt`: every key of
   * `partial` takes its new value, every other field is kept, `updatedAt` is `now`.
   */
  function Merged(fields: Record, partial: Record, now: int): (r: Record)
    ensures UpdatedAt in r && r[UpdatedAt] == Date(now)
    ensures forall f :: f != UpdatedAt ==> (f in r <==> f in fields || f in partial)
    ensures forall f :: f != UpdatedAt && f in partial ==> r[f] == partial[f]
    ensures forall f :: f != UpdatedAt && f !in partial && f in fields ==> r[f] == fields[f]
  {
    (fields + partial)[UpdatedAt := Date(now)]
  }

  /** The key a lookup by `new ObjectId(id)` can find. */
  function Target(id: IdArg): (k: Option<Key>)
    ensures k.Some? <==> id.Oid?
  {
    if id.Oid? then Some(Generated(id.n)) else None
  }

  /** The equality filter `{ username }`: the field equals the value, or is an array holding it. */
  predicate HasUsername(fields: Record, username: string) {
    UsernameField in fields &&
    (fields[UsernameField] == Str(username) ||
     (fields[UsernameField].Arr? && Str(username) in fields[UsernameField].items))
  }

  const UsernameField := "username"

  // ---------------------------------------------------------------- read order

  /** The creation time of a document, when its `createdAt` is a date. */
  function CreatedStamp(d: Doc): Option<int> {
    if CreatedAt in d.fields && d.fields[CreatedAt].Date? then Some(d.fields[CreatedAt].ms) else None
  }

  /**
   * `a` may come before `b` under `sort({ createdAt: -1 })`: dates sort after
   * every value a JSON body can carry, so a document whose `createdAt` was
   * overwritten with such a value sorts behind every dated one.
   */
  predicate NotOlder(a: Doc, b: Doc) {
    match CreatedStamp(b)
    case None => true
    case Some(tb) => CreatedStamp(a).Some? && CreatedStamp(a).value >= tb
  }

  lemma NotOlderTotal(a: Doc, b: Doc)
    ensures NotOlder(a, b) || NotOlder(b, a)
  {
  }

  lemma NotOlderTransitive(a: Doc, b: Doc, c: Doc)
    requires NotOlder(a, b) && NotOlder(b, c)
    ensures NotOlder(a, c)
  {
  }

  /** Most recently created first. */
  predicate NewestFirst(s: seq<Doc>) {
    forall i, j :: 0 <= i < j < |s| ==> NotOlder(s[i], s[j])
  }

  /** Insert `d` into a newest-first listing, in front of the first document not newer than it. */
  function InsertByAge(s: seq<Doc>, d: Doc): (r: seq<Doc>)
    ensures multiset(r) == multiset(s) + multiset{d}
    ensures NewestFirst(s) ==> NewestFirst(r)
  {
    if s == [] then [d]
    else if NotOlder(d, s[0]) then
      assert NewestFirst(s) ==> forall j :: 0 <= j < |s| ==> NotOlder(d, s[j]) by {
        if NewestFirst(s) {
          forall j | 0 <= j < |s| ensures NotOlder(d, s[j]) {
            if j > 0 { NotOlderTransitive(d, s[0], s[j]); }
          }
        }
      }
      [d] + s
    else
      var rest := InsertByAge(s[1..], d);
      assert s == [s[0]] + s[1..];
      assert NewestFirst(s) ==> NewestFirst([s[0]] + rest) by {
        if NewestFirst(s) {
          NotOlderTotal(d, s[0]);
          forall x | x in rest ensures NotOlder(s[0], x) {
            assert x in multiset(rest);
            if x != d {
              assert x in multiset(s[1..]);
              var j :| 0 <= j < |s[1..]| && s[1..][j] == x;
              assert s[j + 1] == x;
            }
          }
          assert NewestFirst(s[1..]);
        }
      }
      [s[0]] + rest
  }

  /** The documents of a collection, each with its `_id`. */
  function Listing(docs: map<Key, Record>): (r: set<Doc>)
    ensures forall d :: d in r <==> d.id in docs && docs[d.id] == d.fields
  {
    set k | k in docs :: Doc(k, docs[k])
  }

  lemma ListingAdd(docs: map<Key, Record>, k: Key, fields: Record)
    requires k !in docs
    ensures multiset(Listing(docs[k := fields])) == multiset(Listing(docs)) + multiset{Doc(k, fields)}
  {
    assert Listing(docs[k := fields]) == Listing(docs) + {Doc(k, fields)};
    assert Doc(k, fields) !in Listing(docs);
  }

  /**
   * A newest-first listing of a collection: the order in which a later document
   * comes out ahead of an earlier one when they carry different creation times.
   */
  lemma NewerComesFirst(s: seq<Doc>, i: int, j: int)
    requires NewestFirst(s) && 0 <= i < |s| && 0 <= j < |s|
    requires CreatedStamp(s[i]).Some? && CreatedStamp(s[j]).Some?
    requires CreatedStamp(s[i]).value > CreatedStamp(s[j]).value
    ensures i < j
  {
  }

  // ---------------------------------------------------------------- the service

  /**
   * `DatabaseService<T>` over one collection. `docs` is the collection's content;
   * `nextKey` is the supply of fresh identifiers; `clock` is the time in
   * milliseconds that `new Date()` reads; `online` says whether the database can
   * be reached at all.
   */
  class DatabaseService {
    const collectionName: string
    var docs: map<Key, Record>
    var nextKey: nat
    var clock: int
    var online: bool

    /** The store's own bookkeeping: `_id` kept apart, generated ids fresh, `updatedAt` a past date. */
    ghost predicate Valid()
      reads this
    {
      && (forall k :: k in docs ==> IdField !in docs[k])
      && (forall k :: k in docs && k.Generated? ==> k.n < nextKey)
      && (forall k :: k in docs ==> UpdatedAt in docs[k] && docs[k][UpdatedAt].Date? && docs[k][UpdatedAt].ms <= clock)
    }

    /** Every document still has a `createdAt` date no later than its `updatedAt`. */
    ghost predicate StampsOrdered()
      reads this
      requires Valid()
    {
      forall k :: k in docs ==>
        CreatedAt in docs[k] && docs[k][CreatedAt].Date? && docs[k][CreatedAt].ms <= docs[k][UpdatedAt].ms
    }

    constructor (name: string, now: int)
      ensures Valid() && StampsOrdered()
      ensures collectionName == name && docs == map[] && clock == now && online
    {
      collectionName := name;
      docs := map[];
      nextKey := 0;
      clock := now;
      online := true;
    }

    /** Time passes. */
    method Advance(ms: nat)
      requires Valid()
      modifies this
      ensures Valid()
      ensures clock == old(clock) + ms
      ensures docs == old(docs) && nextKey == old(nextKey) && online == old(online)
      ensures old(StampsOrdered()) ==> StampsOrdered()
    {
      clock := clock + ms;
    }

    /** The database becomes reachable or unreachable. */
    method SetOnline(up: bool)
      requires Valid()
      modifies this`online
      ensures Valid() && online == up
    {
      online := up;
    }

    /** `create(data)`: insert the caller's fields, stamped with the current time. */
    method Create(data: Record) returns (r: Result<Doc, StoreError>)
      requires Valid()
      modifies this`docs, this`nextKey
      ensures Valid()
      ensures !online ==> r == Err(Unavailable) && docs == old(docs) && nextKey == old(nextKey)
      ensures online && ArrayKeyed(data) ==>
                r == Err(ArrayId) && docs == old(docs) && nextKey == old(nextKey)
      ensures online && !ArrayKeyed(data) && KeyFor(data, old(nextKey)) in old(docs) ==>
                && KeyFor(data, old(nextKey)).Supplied?
                && r == Err(DuplicateKey) && docs == old(docs) && nextKey == old(nextKey)
      ensures online && !ArrayKeyed(data) && KeyFor(data, old(nextKey)) !in old(docs) ==>
                var key := KeyFor(data, old(nextKey));
                && r == Ok(Doc(key, Stamped(data, clock)))
                && docs == old(docs)[key := Stamped(data, clock)]
                && nextKey == (if key.Generated? then old(nextKey) + 1 else old(nextKey))
      ensures old(StampsOrdered()) ==> StampsOrdered()
    {
      if !online {
        return Err(Unavailable);
      }
      if ArrayKeyed(data) {
        return Err(ArrayId);
      }
      var key := KeyFor(data, nextKey);
      if key in docs {
        return Err(DuplicateKey);
      }
      var fields := Stamped(data, clock);
      docs := docs[key := fields];
      if key.Generated? {
        nextKey := nextKey + 1;
      }
      r := Ok(Doc(key, fields));
    }

    /** `findAll()`: every document, most recently created first. */
    method FindAll() returns (r: Result<seq<Doc>, StoreError>)
      ensures !online ==> r == Err(Unavailable)
      ensures online ==> r.Ok? && NewestFirst(r.value) && multiset(r.value) == multiset(Listing(docs))
    {
      if !online {
        return Err(Unavailable);
      }
      var pending := docs.Keys;
      var listing: seq<Doc> := [];
      while pending != {}
        invariant pending <= docs.Keys
        invariant NewestFirst(listing)
        invariant multiset(listing) == multiset(Listing(docs - pending))
        decreases |pending|
      {
        var k :| k in pending;
        assert docs - (pending - {k}) == (docs - pending)[k := docs[k]];
        ListingAdd(docs - pending, k, docs[k]);
        listing := InsertByAge(listing, Doc(k, docs[k]));
        pending := pending - {k};
      }
      assert docs - pending == docs;
      r := Ok(listing);
    }

    /** `findOne(username)`: some document whose `username` matches, or none. */
    method FindOne(username: string) returns (r: Result<Option<Doc>, StoreError>)
      ensures !online ==> r == Err(Unavailable)
      ensures online ==> r.Ok?
      ensures r.Ok? ==> (r.value.Some? <==> exists k :: k in docs && HasUsername(docs[k], username))
      ensures r.Ok? && r.value.Some? ==>
                r.value.value in Listing(docs) && HasUsername(r.value.value.fields, username)
    {
      if !online {
        return Err(Unavailable);
      }
      if k :| k in docs && HasUsername(docs[k], username) {
        r := Ok(Some(Doc(k, docs[k])));
      } else {
        r := Ok(None);
      }
    }

    /** `findById(id)`: the document `new ObjectId(id)` names, or none. */
    method FindById(id: Option<Value>) returns (r: Result<Option<Doc>, StoreError>)
      ensures !online ==> r == Err(Unavailable)
      ensures online && FromValue(id).Malformed? ==> r == Err(BadId)
      ensures online && !FromValue(id).Malformed? ==> r.Ok?
      ensures r.Ok? ==> (r.value.Some? <==> Target(FromValue(id)).Some? && Target(FromValue(id)).value in docs)
      ensures r.Ok? && r.value.Some? ==>
                r.value.value.id == Target(FromValue(id)).value && r.value.value in Listing(docs)
    {
      if !online {
        return Err(Unavailable);
      }
      var oid := FromValue(id);
      if oid.Malformed? {
        return Err(BadId);
      }
      var target := Target(oid);
      if target.Some? && target.value in docs {
        r := Ok(Some(Doc(target.value, docs[target.value])));
      } else {
        r := Ok(None);
      }
    }

    /**
     * `update(id, partial)`: `$set` the partial and a fresh `updatedAt` on the
     * document `new ObjectId(id)` names, and return it as it is afterwards; a
     * missing document is reported as none and nothing is inserted.
     */
    method Update(id: Option<Value>, partial: Record) returns (r: Result<Option<Doc>, StoreError>)
      requires Valid()
      modifies this`docs
      ensures Valid()
      ensures !online ==> r == Err(Unavailable) && docs == old(docs)
      ensures online && FromValue(id).Malformed? ==> r == Err(BadId) && docs == old(docs)
      ensures online && !FromValue(id).Malformed? && !(Target(FromValue(id)).Some? && Target(FromValue(id)).value in old(docs)) ==>
                r == Ok(None) && docs == old(docs)
      ensures online && Target(FromValue(id)).Some? && Target(FromValue(id)).value in old(docs) ==>
                var key := Target(FromValue(id)).value;
                if IdField in partial then
                  r == Err(ImmutableId) && docs == old(docs)
                else
                  && r == Ok(Some(Doc(key, Merged(old(docs)[key], partial, clock))))
                  && docs == old(docs)[key := Merged(old(docs)[key], partial, clock)]
      ensures old(StampsOrdered()) && CreatedAt !in partial ==> StampsOrdered()
    {
      if !online {
        return Err(Unavailable);
      }
      var oid := FromValue(id);
      if oid.Malformed? {
        return Err(BadId);
      }
      var target := Target(oid);
      if target.None? || target.value !in docs {
        return Ok(None);
      }
      if IdField in partial {
        return Err(ImmutableId);
      }
      var key := target.value;
      var fields := Merged(docs[key], partial, clock);
      docs := docs[key := fields];
      r := Ok(Some(Doc(key, fields)));
    }

    /** `delete(id)`: remove the document `new ObjectId(id)` names; true iff one was removed. */
    method Delete(id: Option<Value>) returns (r: Result<bool, StoreError>)
      requires Valid()
      modifies this`docs
      ensures Valid()
      ensures !online ==> r == Err(Unavailable) && docs == old(docs)
      ensures online && FromValue(id).Malformed? ==> r == Err(BadId) && docs == old(docs)
      ensures online && !FromValue(id).Malformed? ==>
                var target := Target(FromValue(id));
                && r == Ok(target.Some? && target.value in old(docs))
                && docs == (if target.Some? then old(docs) - {target.value} else old(docs))
      ensures old(StampsOrdered()) ==> StampsOrdered()
    {
      if !online {
        return Err(Unavailable);
      }
      var oid := FromValue(id);
      if oid.Malformed? {
        return Err(BadId);
      }
      var target := Target(oid);
      if target.Some? {
        r := Ok(target.value in docs);
        docs := docs - {target.value};
      } else {
        r := Ok(false);
      }
    }

    /**
     * `deleteById(arg)`: a stub that throws "Method not implemented." and touches
     * nothing; it never reads its argument.
     */
    method DeleteById(arg: Option<Value>) returns (r: Result<bool, StoreError>)
      ensures r == Err(NotImplemented)
    {
      r := Err(NotImplemented);
    }
  }

  /** Deleting the same id twice: the second call never reports a removal. */
  method DeleteTwice(svc: DatabaseService, id: Option<Value>) returns (first: Result<bool, StoreError>, second: Result<bool, StoreError>)
    requires svc.Valid()
    modifies svc`docs
    ensures svc.Valid()
    ensures second.Ok? <==> first.Ok?
    ensures second.Ok? ==> second.value == false
  {
    first := svc.Delete(id);
    second := svc.Delete(id);
  }

  /** Creating a record without an `_id`: it is stored under the next generated id, whose text finds it. */
  method CreateFresh(svc: DatabaseService, data: Record) returns (created: Result<Doc, StoreError>, id: Option<Value>)
    requires svc.Valid() && svc.online && svc.nextKey < IdSpace
    requires IdField !in data
    modifies svc`docs, svc`nextKey
    ensures svc.Valid() && svc.online && svc.clock == old(svc.clock)
    ensures created == Ok(Doc(Generated(old(svc.nextKey)), Stamped(data, svc.clock)))
    ensures svc.docs == old(svc.docs)[Generated(old(svc.nextKey)) := Stamped(data, svc.clock)]
    ensures id == Some(Str(IdText(old(svc.nextKey))))
    ensures Target(FromValue(id)) == Some(Generated(old(svc.nextKey)))
  {
    var key := Generated(svc.nextKey);
    created := svc.Create(data);
    IdTextRoundTrip(key.n);
    id := Some(Str(IdText(key.n)));
  }

  /** Updating a stored record some time later: the partial is merged in under the later time. */
  method UpdateLater(svc: DatabaseService, id: Option<Value>, partial: Record, later: nat)
    returns (updated: Result<Option<Doc>, StoreError>)
    requires svc.Valid() && svc.online
    requires Target(FromValue(id)).Some? && Target(FromValue(id)).value in svc.docs
    requires IdField !in partial
    modifies svc
    ensures svc.Valid() && svc.online && svc.nextKey == old(svc.nextKey)
    ensures var key := Target(FromValue(id)).value;
            var fields := Merged(old(svc.docs)[key], partial, old(svc.clock) + later);
            && updated == Ok(Some(Doc(key, fields)))
            && svc.docs == old(svc.docs)[key := fields]
  {
    svc.Advance(later);
    updated := svc.Update(id, partial);
  }

  /**
   * Creating a record without an `_id` and later updating it through the text
   * of its generated identifier: the update finds the record, keeps its
   * creation time and sets the partial's fields and a later `updatedAt`.
   */
  method CreateThenUpdate(svc: DatabaseService, data: Record, partial: Record, later: nat)
    returns (created: Result<Doc, StoreError>, updated: Result<Option<Doc>, StoreError>, id: Option<Value>)
    requires svc.Valid() && svc.online && svc.nextKey < IdSpace
    requires IdField !in data && IdField !in partial
    modifies svc
    ensures svc.Valid() && svc.online
    ensures created == Ok(Doc(Generated(old(svc.nextKey)), Stamped(data, old(svc.clock))))
    ensures id == Some(Str(IdText(old(svc.nextKey))))
    ensures updated == Ok(Some(Doc(Generated(old(svc.nextKey)),
                                   Merged(Stamped(data, old(svc.clock)), partial, old(svc.clock) + later))))
    ensures svc.docs == old(svc.docs)[Generated(old(svc.nextKey)) := updated.value.value.fields]
  {
    var key := Generated(svc.nextKey);
    var stamped := Stamped(data, svc.clock);
    ghost var docs0, clock0 := svc.docs, svc.clock;
    created, id := CreateFresh(svc, data);
    assert Target(FromValue(id)) == Some(key) && svc.docs == docs0[key := stamped];
    assert svc.docs[key] == stamped && svc.clock == clock0;
    updated := UpdateLater(svc, id, partial, later);
    ghost var fields := Merged(stamped, partial, clock0 + later);
    assert updated == Ok(Some(Doc(key, fields))) && svc.docs == docs0[key := stamped][key := fields];
    MapOverwrite(docs0, key, stamped, fields);
  }

  /** A body whose `_id` is null is stored under a generated id, as often as it is sent. */
  method CreateNullIdTwice(svc: DatabaseService, data: Record)
    returns (first: Result<Doc, StoreError>, second: Result<Doc, StoreError>)
    requires svc.Valid() && svc.online
    requires IdField in data && data[IdField] == Null
    modifies svc`docs, svc`nextKey
    ensures svc.Valid() && svc.nextKey == old(svc.nextKey) + 2
    ensures first == Ok(Doc(Generated(old(svc.nextKey)), Stamped(data, svc.clock)))
    ensures second == Ok(Doc(Generated(old(svc.nextKey) + 1), Stamped(data, svc.clock)))
    ensures svc.docs == old(svc.docs)[Generated(old(svc.nextKey)) := Stamped(data, svc.clock)]
                                     [Generated(old(svc.nextKey) + 1) := Stamped(data, svc.clock)]
  {
    assert Generated(svc.nextKey) !in svc.docs;
    first := svc.Create(data);
    assert Generated(svc.nextKey) !in svc.docs;
    second := svc.Create(data);
  }

  /** A second write to the same key replaces the first. */
  lemma MapOverwrite<K, V>(m: map<K, V>, k: K, a: V, b: V)
    ensures m[k := a][k := b] == m[k := b]
  {
  }

  /** Deleting a stored record by its id removes it, and a lookup then finds nothing. */
  method DeleteThenFind(svc: DatabaseService, id: Option<Value>)
    returns (deleted: Result<bool, StoreError>, found: Result<Option<Doc>, StoreError>)
    requires svc.Valid() && svc.online
    requires Target(FromValue(id)).Some? && Target(FromValue(id)).value in svc.docs
    modifies svc`docs
    ensures svc.Valid()
    ensures deleted == Ok(true) && found == Ok(None)
    ensures svc.docs == old(svc.docs) - {Target(FromValue(id)).value}
  {
    deleted := svc.Delete(id);
    found := svc.FindById(id);
  }

  /**
   * A record's whole life: created, updated through the text of its
   * identifier, deleted, and then not found; the store ends as it began.
   */
  method CreateUpdateDelete(svc: DatabaseService, data: Record, partial: Record, later: nat)
    returns (deleted: Result<bool, StoreError>, found: Result<Option<Doc>, StoreError>)
    requires svc.Valid() && svc.online && svc.nextKey < IdSpace
    requires IdField !in data && IdField !in partial
    modifies svc
    ensures svc.Valid()
    ensures deleted == Ok(true) && found == Ok(None)
    ensures svc.docs == old(svc.docs)
  {
    var key := Generated(svc.nextKey);
    assert key !in svc.docs;
    var created, updated, id := CreateThenUpdate(svc, data, partial, later);
    IdTextRoundTrip(key.n);
    deleted, found := DeleteThenFind(svc, id);
    assert svc.docs == old(svc.docs)[key := updated.value.value.fields] - {key};
  }
}
