/**
 * The route handlers of the five resources that carry decision logic:
 * testimonials, experience and gallery (list, and create behind the session
 * cookie), learning resources (list, create, update and delete, with a missing
 * document answered by 404) and the PhD guide (list, create, and a delete that
 * always fails). Each handler catches whatever the store throws and answers
 * 500 with a message of its own.
 */
module ResourceRoutes {
  import opened Wrappers
  import opened Json
  import opened ObjectIds
  import opened Database
  import opened Http

  datatype Resource = Testimonials | Experience | Gallery | LearningResources | PhdGuide

  /** The service instance each route file imports. */
  function StoreOf(res: Resource): Collection {
    match res
    case Testimonials => Collection.Testimonials
    case Experience => Collection.Experience
    case Gallery => Collection.Gallery
    case LearningResources => Collection.LearningResources
    case PhdGuide => Collection.PhdGuide
  }

  /** The handlers each route file exports; the framework answers any other method with 405. */
  function Exports(res: Resource): set<HttpMethod> {
    match res
    case LearningResources => {GET, POST, PUT, DELETE}
    case PhdGuide => {GET, POST, DELETE}
    case _ => {GET, POST}
  }

  /** Whether the file's POST handler tests the session cookie first. */
  predicate Gated(res: Resource) {
    res == Resource.Testimonials || res == Resource.Experience || res == Resource.Gallery
  }

  function FetchFailure(res: Resource): string {
    match res
    case Testimonials => "Failed to fetch testimonials"
    case Experience => "Failed to fetch experiences"
    case Gallery => "Failed to fetch gallery"
    case LearningResources => "Failed to fetch resources"
    case PhdGuide => "Failed to fetch entries"
  }

  function CreateFailure(res: Resource): string {
    match res
    case Testimonials => "Failed to create testimonial"
    case Experience => "Failed to create experience"
    case Gallery => "Failed to create gallery item"
    case LearningResources => "Failed to create resource"
    case PhdGuide => "Failed to create entry"
  }

  const UpdateFailure := "Failed to update resource"
  const DeleteResourceFailure := "Failed to delete resource"
  const DeleteEntryFailure := "Failed to delete entry"
  const NotFound: Response := Reply(404, Failure("Not found"))
  const MethodNotAllowed: Response := Reply(405, Unhandled)

  /** The service a handler works on is the one its route file imports. */
  predicate Serves(res: Resource, svc: DatabaseService) {
    svc.collectionName == CollectionName(StoreOf(res))
  }

  // ---------------------------------------------------------------- decisions

  /**
   * The session gate of a POST handler: `Some(401)` when the handler is gated
   * and the cookie is missing or empty, in which case nothing else runs;
   * `None` when the handler goes on, whatever the cookie's value.
   */
  function PostGate(res: Resource, cookies: map<string, string>): (r: Option<Response>)
    ensures r.Some? <==> Gated(res) && !HasSession(cookies)
    ensures r.Some? ==> r.value == Unauthorized
  {
    if Gated(res) && !HasSession(cookies) then Some(Unauthorized) else None
  }

  /** What a list handler answers for a `findAll` outcome. */
  function ListReply(res: Resource, r: Result<seq<Doc>, StoreError>): Response {
    if r.Ok? then Ok200(Documents(r.value)) else ServerFailure(FetchFailure(res))
  }

  /** What a create handler answers for a `create` outcome. */
  function CreateReply(res: Resource, r: Result<Doc, StoreError>): Response {
    if r.Ok? then Ok200(Document(r.value)) else ServerFailure(CreateFailure(res))
  }

  /** The learning-resources PUT: a null `update` result is 404, a document is 200, a throw is 500. */
  function UpdateReply(r: Result<Option<Doc>, StoreError>): (resp: Response)
    ensures resp.status == 404 <==> r == Ok(None)
    ensures resp.status == 200 <==> r.Ok? && r.value.Some?
    ensures resp.status == 200 ==> resp.payload == Document(r.value.value)
    ensures r.Err? ==> resp == ServerFailure(UpdateFailure)
    ensures resp.status == 404 ==> resp == NotFound
  {
    match r
    case Err(_) => ServerFailure(UpdateFailure)
    case Ok(None) => NotFound
    case Ok(Some(d)) => Ok200(Document(d))
  }

  /** The learning-resources DELETE: false is 404, true is `{ success: true }`, a throw is 500. */
  function DeleteReply(r: Result<bool, StoreError>): (resp: Response)
    ensures resp == NotFound <==> r == Ok(false)
    ensures resp == Ok200(Succeeded) <==> r == Ok(true)
    ensures r.Err? ==> resp == ServerFailure(DeleteResourceFailure)
  {
    match r
    case Err(_) => ServerFailure(DeleteResourceFailure)
    case Ok(false) => NotFound
    case Ok(true) => Ok200(Succeeded)
  }

  /**
   * `data.id`, and the `id` of `const { id } = data`: a property read that throws
   * (`None`) on `null`; only an object can carry an `id`.
   */
  function IdProperty(data: Value): (r: Option<Option<Value>>)
    ensures r.None? <==> data.Null?
    ensures r.Some? && r.value.Some? <==> data.Obj? && "id" in data.fields
    ensures r.Some? && r.value.Some? ==> r.value.value == data.fields["id"]
  {
    if data.Null? then None
    else if data.Obj? && "id" in data.fields then Some(Some(data.fields["id"]))
    else Some(None)
  }

  // ---------------------------------------------------------------- handlers

  /** `GET`: the store's `findAll` result as it is, or 500 when the store throws. */
  method Get(res: Resource, svc: DatabaseService) returns (resp: Response)
    requires Serves(res, svc)
    ensures !svc.online ==> resp == ServerFailure(FetchFailure(res))
    ensures svc.online ==>
              && resp.status == 200 && resp.payload.Documents?
              && NewestFirst(resp.payload.docs)
              && multiset(resp.payload.docs) == multiset(Listing(svc.docs))
  {
    var r := svc.FindAll();
    resp := ListReply(res, r);
  }

  /**
   * `POST`: refused by a gated file without a session; otherwise the body goes
   * to `create` (which spreads it) and the stored document comes back.
   */
  method Post(res: Resource, svc: DatabaseService, req: Request) returns (resp: Response)
    requires Serves(res, svc) && svc.Valid()
    modifies svc`docs, svc`nextKey
    ensures svc.Valid()
    ensures old(svc.StampsOrdered()) ==> svc.StampsOrdered()
    ensures Gated(res) && !HasSession(req.cookies) ==>
              resp == Unauthorized && svc.docs == old(svc.docs) && svc.nextKey == old(svc.nextKey)
    ensures !(Gated(res) && !HasSession(req.cookies)) && (req.body.Unparsable? || !svc.online) ==>
              resp == ServerFailure(CreateFailure(res))
              && svc.docs == old(svc.docs) && svc.nextKey == old(svc.nextKey)
    ensures !(Gated(res) && !HasSession(req.cookies)) && req.body.Parsed? && svc.online ==>
              var data := Spread(req.body.v);
              var key := KeyFor(data, old(svc.nextKey));
              if ArrayKeyed(data) || key in old(svc.docs) then
                resp == ServerFailure(CreateFailure(res))
                && svc.docs == old(svc.docs) && svc.nextKey == old(svc.nextKey)
              else
                && resp == Ok200(Document(Doc(key, Stamped(data, svc.clock))))
                && svc.docs == old(svc.docs)[key := Stamped(data, svc.clock)]
  {
    var refused := PostGate(res, req.cookies);
    if refused.Some? {
      return refused.value;
    }
    if req.body.Unparsable? {
      return ServerFailure(CreateFailure(res));
    }
    var r := svc.Create(Spread(req.body.v));
    resp := CreateReply(res, r);
  }

  /** The learning-resources `PUT`: `update(data.id, data)`, the whole body being the partial. */
  method PutResource(svc: DatabaseService, req: Request) returns (resp: Response)
    requires Serves(Resource.LearningResources, svc) && svc.Valid()
    modifies svc`docs
    ensures svc.Valid()
    ensures req.body.Unparsable? || req.body == Parsed(Null) || !svc.online ==>
              resp == ServerFailure(UpdateFailure) && svc.docs == old(svc.docs)
    ensures req.body.Parsed? && req.body.v != Null && svc.online ==>
              var id := IdProperty(req.body.v).value;
              var partial := Spread(req.body.v);
              var target := Target(FromValue(id));
              if FromValue(id).Malformed? then
                resp == ServerFailure(UpdateFailure) && svc.docs == old(svc.docs)
              else if !(target.Some? && target.value in old(svc.docs)) then
                resp == NotFound && svc.docs == old(svc.docs)
              else if IdField in partial then
                resp == ServerFailure(UpdateFailure) && svc.docs == old(svc.docs)
              else
                && resp == Ok200(Document(Doc(target.value, Merged(old(svc.docs)[target.value], partial, svc.clock))))
                && svc.docs == old(svc.docs)[target.value := Merged(old(svc.docs)[target.value], partial, svc.clock)]
  {
    if req.body.Unparsable? {
      return ServerFailure(UpdateFailure);
    }
    var id := IdProperty(req.body.v);
    if id.None? {
      return ServerFailure(UpdateFailure);
    }
    var r := svc.Update(id.value, Spread(req.body.v));
    resp := UpdateReply(r);
  }

  /** The learning-resources `DELETE`: `delete(id)` with the body's `id`. */
  method DeleteResource(svc: DatabaseService, req: Request) returns (resp: Response)
    requires Serves(Resource.LearningResources, svc) && svc.Valid()
    modifies svc`docs
    ensures svc.Valid()
    ensures old(svc.StampsOrdered()) ==> svc.StampsOrdered()
    ensures req.body.Unparsable? || req.body == Parsed(Null) || !svc.online ==>
              resp == ServerFailure(DeleteResourceFailure) && svc.docs == old(svc.docs)
    ensures req.body.Parsed? && req.body.v != Null && svc.online ==>
              var id := FromValue(IdProperty(req.body.v).value);
              if id.Malformed? then
                resp == ServerFailure(DeleteResourceFailure) && svc.docs == old(svc.docs)
              else
                var target := Target(id);
                && (resp == Ok200(Succeeded) <==> target.Some? && target.value in old(svc.docs))
                && (resp == Ok200(Succeeded) || resp == NotFound)
                && svc.docs == (if target.Some? then old(svc.docs) - {target.value} else old(svc.docs))
  {
    if req.body.Unparsable? {
      return ServerFailure(DeleteResourceFailure);
    }
    var id := IdProperty(req.body.v);
    if id.None? {
      return ServerFailure(DeleteResourceFailure);
    }
    var r := svc.Delete(id.value);
    resp := DeleteReply(r);
  }

  /** The PhD-guide `DELETE`: it reaches the throwing `deleteById` stub, so it always fails. */
  method DeleteEntry(svc: DatabaseService, req: Request) returns (resp: Response)
    requires Serves(Resource.PhdGuide, svc)
    ensures resp == ServerFailure(DeleteEntryFailure)
  {
    if req.body.Unparsable? {
      return ServerFailure(DeleteEntryFailure);
    }
    var id := IdProperty(req.body.v);
    if id.None? {
      return ServerFailure(DeleteEntryFailure);
    }
    var r := svc.DeleteById(id.value);
    if r.Ok? {
      // the 404 and `{ success: true }` answers after the call are never reached
      assert false;
    }
    resp := ServerFailure(DeleteEntryFailure);
  }

  /** A request to one of the five route files, dispatched on its method. */
  method Handle(res: Resource, m: HttpMethod, svc: DatabaseService, req: Request) returns (resp: Response)
    requires Serves(res, svc) && svc.Valid()
    modifies svc`docs, svc`nextKey
    ensures svc.Valid()
    ensures m !in Exports(res) ==> resp == MethodNotAllowed && svc.docs == old(svc.docs)
    ensures m == GET ==> svc.docs == old(svc.docs) && svc.nextKey == old(svc.nextKey)
    ensures res == Resource.PhdGuide && m == DELETE ==>
              resp == ServerFailure(DeleteEntryFailure) && svc.docs == old(svc.docs)
    ensures m != POST ==> svc.nextKey == old(svc.nextKey)
  {
    if m !in Exports(res) {
      return MethodNotAllowed;
    }
    match m
    case GET =>
      resp := Get(res, svc);
    case POST =>
      resp := Post(res, svc, req);
    case PUT =>
      resp := PutResource(svc, req);
    case DELETE =>
      if res == Resource.PhdGuide {
        resp := DeleteEntry(svc, req);
      } else {
        resp := DeleteResource(svc, req);
      }
  }

  // ---------------------------------------------------------------- properties

  /** The dashboard's PhD-guide editor sends PUT, which that route file has no handler for. */
  lemma PhdGuideHasNoPut()
    ensures PUT !in Exports(Resource.PhdGuide)
    ensures PUT in Exports(Resource.LearningResources)
  {
  }

  /** The PhD-guide editor's PUT reaches no handler: the framework answers 405 and the collection is untouched. */
  method PhdGuidePut(svc: DatabaseService, req: Request) returns (resp: Response)
    requires Serves(Resource.PhdGuide, svc) && svc.Valid()
    modifies svc`docs, svc`nextKey
    ensures svc.Valid()
    ensures resp == MethodNotAllowed && svc.docs == old(svc.docs) && svc.nextKey == old(svc.nextKey)
  {
    PhdGuideHasNoPut();
    resp := Handle(Resource.PhdGuide, PUT, svc, req);
  }

  /** Only the three gated files ever answer 401: learning resources and the PhD guide create for anyone. */
  lemma UngatedCreate(res: Resource, cookies: map<string, string>)
    ensures !Gated(res) ==> PostGate(res, cookies).None?
    ensures Gated(res) ==> (PostGate(res, cookies).None? <==> HasSession(cookies))
  {
  }

  /** Every cookie value but the empty one passes the gate. */
  lemma AnyTokenPasses(res: Resource, cookies: map<string, string>, token: string)
    requires token != ""
    ensures PostGate(res, cookies[AuthCookie := token]).None?
  {
  }

  /** Each route file reports its own failures. */
  lemma FailureMessagesDistinct(a: Resource, b: Resource)
    requires a != b
    ensures FetchFailure(a) != FetchFailure(b)
    ensures CreateFailure(a) != CreateFailure(b)
  {
  }

  /** The PUT writes the body's own `id` key into the stored document. */
  lemma PutStoresId(fields: Record, body: Record, now: int)
    requires "id" in body
    ensures var stored := Merged(fields, body, now);
            "id" in stored && stored["id"] == body["id"]
  {
  }
}
