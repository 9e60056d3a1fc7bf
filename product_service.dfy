/** `ProductService` (refactored.ts): create, read, update and delete of
    products, the writes inside a database session's transaction. The
    product store and the session are external; what they do is fixed by
    oracles, and the session records the calls made on it. */
module ProductService {
  import opened Wrappers
  import opened ProductAssembler

  const BadRequest := 400
  const NotFound := 404

  /** `CustomHttpException`: message, HTTP status and error code. */
  datatype HttpError = HttpError(message: string, status: int, code: string)

  const ProductCreationError := HttpError("Failed to create product", BadRequest, "PRODUCT_CREATION_ERROR")
  const ProductUpdateError := HttpError("Failed to update product", BadRequest, "PRODUCT_UPDATE_ERROR")
  const ProductDeletionError := HttpError("Failed to delete product", BadRequest, "PRODUCT_DELETION_ERROR")
  const ProductNotFound := HttpError("Could not find product", NotFound, "PRODUCT_NOT_FOUND")
  const ProductsNotFound := HttpError("No products found with the given criteria", NotFound, "PRODUCTS_NOT_FOUND")

  /** What a service call throws: one of its own HTTP errors, or an error
      of the store or the session that it lets through. */
  datatype Failure = Http(error: HttpError) | Passed(reason: string)

  /** A call made on a session. */
  datatype SessionStep = StartTransaction | CommitTransaction | AbortTransaction | EndSession

  /** The transaction envelope shared by create, update and delete: start a
      transaction; run the body and commit; on any failure of either, abort
      and throw `mapped` (or the abort's own error, should the abort throw);
      end the session in every case. */
  datatype Envelope<T> = Envelope(steps: seq<SessionStep>, result: Result<T, Failure>)

  function Transact<T>(body: Result<T, Failure>, commitFails: bool, abortFails: bool, mapped: HttpError): (r: Envelope<T>)
    ensures r.result.Ok? <==> body.Ok? && !commitFails
    ensures r.result.Ok? ==> r.result.value == body.value
    ensures r.result.Err? && !abortFails ==> r.result.error == Http(mapped)
  {
    if body.Ok? && !commitFails then
      Envelope([StartTransaction, CommitTransaction, EndSession], Ok(body.value))
    else
      var attempted := if body.Ok? then [CommitTransaction] else [];
      Envelope([StartTransaction] + attempted + [AbortTransaction, EndSession],
               if abortFails then Err(Passed("abort failed")) else Err(Http(mapped)))
  }

  /** Every envelope starts one transaction, ends the session exactly once
      and last, commits only when the body succeeded, and aborts exactly when
      the call fails. */
  lemma {:induction false} EnvelopeShape<T>(body: Result<T, Failure>, commitFails: bool, abortFails: bool, mapped: HttpError)
    ensures var e := Transact(body, commitFails, abortFails, mapped);
      && e.steps[0] == StartTransaction
      && e.steps[|e.steps| - 1] == EndSession
      && multiset(e.steps)[EndSession] == 1
      && multiset(e.steps)[StartTransaction] == 1
      && (CommitTransaction in e.steps ==> body.Ok?)
      && (AbortTransaction in e.steps <==> e.result.Err?)
  {
    var e := Transact(body, commitFails, abortFails, mapped);
    if body.Ok? && !commitFails {
      assert e.steps == [StartTransaction, CommitTransaction, EndSession];
    } else if body.Ok? {
      assert e.steps == [StartTransaction, CommitTransaction, AbortTransaction, EndSession];
    } else {
      assert e.steps == [StartTransaction, AbortTransaction, EndSession];
    }
  }

  /** Whatever the body throws, a failed write whose abort succeeds surfaces
      as the call's own error; a NOT_FOUND raised inside the body is hidden. */
  lemma {:induction false} BodyErrorRemapped<T>(reason: Failure, commitFails: bool, mapped: HttpError)
    ensures var body: Result<T, Failure> := Err(reason);
      Transact(body, commitFails, false, mapped).result == Err(Http(mapped))
  {
  }

  /** A database session (`ClientSession`). */
  class ClientSession {
    var steps: seq<SessionStep>
    const commitFails: bool
    const abortFails: bool

    constructor(commitFails: bool, abortFails: bool)
      ensures steps == [] && this.commitFails == commitFails && this.abortFails == abortFails
    {
      steps := [];
      this.commitFails := commitFails;
      this.abortFails := abortFails;
    }

    method Start()
      modifies this
      ensures steps == old(steps) + [StartTransaction]
    {
      steps := steps + [StartTransaction];
    }

    method Commit() returns (ok: bool)
      modifies this
      ensures steps == old(steps) + [CommitTransaction]
      ensures ok <==> !commitFails
    {
      steps := steps + [CommitTransaction];
      ok := !commitFails;
    }

    method Abort() returns (ok: bool)
      modifies this
      ensures steps == old(steps) + [AbortTransaction]
      ensures ok <==> !abortFails
    {
      steps := steps + [AbortTransaction];
      ok := !abortFails;
    }

    method End()
      modifies this
      ensures steps == old(steps) + [EndSession]
    {
      steps := steps + [EndSession];
    }
  }

  /** The query filters of `findAll`. */
  datatype ProductFilters = ProductFilters(category: Option<string>, minPrice: Option<int>, maxPrice: Option<int>)

  /** `ProductRepository`: what each query answers, or the error it throws.
      `products` are the stored products by id, `findError` the error
      `findById` throws for an id, if any; `saved` records the fields of
      every product saved. */
  class ProductRepository {
    const create: ProductFields -> Result<string, string>
    const findError: string -> Option<string>
    const products: map<string, Product>
    const saveFails: Option<string>
    const deleteById: string -> Result<int, string>
    const findAll: ProductFilters -> Result<seq<Product>, string>
    var saved: seq<ProductFields>

    constructor(create: ProductFields -> Result<string, string>,
                findError: string -> Option<string>, products: map<string, Product>,
                saveFails: Option<string>, deleteById: string -> Result<int, string>,
                findAll: ProductFilters -> Result<seq<Product>, string>)
      ensures this.create == create && this.findError == findError && this.products == products && this.saveFails == saveFails
      ensures this.deleteById == deleteById && this.findAll == findAll && saved == []
    {
      this.create := create;
      this.findError := findError;
      this.products := products;
      this.saveFails := saveFails;
      this.deleteById := deleteById;
      this.findAll := findAll;
      saved := [];
    }

    /** `updateProduct`: saves the product's current fields. */
    method Save(p: Product) returns (r: Result<(), string>)
      modifies this
      ensures saveFails.None? ==> r.Ok? && saved == old(saved) + [p.Fields()]
      ensures saveFails.Some? ==> r == Err(saveFails.value) && saved == old(saved)
    {
      if saveFails.Some? {
        return Err(saveFails.value);
      }
      saved := saved + [p.Fields()];
      r := Ok(());
    }

    /** `findById`: the product with the id, if any, or the error. */
    function FindById(id: string): (r: Result<Option<Product>, string>)
      ensures r.Ok? <==> findError(id).None?
      ensures r.Ok? ==> (r.value.Some? <==> id in products)
    {
      if findError(id).Some? then Err(findError(id).value)
      else if id in products then Ok(Some(products[id]))
      else Ok(None)
    }

    /** The product `findById` finds, as a set of at most one object. */
    function Found(id: string): set<Product> {
      if findError(id).None? && id in products then {products[id]} else {}
    }
  }

  /** The outcome of the body of `createProduct`. */
  function CreateBody(repo: ProductRepository, dto: CreateProductDto): Result<string, Failure> {
    var created := repo.create(FromCreateDto(dto));
    if created.Ok? then Ok(created.value) else Err(Passed(created.error))
  }

  /** The outcome of the body of `updateProduct`. */
  function UpdateBody(repo: ProductRepository, productId: string): Result<(), Failure> {
    var found := repo.FindById(productId);
    if found.Err? then Err(Passed(found.error))
    else if found.value.None? then Err(Http(ProductNotFound))
    else if repo.saveFails.Some? then Err(Passed(repo.saveFails.value))
    else Ok(())
  }

  /** The outcome of the body of `deleteProduct`. */
  function DeleteBody(repo: ProductRepository, productId: string): Result<(), Failure> {
    var deleted := repo.deleteById(productId);
    if deleted.Err? then Err(Passed(deleted.error))
    else if deleted.value == 0 then Err(Http(ProductNotFound))
    else Ok(())
  }

  /** Updating a product that does not exist fails with the update error,
      a BAD_REQUEST, and not with NOT_FOUND. */
  lemma {:induction false} MissingUpdateIsBadRequest(repo: ProductRepository, productId: string, commitFails: bool)
    requires repo.FindById(productId) == Ok(None)
    ensures Transact(UpdateBody(repo, productId), commitFails, false, ProductUpdateError).result == Err(Http(ProductUpdateError))
    ensures ProductUpdateError.status == BadRequest
  {
  }

  /** Deleting a product that does not exist aborts and fails with the
      deletion error, a BAD_REQUEST. */
  lemma {:induction false} MissingDeleteIsBadRequest(repo: ProductRepository, productId: string, commitFails: bool)
    requires repo.deleteById(productId) == Ok(0)
    ensures var e := Transact(DeleteBody(repo, productId), commitFails, false, ProductDeletionError);
      e.result == Err(Http(ProductDeletionError)) && AbortTransaction in e.steps && CommitTransaction !in e.steps
  {
  }

  class ProductServiceImpl {
    const repo: ProductRepository

    constructor(repo: ProductRepository)
      ensures this.repo == repo
    {
      this.repo := repo;
    }

    /** `createProduct`: stores the request's fields in a transaction and
        answers the new id; on failure, aborts and throws the creation
        error. */
    method CreateProduct(dto: CreateProductDto, session: ClientSession) returns (r: Result<string, Failure>)
      modifies session
      ensures var e := Transact(CreateBody(repo, dto), session.commitFails, session.abortFails, ProductCreationError);
        session.steps == old(session.steps) + e.steps && r == e.result
    {
      session.Start();
      var created := repo.create(FromCreateDto(dto));
      var failed := created.Err?;
      if !failed {
        var committed := session.Commit();
        failed := !committed;
      }
      if failed {
        var aborted := session.Abort();
        r := if aborted then Err(Http(ProductCreationError)) else Err(Passed("abort failed"));
      } else {
        r := Ok(created.value);
      }
      session.End();
    }

    /** `getProducts`: the products the query finds, or PRODUCTS_NOT_FOUND
        when there are none. */
    method GetProducts(filters: ProductFilters) returns (r: Result<seq<Product>, Failure>)
      ensures repo.findAll(filters).Err? ==> r == Err(Passed(repo.findAll(filters).error))
      ensures repo.findAll(filters).Ok? && repo.findAll(filters).value == [] ==> r == Err(Http(ProductsNotFound))
      ensures repo.findAll(filters).Ok? && repo.findAll(filters).value != [] ==> r == Ok(repo.findAll(filters).value)
    {
      var found := repo.findAll(filters);
      if found.Err? {
        return Err(Passed(found.error));
      }
      if |found.value| == 0 {
        return Err(Http(ProductsNotFound));
      }
      r := Ok(found.value);
    }

    /** `getProduct`: the product with the id, or PRODUCT_NOT_FOUND. */
    method GetProduct(productId: string) returns (r: Result<Product, Failure>)
      ensures repo.FindById(productId).Err? ==> r == Err(Passed(repo.FindById(productId).error))
      ensures repo.FindById(productId) == Ok(None) ==> r == Err(Http(ProductNotFound))
      ensures repo.FindById(productId).Ok? && repo.FindById(productId).value.Some? ==>
        r == Ok(repo.FindById(productId).value.value)
    {
      var found := repo.FindById(productId);
      if found.Err? {
        return Err(Passed(found.error));
      }
      if found.value.None? {
        return Err(Http(ProductNotFound));
      }
      r := Ok(found.value.value);
    }

    /** `updateProduct`: finds the product, merges the request into it and
        saves it, in a transaction; any failure, a missing product included,
        aborts and throws the update error. */
    method UpdateProduct(productId: string, dto: UpdateProductDto, session: ClientSession) returns (r: Result<(), Failure>)
      modifies session, repo, repo.Found(productId)
      ensures var e := Transact(UpdateBody(repo, productId), session.commitFails, session.abortFails, ProductUpdateError);
        session.steps == old(session.steps) + e.steps && r == e.result
      ensures forall p :: p in repo.Found(productId) ==> p.Fields() == Merge(dto, old(p.Fields()))
      ensures repo.Found(productId) != {} && repo.saveFails.None? ==>
        repo.saved == old(repo.saved) + [Merge(dto, old(repo.FindById(productId).value.value.Fields()))]
      ensures repo.Found(productId) == {} || repo.saveFails.Some? ==> repo.saved == old(repo.saved)
    {
      session.Start();
      var found := repo.FindById(productId);
      var failed := true;
      if found.Ok? && found.value.Some? {
        var product := FromUpdateDto(dto, found.value.value);
        var saved := repo.Save(product);
        failed := saved.Err?;
        if !failed {
          var committed := session.Commit();
          failed := !committed;
        }
      }
      if failed {
        var aborted := session.Abort();
        r := if aborted then Err(Http(ProductUpdateError)) else Err(Passed("abort failed"));
      } else {
        r := Ok(());
      }
      session.End();
    }

    /** `deleteProduct`: deletes by id in a transaction; nothing deleted, or
        any failure, aborts and throws the deletion error. */
    method DeleteProduct(productId: string, session: ClientSession) returns (r: Result<(), Failure>)
      modifies session
      ensures var e := Transact(DeleteBody(repo, productId), session.commitFails, session.abortFails, ProductDeletionError);
        session.steps == old(session.steps) + e.steps && r == e.result
    {
      session.Start();
      var deleted := repo.deleteById(productId);
      var failed := deleted.Err? || deleted.value == 0;
      if !failed {
        var committed := session.Commit();
        failed := !committed;
      }
      if failed {
        var aborted := session.Abort();
        r := if aborted then Err(Http(ProductDeletionError)) else Err(Passed("abort failed"));
      } else {
        r := Ok(());
      }
      session.End();
    }
  }
}
