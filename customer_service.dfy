/** `CustomerService` (backend/src/main/java/com/fileupload/customer/CustomerService.java)
    as a class over the state of its collaborators: the customer table behind
    `customerDao`, the customer bucket behind `s3Service`, and the temporary files it
    stages transfers through. Each method is proved against the rule of the same
    operation in `Customers` or `ProfileImages`. */
module Service {
  import opened Wrappers
  import opened JavaText
  import opened Customers
  import opened ProfileImages

  class CustomerService {
    /** The customer table behind `customerDao`. */
    var customers: Table
    /** The id the database's sequence gives the next inserted row. */
    var nextId: int
    /** The customer bucket behind `s3Service`. */
    var objects: ObjectStore
    /** The temporary files that exist, by handle, with their contents. */
    var tempFiles: map<nat, Bytes>
    /** The handle the next temporary file gets; `Files.createTempFile` never reuses a name. */
    var nextTempFile: nat
    /** `passwordEncoder.encode`. */
    const encode: string -> string

    ghost predicate Valid()
      reads this
    {
      && WellFormed(customers)
      && (forall id :: id in customers ==> id < nextId)
      && (forall f :: f in tempFiles ==> f < nextTempFile)
    }

    /** Wires the service to a database holding `table`, whose sequence continues at
        `firstId`, and to the customer bucket. */
    constructor (encoder: string -> string, table: Table, firstId: int, bucket: ObjectStore)
      requires WellFormed(table) && forall id :: id in table ==> id < firstId
      ensures Valid()
      ensures customers == table && nextId == firstId && objects == bucket && tempFiles == map[]
      ensures encode == encoder
    {
      customers := table;
      nextId := firstId;
      objects := bucket;
      tempFiles := map[];
      nextTempFile := 0;
      encode := encoder;
    }

    // The customer table, as `customerDao` reads and writes it.

    /** `customerDao.selectCustomerById`. */
    function SelectCustomerById(id: int): (r: Option<Customer>)
      reads this
      ensures r.Some? <==> id in customers
      ensures r.Some? ==> r.value == customers[id]
      ensures Valid() && r.Some? ==> r.value.id == id
    {
      if id in customers then Some(customers[id]) else None
    }

    /** `customerDao.existsCustomerById`. */
    predicate ExistsCustomerById(id: int)
      reads this
      ensures ExistsCustomerById(id) <==> SelectCustomerById(id).Some?
    {
      id in customers
    }

    /** `customerDao.existsCustomerWithEmail`. */
    predicate ExistsCustomerWithEmail(email: string)
      reads this
      ensures ExistsCustomerWithEmail(email) <==>
        exists id :: SelectCustomerById(id).Some? && SelectCustomerById(id).value.email == email
      ensures Valid() ==> forall a, b ::
        a in customers && b in customers && customers[a].email == email && customers[b].email == email ==> a == b
    {
      assert forall id :: id in customers ==> SelectCustomerById(id) == Some(customers[id]);
      EmailHeld(customers, email)
    }

    /** `customerDao.insertCustomer`: the row gets the next id of the database's sequence. */
    method InsertCustomer(customer: Customer)
      modifies this`customers, this`nextId
      ensures customers == old(customers)[old(nextId) := customer.(id := old(nextId))]
      ensures nextId == old(nextId) + 1
    {
      customers := customers[nextId := customer.(id := nextId)];
      nextId := nextId + 1;
    }

    /** `customerDao.updateCustomerProfileImageId`. */
    method UpdateCustomerProfileImageId(imageId: string, id: int)
      requires id in customers
      modifies this`customers
      ensures customers == old(customers)[id := old(customers)[id].(profileImageId := Some(imageId))]
    {
      customers := customers[id := customers[id].(profileImageId := Some(imageId))];
    }

    // Temporary files and the storage transfers staged through them.

    /** `Files.createTempFile`: a new, empty file. */
    method CreateTempFile() returns (f: nat)
      modifies this`tempFiles, this`nextTempFile
      ensures f == old(nextTempFile) && nextTempFile == f + 1
      ensures tempFiles == old(tempFiles)[f := []]
    {
      f := nextTempFile;
      nextTempFile := nextTempFile + 1;
      tempFiles := tempFiles[f := []];
    }

    /** `Files.write`. */
    method WriteTempFile(f: nat, content: Bytes)
      requires f in tempFiles
      modifies this`tempFiles
      ensures tempFiles == old(tempFiles)[f := content]
    {
      tempFiles := tempFiles[f := content];
    }

    /** `Files.delete` / `Files.deleteIfExists`. */
    method DeleteTempFile(f: nat)
      modifies this`tempFiles
      ensures tempFiles == old(tempFiles) - {f}
    {
      tempFiles := tempFiles - {f};
    }

    /** `s3Service.uploadFile`: stores the file's bytes under `key` when the transfer
        completes; `transferOk` stands for the transfer's outcome. */
    method UploadFile(key: string, f: nat, transferOk: bool) returns (ok: bool)
      requires f in tempFiles
      modifies this`objects
      ensures ok == transferOk
      ensures objects == if ok then old(objects)[key := tempFiles[f]] else old(objects)
    {
      ok := transferOk;
      if ok {
        objects := objects[key := tempFiles[f]];
      }
    }

    /** `s3Service.downloadFile`: writes the object under `key` into the file; it fails
        when the transfer fails or no object has that key. */
    method DownloadFile(key: string, f: nat, transferOk: bool) returns (ok: bool)
      requires f in tempFiles
      modifies this`tempFiles
      ensures ok == (transferOk && key in objects)
      ensures tempFiles == if ok then old(tempFiles)[f := objects[key]] else old(tempFiles)
    {
      ok := transferOk && key in objects;
      if ok {
        tempFiles := tempFiles[f := objects[key]];
      }
    }

    // The service's operations.

    /** `getAllCustomers`: the projection of every row. */
    function GetAllCustomers(): (r: set<CustomerDto>)
      requires Valid()
      reads this
      ensures forall id :: id in customers ==> ToDto(customers[id]) in r
      ensures forall d :: d in r ==> d.id in customers && d == ToDto(customers[d.id])
      ensures |r| == |customers|
    {
      AllDtosSize(customers);
      AllDtos(customers)
    }

    /** `getCustomer`. */
    function GetCustomer(id: int): (r: Result<CustomerDto, Error>)
      reads this
      ensures r.Success? <==> id in customers
      ensures r.Success? ==> r.value == ToDto(customers[id])
      ensures r.Failure? ==> r.error == ResourceNotFound(MissingCustomer)
      ensures Valid() && r.Success? ==> r.value.id == id
    {
      match SelectCustomerById(id)
      case Some(c) => Success(ToDto(c))
      case None => Failure(ResourceNotFound(MissingCustomer))
    }

    /** `addCustomer`. */
    method AddCustomer(request: RegistrationRequest) returns (outcome: Outcome<Error>)
      requires Valid()
      modifies this`customers, this`nextId
      ensures Valid()
      ensures match Register(old(customers), old(nextId), request, encode)
        case Success(t) => outcome == Pass && customers == t && nextId == old(nextId) + 1
        case Failure(e) => outcome == Fail(e) && customers == old(customers) && nextId == old(nextId)
    {
      var email := request.email;
      if ExistsCustomerWithEmail(email) {
        return Fail(DuplicateResource);
      }
      var customer := Customer(0, request.name, request.email, encode(request.password),
                               request.age, request.gender, None);
      InsertCustomer(customer);
      return Pass;
    }

    /** `deleteCustomerById`. */
    method DeleteCustomerById(customerId: int) returns (outcome: Outcome<Error>)
      requires Valid()
      modifies this`customers
      ensures Valid()
      ensures match Delete(old(customers), customerId)
        case Success(t) => outcome == Pass && customers == t
        case Failure(e) => outcome == Fail(e) && customers == old(customers)
    {
      if !ExistsCustomerById(customerId) {
        return Fail(ResourceNotFound(MissingCustomer));
      }
      customers := customers - {customerId};
      return Pass;
    }

    /** `updateCustomer`: each non-null field that differs is set on the fetched row and
        flagged; the row is written back only if every check passes. */
    method UpdateCustomer(customerId: int, updateRequest: UpdateRequest) returns (outcome: Outcome<Error>)
      requires Valid()
      modifies this`customers
      ensures Valid()
      ensures match Update(old(customers), customerId, updateRequest)
        case Success(t) => outcome == Pass && customers == t
        case Failure(e) => outcome == Fail(e) && customers == old(customers)
    {
      var found := SelectCustomerById(customerId);
      if found.None? {
        return Fail(ResourceNotFound(MissingCustomer));
      }
      var customer := found.value;
      var changes := false;

      if updateRequest.name.Some? && updateRequest.name.value != customer.name {
        customer := customer.(name := updateRequest.name.value);
        changes := true;
      }

      if updateRequest.age.Some? && updateRequest.age.value != customer.age {
        customer := customer.(age := updateRequest.age.value);
        changes := true;
      }

      if updateRequest.email.Some? && updateRequest.email.value != customer.email {
        if ExistsCustomerWithEmail(updateRequest.email.value) {
          return Fail(DuplicateResource);
        }
        customer := customer.(email := updateRequest.email.value);
        changes := true;
      }

      if !changes {
        return Fail(RequestValidation);
      }

      customers := customers[customerId := customer];
      return Pass;
    }

    /** `uploadCustomerImage`, with `profileImageId` the generated UUID and `transferOk`
        the outcome of the storage transfer. The staging file is deleted only after a
        successful upload, and the row is written last. */
    method UploadCustomerImage(customerId: int, profileImageId: UuidText, content: Bytes,
                               transferOk: bool) returns (outcome: Outcome<Error>)
      requires Valid()
      modifies this`customers, this`objects, this`tempFiles, this`nextTempFile
      ensures Valid()
      ensures match Upload(old(customers), old(objects), customerId, profileImageId, content, transferOk)
        case Success((t, o)) => outcome == Pass && customers == t && objects == o
        case Failure(e) => outcome == Fail(e) && customers == old(customers) && objects == old(objects)
      ensures outcome.Pass? ==> tempFiles == old(tempFiles)
      ensures outcome != Fail(ResourceNotFound(MissingCustomer)) ==> nextTempFile == old(nextTempFile) + 1
      ensures outcome == Fail(ResourceNotFound(MissingCustomer)) ==>
        tempFiles == old(tempFiles) && nextTempFile == old(nextTempFile)
      ensures outcome == Fail(TransferFailure) ==>
        tempFiles == old(tempFiles)[old(nextTempFile) := content]
    {
      if !ExistsCustomerById(customerId) {
        return Fail(ResourceNotFound(MissingCustomer));
      }
      var key := ProfileImageKey(customerId, profileImageId);
      var tempFile := CreateTempFile();
      WriteTempFile(tempFile, content);
      var uploaded := UploadFile(key, tempFile, transferOk);
      if !uploaded {
        return Fail(TransferFailure);
      }
      DeleteTempFile(tempFile);
      UpdateCustomerProfileImageId(profileImageId, customerId);
      return Pass;
    }

    /** `getCustomerImage`, with `transferOk` the outcome of the storage transfer. The
        staging file is deleted on every path that created it, as the `finally` does. */
    method GetCustomerImage(customerId: int, transferOk: bool) returns (r: Result<Bytes, Error>)
      requires Valid()
      modifies this`tempFiles, this`nextTempFile
      ensures Valid()
      ensures r == Download(customers, objects, customerId, transferOk)
      ensures tempFiles == old(tempFiles)
      ensures nextTempFile ==
        if customerId in customers && HasProfileImage(customers[customerId]) then old(nextTempFile) + 1
        else old(nextTempFile)
    {
      var found := SelectCustomerById(customerId);
      if found.None? {
        return Failure(ResourceNotFound(MissingCustomer));
      }
      var customer := ToDto(found.value);
      if customer.profileImageId.None? || IsBlank(customer.profileImageId.value) {
        return Failure(ResourceNotFound(MissingProfileImage));
      }
      var key := ProfileImageKey(customerId, customer.profileImageId.value);
      var tempFile := CreateTempFile();
      var downloaded := DownloadFile(key, tempFile, transferOk);
      if downloaded {
        r := Success(tempFiles[tempFile]);
      } else {
        r := Failure(TransferFailure);
      }
      DeleteTempFile(tempFile);
    }
  }
}
