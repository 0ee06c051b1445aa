# Customer service model

A Dafny model of the customer service of a customer-record backend
(`backend/src/main/java/com/fileupload/customer/CustomerService.java`): registration,
lookup, listing, deletion, partial update of customers, and upload and download of a
customer's profile image through an object-storage bucket.

The model has two layers.

- **Rules on values** (`customers.dfy`, `profile_images.dfy`): each operation as a
  function from the customer table (and the bucket) to the new state or the exception.
  Their contracts state the service's promises: which error each precondition raises and
  in what order, that exactly one row changes, which fields take which values, that email
  uniqueness is kept, where image keys point.
- **The service as a class** (`customer_service.dfy`): `Service.CustomerService` holds the
  state the Java service reaches through its collaborators: the customer table
  (`customerDao`), the id sequence of the database, the customer bucket (`s3Service`),
  the temporary files it stages transfers through, and the password encoder. Its methods
  follow the Java code step by step (the setters and the `changes` flag of
  `updateCustomer`, the temp-file steps of the upload, the `try`/`finally` of the
  download). Each is proved to produce exactly the state and outcome of its rule, and to
  keep the class invariant `Valid()`: every row stored under its own id, emails unique,
  ids below the sequence's next value.

Collaborators are abstracted this way:

- `PasswordEncoder.encode` is the class constant `encode`, an arbitrary function.
- `UUID.randomUUID().toString()` is a parameter of type `JavaText.UuidText`: any string of
  the UUID text shape.
- The success or failure of a storage transfer is a `transferOk` parameter. A download of
  a key that holds no object fails too.
- The bucket is a map from key to bytes. Temporary files are a map from handle to bytes,
  with fresh handles from a counter.
- The database assigns ids from a sequence, modelled by the field `nextId`.

`java_text.dfy` models the Java library behaviour the service depends on:
`Character.isWhitespace`/`String.isBlank`, `Integer.toString` as `%s` prints an
`Integer`, and the text form of a UUID. `wrappers.dfy` holds `Option`, `Result` and
`Outcome`; an exception is a `Failure`/`Fail` value.

Three behaviours of the code that are easy to misread, modelled as written:

- An upload whose storage transfer fails leaves its temporary file behind. The code
  deletes it only after a successful transfer, outside any `finally`
  (`UploadCustomerImage` states this). The download, by contrast, deletes its temporary
  file on every path.
- The download rejects a blank image id as well as a missing one.
- The update's uniqueness check asks whether any customer holds the new email. This is
  the same as "another customer", because the check runs only when the email differs
  from the customer's own.

## Model

| member | source | states |
|---|---|---|
| `Service.CustomerService.GetAllCustomers` | backend/src/main/java/com/fileupload/customer/CustomerService.java:39-44 | the listing holds the projection of every row, nothing else, and exactly as many entries as there are customers |
| `Customers.AllDtosSize` | backend/src/main/java/com/fileupload/customer/CustomerService.java:39-44 | projecting a table whose rows sit under their own ids loses no row: one projection per customer |
| `Service.CustomerService.GetCustomer` | backend/src/main/java/com/fileupload/customer/CustomerService.java:46-52 | succeeds exactly when the id is present, with that row's password-free projection carrying the same id; otherwise NotFound for the customer |
| `Customers.Register` | backend/src/main/java/com/fileupload/customer/CustomerService.java:54-72 | fails with DuplicateResource exactly when the email is already held; otherwise inserts one row under the new id with the request's name, email, age and gender, `encode(password)`, no image, leaves every other row, grows the table by one and keeps emails unique |
| `Service.CustomerService.AddCustomer` | backend/src/main/java/com/fileupload/customer/CustomerService.java:54-72 | the table and outcome are those of `Register` with the sequence's next id, which advances only on success; the invariant is kept |
| `Service.CustomerService.InsertCustomer` | backend/src/main/java/com/fileupload/customer/CustomerService.java:71 | the row is stored under the sequence's next id, which advances by one |
| `Customers.Delete` | backend/src/main/java/com/fileupload/customer/CustomerService.java:74-82 | fails with NotFound exactly when the id is absent; otherwise removes that id only, keeps every other row and the invariant |
| `Service.CustomerService.DeleteCustomerById` | backend/src/main/java/com/fileupload/customer/CustomerService.java:74-82 | the table and outcome are those of `Delete`; a failure changes nothing |
| `Customers.Update` | backend/src/main/java/com/fileupload/customer/CustomerService.java:84-119 | succeeds exactly when the id is present, the email check passes and some field really changes, and then changes exactly that row; NotFound exactly when the id is absent; DuplicateResource exactly when the email changes to one already held; otherwise RequestValidation exactly when every field is null or equal to the current one; on success each of name, age and email is the request's value when non-null and the old one otherwise, id, password, gender and image id are kept, no other row changes, and emails stay unique |
| `Service.CustomerService.UpdateCustomer` | backend/src/main/java/com/fileupload/customer/CustomerService.java:84-119 | the setter-and-flag procedure yields exactly the table and outcome of `Update`; on any failure, including a duplicate email after staged name or age changes, the table is unchanged |
| `Service.CustomerService.SelectCustomerById` | backend/src/main/java/com/fileupload/customer/CustomerService.java:87-90 | a row is found exactly when the id is present, and it is the stored row with that id |
| `Service.CustomerService.ExistsCustomerById` | backend/src/main/java/com/fileupload/customer/CustomerService.java:75 | true exactly when a lookup of the id finds a row |
| `Service.CustomerService.ExistsCustomerWithEmail` | backend/src/main/java/com/fileupload/customer/CustomerService.java:105 | true exactly when some stored customer has the email; under the invariant at most one does |
| `Customers.ToDto` | backend/src/main/java/com/fileupload/customer/CustomerService.java:152-156 | the projection copies id, name, email, gender, age and image id, and has no password |
| `Customers.ToDtoForgetsOnlyPassword` | backend/src/main/java/com/fileupload/customer/CustomerService.java:46-52 | two customers project alike exactly when they differ at most in the password |
| `JavaText.IsBlank` | backend/src/main/java/com/fileupload/customer/CustomerService.java:157 | the empty id is blank, and an id is blank exactly when all its characters are Java whitespace |
| `JavaText.IntToDecimal` | backend/src/main/java/com/fileupload/customer/CustomerService.java:128 | the printed id is non-empty, contains no '/', and starts with '-' exactly for negative ids |
| `JavaText.IntToDecimalInjective` | backend/src/main/java/com/fileupload/customer/CustomerService.java:128 | distinct ids print differently (printing reads back to the same integer) |
| `JavaText.UuidTextIsNotBlank` | backend/src/main/java/com/fileupload/customer/CustomerService.java:127 | a generated image id is never blank, so the download's blank check never rejects it |
| `ProfileImages.ProfileImageKey` | backend/src/main/java/com/fileupload/customer/CustomerService.java:128 | every image key lies under the `profile-images/` prefix |
| `ProfileImages.ProfileImageKeyInjective` | backend/src/main/java/com/fileupload/customer/CustomerService.java:162 | upload and download derive the same key format, and two keys are equal only for the same customer id and image id |
| `ProfileImages.Upload` | backend/src/main/java/com/fileupload/customer/CustomerService.java:121-148 | NotFound when the customer is absent, a transfer failure when the transfer fails, both changing nothing; otherwise the bytes are stored under `profile-images/{id}/{imageId}`, no other object changes, and only that customer's image id changes, to the new non-blank id |
| `Service.CustomerService.UploadCustomerImage` | backend/src/main/java/com/fileupload/customer/CustomerService.java:121-148 | the table, bucket and outcome are those of `Upload`; the row is written only after the transfer succeeded; the staging file is gone after success, never created for an absent customer, and left behind holding the bytes after a failed transfer; exactly one new file handle is used whenever the customer exists |
| `ProfileImages.Download` | backend/src/main/java/com/fileupload/customer/CustomerService.java:150-183 | NotFound for an absent customer, NotFound for a null or blank image id; otherwise exactly the bytes under the customer's key, or a transfer failure when the transfer fails or no object has that key |
| `Service.CustomerService.GetCustomerImage` | backend/src/main/java/com/fileupload/customer/CustomerService.java:150-183 | the result is that of `Download`, and the set of temporary files is the same afterwards on every path, success or failure; exactly one file handle is used when a download is attempted, none before |
| `ProfileImages.UploadThenDownload` | backend/src/main/java/com/fileupload/customer/CustomerService.java:127-176 | after a successful upload for an existing customer, a successful download returns the uploaded bytes |
| `ProfileImages.UploadKeepsOtherDownloads` | backend/src/main/java/com/fileupload/customer/CustomerService.java:128-142 | an upload for one customer leaves every other customer's download result unchanged |
| `Service.CustomerService.UpdateCustomerProfileImageId` | backend/src/main/java/com/fileupload/customer/CustomerService.java:142 | only the given customer's image id changes |
| `Service.CustomerService.CreateTempFile` | backend/src/main/java/com/fileupload/customer/CustomerService.java:130 | a new, empty temporary file under a handle never used before |
| `Service.CustomerService.WriteTempFile` | backend/src/main/java/com/fileupload/customer/CustomerService.java:131 | the file holds the multipart bytes |
| `Service.CustomerService.DeleteTempFile` | backend/src/main/java/com/fileupload/customer/CustomerService.java:178-181 | the file no longer exists, the others are untouched |
| `Service.CustomerService.UploadFile` | backend/src/main/java/com/fileupload/s3/S3Service.java:26-41 | a completed transfer stores the file's bytes under the key; a failed one changes nothing |
| `Service.CustomerService.DownloadFile` | backend/src/main/java/com/fileupload/s3/S3Service.java:43-57 | a completed transfer of an existing key writes that object's bytes into the file; otherwise it fails |
| `Service.CustomerService.constructor` | backend/src/main/java/com/fileupload/customer/CustomerService.java:29-37 | a service over the database's existing well-formed table, with the given encoder, bucket and next id, satisfies the invariant and starts with no temporary files |

## Left out

- `GetAllCustomers` returns a set: the order of the list depends on the DAO's query, and the DAO is not part of this model.
- The Java code of `Customer`, `CustomerDTO`, `CustomerDTOMapper`, the request records and the DAO (its SQL) is not part of this model; they are modelled from how the service uses them. The projection is assumed to carry id, name, email, gender, age and image id, and never the password.
- Password hashing: `encode` is an arbitrary function. Nothing is proved about it beyond being applied to the plaintext.
- UUID generation: the image id is a parameter of UUID shape. Its randomness and uniqueness are not modelled.
- Failures of the local file system (`createTempFile`, `write`, `delete`, `readAllBytes`) are not modelled. Those steps always succeed. Only the storage transfer can fail.
- Bean validation of requests and null fields in a registration request are not modelled: their annotations are not part of this model.
- Java's 32-bit `Integer` range for ids and ages is not modelled: they are unbounded integers.
- Exception message texts, logging, the ETag and content length the storage client returns, and the bucket name (one bucket is modelled) are left out.
- Database transactions and concurrent requests are left out: each operation runs alone.
- `S3Service` is modelled only as the effect on the bucket map. `S3Config`, `Main` (seed data) and `AuthenticationResponse` have no logic here and are left out.
