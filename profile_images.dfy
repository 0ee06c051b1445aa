/** Profile images: where `uploadCustomerImage` puts an image in the customer bucket and
    where `getCustomerImage` looks for it. The bucket is a map from object key to bytes. */
module ProfileImages {
  import opened Wrappers
  import opened JavaText
  import opened Customers

  type Bytes = seq<bv8>

  /** The customer bucket of the object store. */
  type ObjectStore = map<string, Bytes>

  const KeyPrefix: string := "profile-images/"

  /** `"profile-images/%s/%s".formatted(customerId, profileImageId)`. */
  function ProfileImageKey(customerId: int, imageId: string): (key: string)
    ensures |KeyPrefix| < |key| && key[..|KeyPrefix|] == KeyPrefix
  {
    KeyPrefix + (IntToDecimal(customerId) + "/" + imageId)
  }

  /** In `a + "/" + x` with no '/' in `a`, the first '/' is the one after `a`. */
  lemma FirstSlash(a: string, x: string)
    requires '/' !in a
    ensures (a + "/" + x)[|a|] == '/'
    ensures forall i :: 0 <= i < |a| ==> (a + "/" + x)[i] != '/'
  {
  }

  /** Two strings without a '/' followed by a '/' split the same way only if they agree. */
  lemma SlashSplit(a: string, x: string, b: string, y: string)
    requires '/' !in a && '/' !in b
    requires a + "/" + x == b + "/" + y
    ensures a == b && x == y
  {
    var s := a + "/" + x;
    FirstSlash(a, x);
    FirstSlash(b, y);
    if |a| != |b| {
      assert false;
    }
    assert a == s[..|a|] == b;
    assert x == s[|a| + 1..] == y;
  }

  /** Different customers, or different image ids, never share an object key. */
  lemma ProfileImageKeyInjective(a: int, x: string, b: int, y: string)
    requires ProfileImageKey(a, x) == ProfileImageKey(b, y)
    ensures a == b && x == y
  {
    var ra, rb := IntToDecimal(a) + "/" + x, IntToDecimal(b) + "/" + y;
    assert ra == (KeyPrefix + ra)[|KeyPrefix|..];
    assert rb == (KeyPrefix + rb)[|KeyPrefix|..];
    SlashSplit(IntToDecimal(a), x, IntToDecimal(b), y);
    IntToDecimalInjective(a, b);
  }

  /** The customer's recorded image id, when it is present and not blank. */
  predicate HasProfileImage(c: Customer) {
    c.profileImageId.Some? && !IsBlank(c.profileImageId.value)
  }

  /** `uploadCustomerImage` on values: the table and bucket it leaves behind, or the
      exception. `imageId` is the generated UUID; `transferOk` says whether the storage
      transfer completes. */
  function Upload(t: Table, objects: ObjectStore, id: int, imageId: UuidText, content: Bytes,
                  transferOk: bool): (r: Result<(Table, ObjectStore), Error>)
    ensures id !in t ==> r == Failure(ResourceNotFound(MissingCustomer))
    ensures id in t && !transferOk ==> r == Failure(TransferFailure)
    ensures r.Success? <==> id in t && transferOk
    ensures r.Success? ==> var (t', objects') := r.value; var key := ProfileImageKey(id, imageId);
      && key in objects' && objects'[key] == content
      && (forall k :: k in objects && k != key ==> k in objects' && objects'[k] == objects[k])
      && objects'.Keys == objects.Keys + {key}
      && t'.Keys == t.Keys && OthersUnchanged(t, t', id)
      && t'[id] == t[id].(profileImageId := Some(imageId))
      && HasProfileImage(t'[id])
    ensures r.Success? && WellFormed(t) ==> WellFormed(r.value.0)
  {
    if id !in t then
      Failure(ResourceNotFound(MissingCustomer))
    else if !transferOk then
      Failure(TransferFailure)
    else
      UuidTextIsNotBlank(imageId);
      var objects' := objects[ProfileImageKey(id, imageId) := content];
      Success((t[id := t[id].(profileImageId := Some(imageId))], objects'))
  }

  /** `getCustomerImage` on values: the bytes stored under the customer's current image
      key, or the exception. */
  function Download(t: Table, objects: ObjectStore, id: int, transferOk: bool): (r: Result<Bytes, Error>)
    ensures id !in t ==> r == Failure(ResourceNotFound(MissingCustomer))
    ensures id in t && !HasProfileImage(t[id]) ==> r == Failure(ResourceNotFound(MissingProfileImage))
    ensures r.Success? <==>
      && id in t && HasProfileImage(t[id]) && transferOk
      && ProfileImageKey(id, t[id].profileImageId.value) in objects
    ensures r.Success? ==> r.value == objects[ProfileImageKey(id, t[id].profileImageId.value)]
    ensures r.Failure? && id in t && HasProfileImage(t[id]) ==> r.error == TransferFailure
  {
    if id !in t then
      Failure(ResourceNotFound(MissingCustomer))
    else if !HasProfileImage(t[id]) then
      Failure(ResourceNotFound(MissingProfileImage))
    else
      var key := ProfileImageKey(id, t[id].profileImageId.value);
      if transferOk && key in objects then Success(objects[key]) else Failure(TransferFailure)
  }

  /** A download that follows a successful upload returns the uploaded bytes. */
  lemma UploadThenDownload(t: Table, objects: ObjectStore, id: int, imageId: UuidText, content: Bytes)
    requires id in t
    ensures Upload(t, objects, id, imageId, content, true).Success?
    ensures var (t', objects') := Upload(t, objects, id, imageId, content, true).value;
      Download(t', objects', id, true) == Success(content)
  {
  }

  /** An upload for one customer leaves every other customer's download as it was. */
  lemma UploadKeepsOtherDownloads(t: Table, objects: ObjectStore, id: int, imageId: UuidText,
                                  content: Bytes, transferOk: bool, other: int, downloadOk: bool)
    requires other != id
    requires Upload(t, objects, id, imageId, content, transferOk).Success?
    ensures var (t', objects') := Upload(t, objects, id, imageId, content, transferOk).value;
      Download(t', objects', other, downloadOk) == Download(t, objects, other, downloadOk)
  {
    var (t', objects') := Upload(t, objects, id, imageId, content, transferOk).value;
    if other in t && HasProfileImage(t[other]) {
      var key := ProfileImageKey(other, t[other].profileImageId.value);
      if key == ProfileImageKey(id, imageId) {
        ProfileImageKeyInjective(other, t[other].profileImageId.value, id, imageId);
      }
    }
  }
}
