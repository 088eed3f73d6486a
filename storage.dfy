/** The object-storage client, as a record of the upload calls made on it. */
module Storage {

  /** One s3.upload_file(localPath, bucket, key) call. */
  datatype Put = Put(localPath: string, bucket: string, key: string)

  class ObjectStore {
    var puts: seq<Put>

    constructor ()
      ensures puts == []
    {
      puts := [];
    }

    /** s3.upload_file(localPath, bucket, key). */
    method UploadFile(localPath: string, bucket: string, key: string)
      modifies this
      ensures puts == old(puts) + [Put(localPath, bucket, key)]
    {
      puts := puts + [Put(localPath, bucket, key)];
    }
  }
}
