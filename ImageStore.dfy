/** The disk image store (service/image_store.go): image bytes go to a file,
    image metadata to an in-memory map. */
module ImageStore {
  import opened Base

  /** maxImageSize, 1 << 20 bytes. The store itself never checks it. */
  const MaxImageSize: nat := 0x10_0000

  /** The metadata kept for one stored image. */
  datatype ImageInfo = ImageInfo(laptopId: string, imageType: string, path: string)

  /** How image.WriteTo(file) ends: all bytes written, or an error after some of them. */
  datatype WriteOutcome = Written | WriteFailed(bytesWritten: nat)

  /** The environment's answers during one Save: the id uuid.NewRandom gives
      (none when it fails), whether os.Create succeeds, and how the write ends. */
  datatype DiskOracle = DiskOracle(newId: Option<string>, createOk: bool, write: WriteOutcome)

  datatype ImageError = CannotCreateImageId | CannotCreateImageFile | CannotWriteImageFile

  /** The file path of an image: folder, a slash, the image id and the type (its extension). */
  function ImagePath(folder: string, imageId: string, imageType: string): string
  {
    folder + "/" + imageId + imageType
  }

  predicate SaveSucceeds(env: DiskOracle)
  {
    env.newId.Some? && env.createOk && env.write.Written?
  }

  function Min(a: nat, b: nat): nat
  {
    if a <= b then a else b
  }

  /** DiskImageStore. `disk` is the part of the file system the store writes
      to: the content of each file, by path. */
  class DiskImageStore {
    const imageFolder: string
    var images: map<string, ImageInfo>
    var disk: map<string, seq<byte>>

    constructor (imageFolder: string, disk: map<string, seq<byte>>)
      ensures this.imageFolder == imageFolder && images == map[] && this.disk == disk
    {
      this.imageFolder := imageFolder;
      this.images := map[];
      this.disk := disk;
    }

    /** Save: generate an id, create the file, write the bytes, then record the
        metadata. Each step can fail; a failed write leaves the file and what
        was written of it, and no metadata. There is no size check. */
    method Save(laptopId: string, imageType: string, image: seq<byte>, env: DiskOracle) returns (result: Result<string, ImageError>)
      modifies this
      ensures env.newId.None? ==>
        result == Failure(CannotCreateImageId) && images == old(images) && disk == old(disk)
      ensures env.newId.Some? && !env.createOk ==>
        result == Failure(CannotCreateImageFile) && images == old(images) && disk == old(disk)
      ensures env.newId.Some? && env.createOk && env.write.WriteFailed? ==>
        && result == Failure(CannotWriteImageFile)
        && images == old(images)
        && disk == old(disk)[ImagePath(imageFolder, env.newId.value, imageType) := image[..Min(env.write.bytesWritten, |image|)]]
      ensures SaveSucceeds(env) ==>
        var imageId := env.newId.value;
        var path := ImagePath(imageFolder, imageId, imageType);
        && result == Success(imageId)
        && images == old(images)[imageId := ImageInfo(laptopId, imageType, path)]
        && disk == old(disk)[path := image]
    {
      if env.newId.None? {
        return Failure(CannotCreateImageId);
      }
      var imageId := env.newId.value;
      var imagePath := ImagePath(imageFolder, imageId, imageType);
      if !env.createOk {
        return Failure(CannotCreateImageFile);
      }
      disk := disk[imagePath := []];
      if env.write.WriteFailed? {
        disk := disk[imagePath := image[..Min(env.write.bytesWritten, |image|)]];
        return Failure(CannotWriteImageFile);
      }
      disk := disk[imagePath := image];
      images := images[imageId := ImageInfo(laptopId, imageType, imagePath)];
      result := Success(imageId);
    }
  }
}
