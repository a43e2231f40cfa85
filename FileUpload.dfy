/** The photo upload field (src/components/fileUpload/index.tsx): the type
    and size checks a chosen file must pass, the preview and error it keeps,
    and what it reports to its `onChange`. The Base64 encoding of an
    accepted file is a parameter: the encoded text, or `None` when the
    encoder failed. */
module FileUpload {
  import opened Js

  /** 5 MiB, the largest accepted size in bytes. */
  const MaxBytes: nat := 5 * 1024 * 1024
  const ImagePrefix := "image/"
  const NotAnImage := "Please select an image file"
  const TooLarge := "File size must be less than 5MB"
  const ProcessFailed := "Failed to process image"

  /** What the handler reads of a chosen file: its MIME type and size. */
  datatype FileInfo = FileInfo(mimeType: string, size: nat)

  /** The message a chosen file is refused with, if any: the type check
      comes first, then the size check. */
  function Rejection(file: FileInfo): (r: Option<string>)
    ensures r == Some(NotAnImage) <==> !(ImagePrefix <= file.mimeType)
    ensures r == Some(TooLarge) <==> ImagePrefix <= file.mimeType && file.size > MaxBytes
    ensures r == None <==> ImagePrefix <= file.mimeType && file.size <= MaxBytes
  {
    if !(ImagePrefix <= file.mimeType) then Some(NotAnImage)
    else if file.size > MaxBytes then Some(TooLarge)
    else None
  }

  /** The limit is 5,242,880 bytes and inclusive: a file of exactly that size
      is accepted, one byte more is refused, and a non-image of any size is
      refused for its type. */
  lemma SizeLimitBoundary(mimeType: string)
    ensures MaxBytes == 5242880
    ensures ImagePrefix <= mimeType ==> Rejection(FileInfo(mimeType, MaxBytes)) == None
    ensures ImagePrefix <= mimeType ==> Rejection(FileInfo(mimeType, MaxBytes + 1)) == Some(TooLarge)
    ensures !(ImagePrefix <= mimeType) ==> Rejection(FileInfo(mimeType, MaxBytes + 1)) == Some(NotAnImage)
  {
  }

  class FileUploadField {
    var preview: Option<string>
    var error: Option<string>

    /** `useState(value || null)`: an empty value shows no preview. */
    constructor (value: Option<string>)
      ensures preview == (if Truthy(value) then value else None) && error == None
    {
      preview := if Truthy(value) then value else None;
      error := None;
    }

    /** `handleFileChange`. No file: nothing happens. A refused file: its
        message is shown and nothing is reported. An accepted file clears
        the error; its encoding becomes both the preview and the reported
        value, or, when encoding fails, the failure message is shown and
        nothing is reported. */
    method HandleFileChange(file: Option<FileInfo>, encoded: Option<string>) returns (reported: Option<string>)
      modifies this
      ensures file.None? ==> reported == None && preview == old(preview) && error == old(error)
      ensures file.Some? && Rejection(file.value).Some? ==>
                reported == None && preview == old(preview) && error == Rejection(file.value)
      ensures file.Some? && Rejection(file.value).None? && encoded.Some? ==>
                reported == encoded && preview == encoded && error == None
      ensures file.Some? && Rejection(file.value).None? && encoded.None? ==>
                reported == None && preview == old(preview) && error == Some(ProcessFailed)
      ensures reported.Some? ==> file.Some? && Rejection(file.value).None? && preview == reported
    {
      reported := None;
      if file.None? {
        return;
      }
      var f := file.value;
      if !(ImagePrefix <= f.mimeType) {
        error := Some(NotAnImage);
        return;
      }
      if f.size > MaxBytes {
        error := Some(TooLarge);
        return;
      }
      error := None;
      if encoded.Some? {
        preview := encoded;
        reported := encoded;
      } else {
        error := Some(ProcessFailed);
      }
    }

    /** `handleRemove`: the preview goes and "" is reported; a shown error
        stays. */
    method HandleRemove() returns (reported: string)
      modifies this
      ensures preview == None && reported == "" && error == old(error)
    {
      preview := None;
      reported := "";
    }
  }
}
